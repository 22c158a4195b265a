# Physics3D calibration bookkeeping in Dafny

`simulation.py` calibrates the material fields of a Gaussian-splat scene against a
video-diffusion guidance model. A differentiable MPM solver moves the particles, a
rasteriser renders them, and the guidance scores the rendered frames. The solver,
rasteriser, guidance and geometry helpers are foreign calls. Around them sits a layer of
deterministic bookkeeping, and this project models that layer and proves properties
about it:

- **Particle selection** (`Selection`, on the mask algebra of `Arrays` and the
  parallel-array `Particles.Cloud`):
  - the opacity threshold;
  - the moving-part freeze split;
  - the strict sim-area box over rotated positions, which fails unless exactly six bounds
    are given.
- **Solver set-up** (`Setup`): the original particles come first (`gs_num` rows), filler
  particles follow, and the covariance buffer is zero-padded for the filler.
- **Per-frame re-composition** (`Compose`): the simulated prefix is mapped back to the
  world frame and the frozen particles are appended. This happens in the recorded stage
  and again in the output rollout.
- **End-to-end statements** (`Pipeline`): what reaches the renderer, whether the arrays
  it receives stay index-aligned, and whether they have as many rows as the screen points
  handed over with them.
- **The stage schedule** (`Schedule`): one run becomes a trace of solver, render and
  output events. `int(frame_dt / substep_dt)` truncates, and `range` of a non-positive
  count is empty. Counts are proved per batch and for the whole fifty-batch run.
- **Gradient rescaling and update launches** (`Gradients`): min-max rescaling into
  [-0.5, 0.5], or zeros for a degenerate range, followed by the four update launches and
  their fixed arguments.
- **Loss aggregation** (`Loss`): the `loss_`-prefixed guidance entries are weighted by
  3e-4 and divided by the stage count.
- **Small pure functions** (`Naming`, on `Strings`):
  - the SH degree inferred from the count of `f_rest_` properties;
  - the image name `f"{frame}.png".rjust(8, "0")` and the video name `video%02d.mp4`;
  - the even-dimension rounding `h // 2 * 2`.

Failures the code can reach are modelled as `Results.Result` errors:
- a sim area without exactly six bounds;
- a zero substep (the division fails);
- the max/min reduction of an empty gradient;
- a run without `--output_path`: stopped before any batch when the initial state is
  exported, otherwise by the assertion before the first image write;
- a guidance output with no `loss_` entry, where the loss stays the float `0.` and has no
  `backward`.

Geometry is abstracted as function parameters: the rotations, the normalising transform
and its inverse, the far-point test and the filler particles. Values are `real`.

The intended behaviour differs from the code in three places, and the model follows the
code:
- An empty set of particles after thresholding was meant to be a fatal error. The code has
  no such check, so an empty set flows on.
- The box test was meant to compare pre-transform positions. The code tests the rotated
  positions (`simulation.py:188-200`). The frozen rows keep their unrotated positions,
  while the kept rows carry the rotated ones.
- The two frozen-particle sources were meant to compose when both are configured. In the
  code they do not; see Findings.

`--output_path` defaults to `None` (`simulation.py:91`). The image writer asserts that it
is set (`simulation.py:606`), and the optional PLY/HDF5 export of the initial state joins it
with a directory name (`simulation.py:377-378`). `Schedule.RunOutcome` models three cases:
- a run that raises no `NoOutputPath` fault;
- a run that fails before any batch, when the export is requested without an output path;
- a run that stops before the first image write of batch 0, when there is no output path
  and no export.

## Model

| member | source | states |
|---|---|---|
| Arrays.Select | simulation.py:143-147 | `x[mask]` is never longer than `x`, and everything it holds comes from `x` |
| Arrays.Positions | simulation.py:143-147 | the indices a mask keeps are in range, have their bit set and are strictly increasing |
| Arrays.Merge | simulation.py:166-174 | interleaving the two sides of a split back by the mask gives one row per mask entry, each taken from one of the sides |
| Arrays.SelectMembership | simulation.py:143-147 | an element is in `x[mask]` exactly when some row holding it has its mask bit set |
| Arrays.MergeSplit | simulation.py:166-174 | splitting rows by a mask and by its complement, then merging the two sides back by the mask, gives the original rows: the split is a complementary, order-preserving partition |
| Arrays.PartitionLength | simulation.py:166-174 | the two sides of a complementary split have lengths summing to the input length |
| Arrays.SelectMap | simulation.py:188-207 | masking commutes with mapping a per-row transform (here the rotation) |
| Particles.MaskRecords | simulation.py:143-147 | applying one mask to each parallel array selects whole particle records, in order |
| Particles.AppendRecords | simulation.py:461-469 | concatenating two aligned clouds array by array concatenates their particle records |
| Selection.OpaqueIsSelect | simulation.py:142-147 | masking with the opacity mask equals the reference filter that keeps particles with opacity strictly above the threshold |
| Selection.OpacityFilter | simulation.py:142-147 | the filtered scene is aligned; its particles are exactly those with opacity strictly above the threshold, in order; row k of every array, screen points included, comes from the same source row |
| Selection.SplitBy | simulation.py:166-174 | a split by one mask and its complement: both sides aligned, sizes adding up, merging back restores the input, and every particle is on one side |
| Selection.FreezeSplit | simulation.py:162-174 | frozen particles are exactly the far ones and kept ones the near ones; sizes add up; every particle is on one side; merging the sides by the far mask restores the input |
| Selection.ComputeBoxMask | simulation.py:194-200 | fails with the bound count unless exactly six bounds are given; otherwise entry k is set exactly when the rotated position lies strictly between both bounds on all three axes |
| Selection.BoxSplit | simulation.py:197-210 | kept positions are rotated positions inside the box; frozen records are original, unrotated particles whose rotated position is outside; sizes add up; every particle is frozen as it is or kept with its position rotated |
| Selection.BoxSplitIsSplitBy | simulation.py:197-210 | the box split is the complementary split by the outside-the-box mask, with kept positions rotated |
| Selection.MovingSplit | simulation.py:155-174 | without a moving-part file nothing is frozen; either way both sides are aligned, their sizes add up and every particle is kept or frozen |
| Selection.Prepare | simulation.py:141-210 | pre-processing as written fails exactly when a sim area without six bounds is given; the results are aligned, as many screen points as opaque particles survive, and with a box every simulated position is inside it |
| Selection.PrepareConserves | simulation.py:141-210 | with at most one frozen source, every opaque particle is frozen as it is or simulated with its position rotated, and the two sets are exactly as large as the opaque set |
| Selection.PrepareAgrees | simulation.py:162-210 | with at most one frozen source, pre-processing as written equals the composed version |
| Selection.PrepareBothDropsMovingFrozen | simulation.py:162-205 | with both sources, the simulated and frozen outputs together hold the opaque particles minus those the moving-part split froze: those are lost |
| Selection.PrepareBothSources | simulation.py:162-210 | with both sources, the output is the box split of the particles the moving-part split kept |
| Selection.PrepareComposed | simulation.py:141-210 | with the two frozen sets composed, whichever sources are configured: every opaque particle is frozen as it is or simulated with its position rotated, and the two sets are exactly as large as the opaque set |
| Setup.PadCov | simulation.py:307-309 | the padded covariance buffer has the requested length, starts with the given covariances and is zero after them |
| Setup.BuildInit | simulation.py:226-311 | solver rows are the transformed originals followed by the filler; `gs_num` counts the originals; filler rows have zero covariance; the render arrays are the originals' opacity and SH |
| Compose.SimulatedPart | simulation.py:442-457 | the simulated part has at most `gs_num` rows; row i is the solver's row i mapped back to the world frame; opacity and SH are the render arrays |
| Compose.SimulatedPartAligned | simulation.py:442-449 | when the solver exports one row per particle, the `[:gs_num]` prefix is aligned and has `gs_num` rows |
| Compose.ComposeFrame | simulation.py:442-469 | as written, positions and covariances gain the frozen rows once per configured source, opacity and SH at most once; the simulated prefix comes first |
| Compose.ComposeOneSourceAligned | simulation.py:460-469 | with exactly one source, the frame as written equals the once-appended frame, is aligned and has `gs_num` plus frozen rows |
| Compose.ComposeBothSourcesMisaligned | simulation.py:460-469 | with both sources, positions and covariances have `gs_num + 2·frozen` rows but opacity and SH `gs_num + frozen`, so the frame is aligned only when nothing is frozen |
| Compose.ComposeFrameOnce | simulation.py:442-469 | appending the frozen arrays once to all four arrays keeps the frame aligned: row i below `gs_num` is particle i mapped back, and each frozen particle follows whole |
| Pipeline.RenderedFrame | simulation.py:141-469 | the frame as written; it fails exactly on a sim area without six bounds |
| Pipeline.RenderedFrameComposed | simulation.py:141-469 | the frame with the frozen sets composed and appended once; it fails exactly on a sim area without six bounds |
| Pipeline.EndToEndComposed | simulation.py:141-469 | with composed frozen sets, every frame is aligned and has one row per opaque particle |
| Pipeline.EndToEndAtMostOneSource | simulation.py:141-469 | as written, with at most one source, every frame is aligned and has one row per opaque particle |
| Pipeline.BothSourcesFrame | simulation.py:460-469 | as written, with both sources, the frame has `sim + 2·frozen` position rows and `sim + frozen` opacity rows, and is aligned exactly when nothing is frozen |
| Pipeline.TwoParticlesOpaque | simulation.py:142-147 | two particles of opacity 1 both survive a 0.5 threshold, in order |
| Pipeline.BothSourcesDropFar | simulation.py:162-210 | with both sources, of two opaque particles, one near the moving part and inside the box, the other far: the near one is simulated, nothing is frozen, and the far one is lost |
| Pipeline.BothSourcesFreezeOutside | simulation.py:162-210 | with both sources and nothing far, of two opaque particles only the one inside the box is simulated and the other is frozen |
| Pipeline.BothSourcesLoseFrozenParticle | simulation.py:162-205 | two opaque particles, one at the origin and one at (5, 5, 5) far from the moving part, sim area (-1, 1)³: the origin particle is simulated, the far one is neither simulated nor frozen, and the rendered frame has one row |
| Pipeline.OutsideBoxIsFrozen | simulation.py:194-210 | the same two particles with nothing far: the origin particle is simulated and the one outside the box is frozen |
| Pipeline.BothSourcesMisalignFrame | simulation.py:460-469 | that frame has three position rows and two opacity rows, so it is not aligned |
| Naming.CountPrefixed | simulation.py:77 | the count of `f_rest_` names is zero exactly when no name has the prefix |
| Naming.ISqrtUnique | simulation.py:81 | `int(math.sqrt(k))` is the only r with r² ≤ k < (r+1)² |
| Naming.ShDegreeOfCount | simulation.py:81 | `int(math.sqrt((n+3)//3)) - 1` is the degree d with 3((d+1)²-1) ≤ n < 3((d+2)²-1) |
| Naming.ShDegree | simulation.py:77-81 | the inferred degree d brackets the count of `f_rest_` names between the counts a degree-d and a degree-(d+1) checkpoint store; no such names means degree 0 |
| Naming.ShDegreeBracket | simulation.py:81 | the degree is d exactly when the count lies in [3((d+1)²-1), 3((d+2)²-1)) |
| Naming.ShDegreeRoundTrip | simulation.py:81 | a degree-d checkpoint is loaded back with degree d |
| Strings.DecimalValue | simulation.py:608 | reading back Python's decimal rendering of n gives n |
| Strings.LeadingZeros | simulation.py:608 | zero padding on the left keeps the value of a digit string |
| Naming.FrameFileName | simulation.py:608 | the image name, right-justified to eight with `0`, has at least eight characters and ends in `.png` |
| Naming.FrameFileNameRoundTrip | simulation.py:608 | the image name ends in `.png`, has at least eight characters, and its stem is digits that read back as the frame |
| Naming.FrameFileNameInjective | simulation.py:608 | distinct frames are written to distinct files |
| Naming.FrameFileNameLength | simulation.py:608 | frames below 10000 get names of exactly eight characters |
| Naming.VideoName | simulation.py:611 | the video name starts with `video`, ends in `.mp4`, and with two-digit padding is at least eleven characters long |
| Naming.VideoNameRoundTrip | simulation.py:611 | the video name is `video`, digits that read back as the batch, then `.mp4` |
| Naming.VideoNameLength | simulation.py:611 | batches below 100 get names of exactly eleven characters |
| Naming.EvenDown | simulation.py:604-605 | `h // 2 * 2` is even, at most h, and more than h − 2 |
| Gradients.Min | simulation.py:505 | `torch.min` of a non-empty gradient is one of its entries and at most every entry |
| Gradients.Max | simulation.py:505 | `torch.max` of a non-empty gradient is one of its entries and at least every entry |
| Gradients.UnitRange | simulation.py:506 | one rescaled entry of a value within [min, max] lies in [-0.5, 0.5]; min maps to -0.5 and max to 0.5 |
| Gradients.UnitMonotone | simulation.py:506 | the rescaling of one entry preserves order, strictly and not |
| Gradients.Rescale | simulation.py:505-506 | the rescaled tensor has the input's length and every entry in [-0.5, 0.5] |
| Gradients.RescaleOrder | simulation.py:505-506 | rescaling is monotone; a non-zero range sends min to -0.5 and max to 0.5 and keeps strict order; a zero range gives all zeros |
| Gradients.DegenerateIffConstant | simulation.py:506 | the zero-range branch is taken exactly when the gradient is constant |
| Gradients.RescaleShiftInvariant | simulation.py:505-506 | adding a constant to every gradient entry does not change the rescaled tensor |
| Gradients.RescaleIdempotent | simulation.py:505-506 | rescaling a rescaled tensor changes nothing |
| Gradients.Normalize | simulation.py:504-506 | the reduction fails exactly on an empty gradient; otherwise the result has the input's length and lies in [-0.5, 0.5] |
| Gradients.LaunchFor | simulation.py:504-507 | a field's launch fails exactly on an empty gradient; otherwise it targets that field, with that field's arguments and the rescaling of that field's own gradient |
| Gradients.UpdateLaunches | simulation.py:504-522 | the calibration step fails exactly when one of the four gradients is empty; otherwise it yields four launches, in the order E, mu_N, lam_N, viscosity, each carrying its own field's rescaled gradient and arguments |
| Schedule.Trunc | simulation.py:393 | Python `int()` on a float truncates toward zero, for both signs |
| Schedule.StepPerFrame | simulation.py:393 | fails exactly on a zero substep; for non-negative frame and positive substep durations the count r satisfies r·substep ≤ frame < (r+1)·substep |
| Schedule.RangeIterations | simulation.py:414 | a `for _ in range(n)` loop runs n times when n is positive and never otherwise |
| Schedule.TimesProduct | simulation.py:414 | the accumulated loop count `Times(n, k)` equals n·k |
| Schedule.WarmUpBelowCycle | simulation.py:414-415 | batch b warms up with spf·(b mod 8) substeps, fewer than spf·8 |
| Schedule.OutputRollout | simulation.py:535-611 | odd batches have no output rollout; an even batch's opens with the untaped finalisation and frame 0's substeps, rendering and image, and ends with the batch's video |
| Schedule.BatchTrace | simulation.py:407-611 | a batch opens with the taped finalisation and ends with the reset on odd batches and with the video on even ones |
| Schedule.RunTrace | simulation.py:407 | a run of at least one batch starts with batch 0 whole |
| Schedule.RecordedFrameShape | simulation.py:437-440 | a recorded frame is untaped substeps of that frame, then exactly one taped substep, then its rendering |
| Schedule.RecordedFramesCount | simulation.py:417-440 | n recorded frames hold n taped substeps and n renderings, each frame contributing `spf·9` substeps (one if that is not positive), and nothing else counted |
| Schedule.OutputFramesCount | simulation.py:537-558 | n output frames hold spf substeps, one rendering and one image each |
| Schedule.CalibrationCount | simulation.py:494-534 | a calibration step performs four updates and one reset |
| Schedule.OutputRolloutCount | simulation.py:535-611 | the output rollout runs only on even batches, with 128 frames and one video |
| Schedule.BatchTraceCount | simulation.py:407-611 | every event kind of one batch, counted in closed form |
| Schedule.BatchTotals | simulation.py:407-611 | a batch tapes 16 substeps, makes four updates and one reset, and writes 128 images and a video on even batches only |
| Schedule.OutputAfterReset | simulation.py:534-537 | the reset ends the training part, and every image and video event of a batch comes after it |
| Schedule.OutputRolloutImages | simulation.py:537-611 | an even batch writes the images named after frames 0 to 127 and ends with the video named after the batch |
| Schedule.OutputFramesOnlyFrameNames | simulation.py:607-608 | every image the output frames write is named after one of those frames |
| Schedule.VideoNamesDistinct | simulation.py:611 | videos of distinct batches get distinct names |
| Schedule.PerRunClosed | simulation.py:407-414 | summed over n batches: warm-up substeps total Σ(b mod 8)·spf, and ⌈n/2⌉ batches run the rollout |
| Schedule.RunTraceCount | simulation.py:407 | the event counts of n batches are the sum of the per-batch counts |
| Schedule.RunTotals | simulation.py:407-611 | given an output path, the fifty batches tape 800 substeps, make 200 updates and 50 resets, and write 3200 images and 25 videos |
| Schedule.RunSubsteps | simulation.py:407-558 | the fifty batches run 10569·spf substeps when spf is positive, and only the 800 taped ones otherwise |
| Schedule.RunOutcome | simulation.py:377-608 | the run raises a `NoOutputPath` fault exactly when no output path is given. With an output path it is the full run. Without one, if the initial state is exported it fails before any event. Otherwise it stops right before the write of image 0, after batch 0 has trained and rendered frame 0, with one reset done and no file written |
| Loss.Accumulate | simulation.py:483-489 | the loop leaves the loss at `0.` when no entry has the `loss_` prefix |
| Loss.LossTermsMembers | simulation.py:487-488 | the loss entries are exactly the entries named with the `loss_` prefix |
| Loss.AccumulateIsWeightedTotal | simulation.py:486-488 | the accumulation loop yields 3e-4 times the sum of exactly the `loss_` values |
| Loss.StageLoss | simulation.py:483-490 | the stage loss is 3e-4 · Σ `loss_` values / 8, and 0 when there is no such entry |
| Loss.ComputeStageLoss | simulation.py:483-490 | the loop, run entry by entry, computes that stage loss |
| Loss.BackwardLoss | simulation.py:483-492 | the backward pass fails exactly when no entry has the `loss_` prefix |
| Loss.OtherTermIgnored | simulation.py:487-488 | an entry without the prefix, wherever it sits, leaves the loss unchanged |
| Loss.StageLossAdditive | simulation.py:486-490 | the loss of two groups of entries is the sum of their losses |
| Loss.StageLossSwap | simulation.py:486-490 | the order in which the guidance lists its entries does not matter |

## Left out

- The MPM solver and its kernels are not modelled: `p2g2p`, `finalize_mu_lam`, the
  boundary conditions, export and reset, and `sum_vec3`, `sum_array`, `sum_mat33`,
  `update_param`. They are foreign code. They appear only as events of the schedule trace
  and as the exported arrays given to `Compose`.
- The effect of `update_param` with its arguments (1.0, -0.4), (1.0, 1.0), (1.0, 2.0) is
  not modelled, because its kernel is not part of this model. The launches record only
  which field, gradient and arguments they receive.
- The coordinate transforms and their inverses, `find_far_points`, `fill_particles`,
  `get_particle_volume` and `convert_SH` are not part of this model. They are function
  parameters (`rotate`, `toSim`, `toWorld`, `far`, the filler positions), so no round trip
  between the transforms is claimed.
- Setup.BuildInit: takes the filler particles to come after the transformed originals in
  the solver's arrays. `fill_particles` is a foreign call; `simulation.py:279-283` imply
  this order but do not show it.
- The `visualize` branch of particle filling (`simulation.py:277-306`) is left out: it
  rebuilds the scene through `init_filled_particles`, a foreign call. `Setup.BuildInit`
  models the other branch (`simulation.py:307-311`).
- The rotation array `rot` (`simulation.py:444-447`) is left out. It is sliced but only
  feeds `convert_SH`, and `simulation.py` never extends it with frozen rows.
- The rasteriser, the guidance model, tape recording and the backward passes are left out;
  they are differentiable machinery behind foreign calls. They appear as events only.
- Camera views are left out.
- File I/O is left out: PLY reading, the sorting of `f_rest_` names (only their count
  matters), `cv2.imwrite`, `save_video` and the debug dumps. Only the file names are
  modelled.
- `loss_value` (`simulation.py:408`, `494`) is left out: it is accumulated but never used.
- Floating-point rounding is not modelled; values are exact `real`s.
- Gradients.UpdateLaunches: reports the failure of a later field without the launches
  already issued for the earlier fields. In `simulation.py`, the earlier fields have already
  been updated by then.
- Gradients.Normalize: `simulation.py` already fails earlier on an empty position gradient,
  when it prints `torch.max` of it (`simulation.py:499`). That earlier failure point is not
  modelled.
- Schedule.RunOutcome: assumes that nothing else aborts the run. Each of these faults is
  modelled for its own step, but none is carried into the run:
  - a guidance output without a `loss_` entry (`Loss.BackwardLoss`, `simulation.py:488-493`);
  - an empty material gradient (`Gradients.UpdateLaunches`, `simulation.py:499-505`);
  - a zero substep (`Schedule.StepPerFrame`, `simulation.py:393`).

  Its fault-free case means only that no `NoOutputPath` fault is raised.
- Schedule.RunTotals: covers the fixed fifty batches of `simulation.py`. Arbitrary batch
  counts are covered by `Schedule.PerRunClosed`.
- Scale invariance of the rescaling is not stated: its proof needs non-linear real
  arithmetic.

## Findings

| source | as written | input that shows it | evidently intended | confidence | as-written member | corrected member |
|---|---|---|---|---|---|---|
| simulation.py:166-205 | with both a moving-part file and a sim area, the box split assigns `unselected_*` again, overwriting the particles frozen by the moving-part split | opaque particles at the origin and at (5, 5, 5), the second far from the moving part, sim area (-1, 1)³: the first is simulated, the second is neither simulated nor frozen, so no frame renders it | the two frozen sets are concatenated, so every opaque particle is simulated or frozen | medium; not executed | Pipeline.BothSourcesLoseFrozenParticle | Selection.PrepareComposed |
| simulation.py:460-469 | each configured source runs its own `torch.cat` block; positions and covariances extend the arrays built so far, while opacity and SH are rebuilt from the render arrays | the same two particles, neither far from the moving part, sim area (-1, 1)³: the second is frozen, and the frame gets three position rows and two opacity rows | the frozen arrays are appended once, to all four arrays | high; not executed | Pipeline.BothSourcesMisalignFrame | Compose.ComposeFrameOnce |
