/**
 The calibration schedule: fifty batches, each a taped eight-stage rollout of sixteen
 recorded frames scored by the video guidance, followed by the four material updates,
 a reset of the particle state and, on even batches, an untaped 128-frame output
 rollout written as images and a video. The schedule is modelled as the trace of
 solver, render and output events one run produces.
 */
module Schedule {
  import opened Results
  import opened Naming
  import opened Gradients

  const StageNum: nat := 8
  const FramePerStage: nat := 16
  const BatchCount: nat := 50
  /** Frames of the output rollout. */
  const OutputFrameCount: nat := StageNum * FramePerStage

  // ---------------------------------------------------------------------------
  // Substeps per frame

  /** Python's `int(x)` on a float: truncation toward zero. */
  function Trunc(x: real): (r: int)
    ensures x >= 0.0 ==> 0 <= r && r as real <= x < r as real + 1.0
    ensures x < 0.0 ==> r <= 0 && x <= r as real < x + 1.0
  {
    if x >= 0.0 then x.Floor else -((-x).Floor)
  }

  /** `int(frame_dt / substep_dt)`; a zero substep fails with a division error. */
  function StepPerFrame(frameDt: real, substepDt: real): (r: Result<int>)
    ensures r.Err? <==> substepDt == 0.0
    ensures r.Err? ==> r.fault == ZeroDivision
    ensures r.Ok? && frameDt >= 0.0 && substepDt > 0.0 ==>
      && 0 <= r.value
      && r.value as real * substepDt <= frameDt < (r.value + 1) as real * substepDt
  {
    if substepDt == 0.0 then Err(ZeroDivision)
    else
      var q := Trunc(frameDt / substepDt);
      QuotientBracket(frameDt, substepDt, q);
      Ok(q)
  }

  /** A truncated quotient of non-negative by positive brackets the dividend. */
  lemma QuotientBracket(f: real, s: real, q: int)
    requires s != 0.0
    requires f / s >= 0.0 ==> q as real <= f / s < q as real + 1.0
    ensures f >= 0.0 && s > 0.0 ==> q as real * s <= f < (q + 1) as real * s
  {
    if f >= 0.0 && s > 0.0 {
      var x := f / s;
      assert x >= 0.0;
      assert x * s == f;
      MulMonotone(q as real, x, s);
      MulStrict(x, q as real + 1.0, s);
      assert f < (q as real + 1.0) * s;
      var q1 := (q + 1) as real;
      assert q1 == q as real + 1.0;
      assert q1 * s == (q as real + 1.0) * s;
    }
  }

  lemma MulMonotone(a: real, b: real, s: real)
    requires a <= b && s > 0.0
    ensures a * s <= b * s
  {
  }

  lemma MulStrict(a: real, b: real, s: real)
    requires a < b && s > 0.0
    ensures a * s < b * s
  {
  }

  /** The iteration count of `range(n)`: none when `n` is not positive. */
  function RangeLen(n: int): (r: nat)
    ensures n <= 0 ==> r == 0
    ensures n > 0 ==> r == n
  {
    if n <= 0 then 0 else n
  }

  /** A `for _ in range(n)` loop, counting its iterations: it runs `n` times when `n` is
      positive and never otherwise. */
  method RangeIterations(n: int) returns (count: nat)
    ensures count == RangeLen(n)
  {
    count := 0;
    var i := 0;
    while i < n
      invariant n > 0 ==> i <= n
      invariant n <= 0 ==> i == 0
      invariant count == i
    {
      count := count + 1;
      i := i + 1;
    }
  }

  /** `n * k` as `n` repeated additions, the shape in which loop counts accumulate. */
  function Times(n: nat, k: int): int {
    if n == 0 then 0 else Times(n - 1, k) + k
  }

  lemma {:induction false} TimesProduct(n: nat, k: int)
    ensures Times(n, k) == n * k
  {
    if n > 0 {
      TimesProduct(n - 1, k);
    }
  }

  lemma {:induction false} TimesSign(n: nat, k: int)
    ensures k >= 0 ==> Times(n, k) >= 0
    ensures k <= 0 ==> Times(n, k) <= 0
  {
    if n > 0 {
      TimesSign(n - 1, k);
    }
  }

  lemma {:induction false} TimesZero(n: nat)
    ensures Times(n, 0) == 0
  {
    if n > 0 {
      TimesZero(n - 1);
    }
  }

  lemma {:induction false} TimesAdd(a: nat, b: nat, k: int)
    ensures Times(a + b, k) == Times(a, k) + Times(b, k)
  {
    if b > 0 {
      TimesAdd(a, b - 1, k);
    }
  }

  // ---------------------------------------------------------------------------
  // Events

  /** One observable step of a run: a solver substep (on the gradient tape or not, for a
      frame index or for none), the finalisation of the Lamé parameters, a rasterisation,
      the guidance scoring, the backward pass (`loss.backward` and the tape's backward
      pass together), a material update, the particle reset, and the two kinds of output
      file. */
  datatype Event =
    | Finalize(taped: bool)
    | Substep(frame: Option<nat>, taped: bool)
    | Render(at: nat)
    | Score
    | Backward
    | Update(field: Field)
    | Reset
    | WriteImage(name: string)
    | SaveVideo(name: string)

  function Repeat(e: Event, n: nat): (t: seq<Event>)
    ensures |t| == n && forall i :: 0 <= i < n ==> t[i] == e
  {
    seq(n, _ => e)
  }

  /** The events of `n` iterations of a loop whose iteration `i` produces `body(i)`. */
  function Loop(n: nat, body: nat -> seq<Event>): seq<Event> {
    if n == 0 then [] else Loop(n - 1, body) + body(n - 1)
  }

  /** Substeps that carry the particles to the batch's stage before recording begins. */
  function WarmUp(batch: nat, spf: int): seq<Event> {
    Repeat(Substep(None, false), RangeLen(Times(batch % StageNum, spf)))
  }

  /** The substeps of one recorded frame, `spf * (1 + StageNum)` of them when that is
      positive, of which only the last is on the tape. */
  function FrameSubsteps(spf: int): nat {
    RangeLen(Times(1 + StageNum, spf) - 1) + 1
  }

  /** One recorded frame: untaped substeps, one taped substep, then the rasterisation. */
  function RecordedFrame(f: nat, spf: int): seq<Event> {
    Repeat(Substep(Some(f), false), RangeLen(Times(1 + StageNum, spf) - 1))
      + [Substep(Some(f), true), Render(f)]
  }

  function RecordedFrameOf(spf: int): nat -> seq<Event> {
    (f: nat) => RecordedFrame(f, spf)
  }

  /** Frames `0 .. n-1` of the recorded stage. */
  function RecordedFrames(n: nat, spf: int): seq<Event> {
    Loop(n, RecordedFrameOf(spf))
  }

  /** The four material updates, in the order `simulation.py` issues them. */
  const MaterialUpdates: seq<Event> := [Update(E), Update(MuN), Update(LamN), Update(Viscosity)]

  /** Scoring, the backward pass, the four updates, the reset. */
  const Calibration: seq<Event> := [Score, Backward] + MaterialUpdates + [Reset]

  /** One output frame: `spf` substeps, the rasterisation, the image file. */
  function OutputFrame(f: nat, spf: int): seq<Event> {
    Repeat(Substep(Some(f), false), RangeLen(spf)) + [Render(f), WriteImage(FrameFileName(f))]
  }

  function OutputFrameOf(spf: int): nat -> seq<Event> {
    (f: nat) => OutputFrame(f, spf)
  }

  function OutputFrames(n: nat, spf: int): seq<Event> {
    Loop(n, OutputFrameOf(spf))
  }

  /** The output rollout, on even batches only: it re-finalises the Lamé parameters off the
      tape, renders and writes frame 0 first, and ends with the batch's video. */
  function OutputRollout(batch: nat, spf: int): (r: seq<Event>)
    ensures batch % 2 == 1 ==> r == []
    ensures batch % 2 == 0 ==>
      && [Finalize(false)] + OutputFrame(0, spf) <= r
      && r[|r| - 1] == SaveVideo(VideoName(batch))
  {
    if batch % 2 == 0 then
      RolloutStarts(OutputFrameCount, spf, SaveVideo(VideoName(batch)));
      [Finalize(false)] + OutputFrames(OutputFrameCount, spf) + [SaveVideo(VideoName(batch))]
    else []
  }

  /** Everything up to and including the reset of one batch. */
  function Training(batch: nat, spf: int): seq<Event> {
    [Finalize(true)] + WarmUp(batch, spf) + RecordedFrames(FramePerStage, spf) + Calibration
  }

  /** One batch: it opens with the taped finalisation, and ends with the reset on odd
      batches and with the video on even ones. */
  function BatchTrace(batch: nat, spf: int): (r: seq<Event>)
    ensures |r| > 0 && r[0] == Finalize(true)
    ensures batch % 2 == 1 ==> r[|r| - 1] == Reset
    ensures batch % 2 == 0 ==> r[|r| - 1] == SaveVideo(VideoName(batch))
  {
    TrainingEndsWithReset(batch, spf);
    Training(batch, spf) + OutputRollout(batch, spf)
  }

  function BatchOf(spf: int): nat -> seq<Event> {
    (b: nat) => BatchTrace(b, spf)
  }

  /** Batches `0 .. n-1`, in order: a run of at least one batch starts with batch 0 whole. */
  function RunTrace(n: nat, spf: int): (r: seq<Event>)
    ensures n > 0 ==> BatchTrace(0, spf) <= r
  {
    if n > 0 then LoopStarts(n, BatchOf(spf)); Loop(n, BatchOf(spf))
    else Loop(n, BatchOf(spf))
  }

  /** A loop runs its first iteration first. */
  lemma {:induction false} LoopStarts(n: nat, body: nat -> seq<Event>)
    requires n > 0
    ensures body(0) <= Loop(n, body)
  {
    if n > 1 {
      LoopStarts(n - 1, body);
      PrefixExtend(body(0), Loop(n - 1, body), body(n - 1));
    } else {
      assert Loop(1, body) == [] + body(0);
    }
  }

  lemma PrefixExtend(a: seq<Event>, b: seq<Event>, c: seq<Event>)
    requires a <= b
    ensures a <= b + c && c + a <= c + b
  {
    assert (b + c)[..|a|] == b[..|a|];
    assert (c + b)[..|c + a|] == c + b[..|a|];
  }

  /** The output frames of a rollout begin with frame 0. */
  lemma RolloutStarts(n: nat, spf: int, video: Event)
    requires n > 0
    ensures [Finalize(false)] + OutputFrame(0, spf) <= [Finalize(false)] + OutputFrames(n, spf) + [video]
  {
    LoopStarts(n, OutputFrameOf(spf));
    assert OutputFrameOf(spf)(0) == OutputFrame(0, spf);
    PrefixExtend(OutputFrame(0, spf), OutputFrames(n, spf), [Finalize(false)]);
    PrefixExtend([Finalize(false)] + OutputFrame(0, spf), [Finalize(false)] + OutputFrames(n, spf), [video]);
  }

  function Run(spf: int): seq<Event> {
    RunTrace(BatchCount, spf)
  }

  // ---------------------------------------------------------------------------
  // Counting

  /** The kinds of event a run is counted by. */
  datatype Kind = Substeps | Taped | Renders | Images | Videos | Resets | Updates

  predicate Is(e: Event, k: Kind) {
    match k
    case Substeps => e.Substep?
    case Taped => e.Substep? && e.taped
    case Renders => e.Render?
    case Images => e.WriteImage?
    case Videos => e.SaveVideo?
    case Resets => e.Reset?
    case Updates => e.Update?
  }

  /** The number of events of kind `k` in `t`. */
  function Count(t: seq<Event>, k: Kind): (n: nat)
    ensures n <= |t|
  {
    if |t| == 0 then 0 else Count(t[..|t| - 1], k) + (if Is(t[|t| - 1], k) then 1 else 0)
  }

  lemma {:induction false} CountConcat(a: seq<Event>, b: seq<Event>, k: Kind)
    ensures Count(a + b, k) == Count(a, k) + Count(b, k)
    decreases |b|
  {
    if |b| > 0 {
      var n := |b| - 1;
      assert (a + b)[..|a + b| - 1] == a + b[..n];
      CountConcat(a, b[..n], k);
    } else {
      assert a + b == a;
    }
  }

  lemma CountSingle(x: Event, k: Kind)
    ensures Count([x], k) == if Is(x, k) then 1 else 0
  {
    assert [x][..0] == [];
  }

  lemma CountPair(x: Event, y: Event, k: Kind)
    ensures Count([x, y], k) == (if Is(x, k) then 1 else 0) + (if Is(y, k) then 1 else 0)
  {
    assert [x, y][..1] == [x];
  }

  lemma {:induction false} CountUntaped(f: Option<nat>, n: nat, k: Kind)
    ensures Count(Repeat(Substep(f, false), n), k) == if k == Substeps then n else 0
  {
    if n > 0 {
      assert Repeat(Substep(f, false), n)[..n - 1] == Repeat(Substep(f, false), n - 1);
      CountUntaped(f, n - 1, k);
    }
  }

  /** `g(0) + g(1) + ... + g(n - 1)`. */
  function Sum(n: nat, g: nat -> int): int {
    if n == 0 then 0 else Sum(n - 1, g) + g(n - 1)
  }

  /** A loop's events of kind `k` are the sum of its iterations' counts. */
  lemma {:induction false} LoopCount(n: nat, body: nat -> seq<Event>, k: Kind, g: nat -> int)
    requires forall i :: 0 <= i < n ==> Count(body(i), k) == g(i)
    ensures Count(Loop(n, body), k) == Sum(n, g)
  {
    if n > 0 {
      LoopCount(n - 1, body, k, g);
      CountConcat(Loop(n - 1, body), body(n - 1), k);
    }
  }

  lemma {:induction false} SumConst(n: nat, g: nat -> int, c: int)
    requires forall i :: 0 <= i < n ==> g(i) == c
    ensures Sum(n, g) == Times(n, c)
  {
    if n > 0 {
      SumConst(n - 1, g, c);
    }
  }

  // ---------------------------------------------------------------------------
  // One batch

  /** Warming up never reaches a full stage cycle: when a frame takes at least one
      substep, fewer than `spf * StageNum` substeps precede the recorded frames. */
  lemma WarmUpBelowCycle(batch: nat, spf: int)
    requires spf > 0
    ensures |WarmUp(batch, spf)| == spf * (batch % StageNum) < spf * StageNum
  {
    var m := batch % StageNum;
    TimesProduct(m, spf);
    MulBelow(m, StageNum, spf);
  }

  lemma MulBelow(m: nat, n: nat, k: int)
    requires m < n && k > 0
    ensures k * m < k * n
  {
  }

  /** In a recorded frame only the second-to-last event is on the tape: every earlier
      event is an untaped substep of that frame, and the frame ends with its rendering. */
  lemma RecordedFrameShape(f: nat, spf: int)
    ensures var t := RecordedFrame(f, spf);
      && |t| == FrameSubsteps(spf) + 1
      && t[|t| - 2] == Substep(Some(f), true)
      && t[|t| - 1] == Render(f)
      && forall i :: 0 <= i < |t| - 2 ==> t[i] == Substep(Some(f), false)
  {
  }

  /** Events of each kind in one recorded frame. */
  function PerRecordedFrame(spf: int, k: Kind): nat {
    match k
    case Substeps => FrameSubsteps(spf)
    case Taped => 1
    case Renders => 1
    case _ => 0
  }

  lemma RecordedFrameCount(f: nat, spf: int, k: Kind)
    ensures Count(RecordedFrame(f, spf), k) == PerRecordedFrame(spf, k)
  {
    var u := Repeat(Substep(Some(f), false), RangeLen(Times(1 + StageNum, spf) - 1));
    CountConcat(u, [Substep(Some(f), true), Render(f)], k);
    CountUntaped(Some(f), |u|, k);
    CountPair(Substep(Some(f), true), Render(f), k);
  }

  /** The recorded stage: `n` frames of `FrameSubsteps(spf)` substeps each, one taped
      substep and one rendering per frame, and nothing else counted. */
  lemma RecordedFramesCount(n: nat, spf: int, k: Kind)
    ensures Count(RecordedFrames(n, spf), k) == Times(n, PerRecordedFrame(spf, k))
  {
    var g := (i: nat) => PerRecordedFrame(spf, k);
    forall i | 0 <= i < n
      ensures Count(RecordedFrameOf(spf)(i), k) == g(i)
    {
      RecordedFrameCount(i, spf, k);
    }
    LoopCount(n, RecordedFrameOf(spf), k, g);
    SumConst(n, g, PerRecordedFrame(spf, k));
  }

  /** Events of each kind in one output frame. */
  function PerOutputFrame(spf: int, k: Kind): nat {
    match k
    case Substeps => RangeLen(spf)
    case Renders => 1
    case Images => 1
    case _ => 0
  }

  lemma SingleOutputFrameCount(f: nat, spf: int, k: Kind)
    ensures Count(OutputFrame(f, spf), k) == PerOutputFrame(spf, k)
  {
    var u := Repeat(Substep(Some(f), false), RangeLen(spf));
    CountConcat(u, [Render(f), WriteImage(FrameFileName(f))], k);
    CountUntaped(Some(f), |u|, k);
    CountPair(Render(f), WriteImage(FrameFileName(f)), k);
  }

  /** The output frames: `spf` untaped substeps, one rendering and one image per frame. */
  lemma OutputFramesCount(n: nat, spf: int, k: Kind)
    ensures Count(OutputFrames(n, spf), k) == Times(n, PerOutputFrame(spf, k))
  {
    var g := (i: nat) => PerOutputFrame(spf, k);
    forall i | 0 <= i < n
      ensures Count(OutputFrameOf(spf)(i), k) == g(i)
    {
      SingleOutputFrameCount(i, spf, k);
    }
    LoopCount(n, OutputFrameOf(spf), k, g);
    SumConst(n, g, PerOutputFrame(spf, k));
  }

  lemma MaterialUpdatesCount(k: Kind)
    ensures Count(MaterialUpdates, k) == if k == Updates then 4 else 0
  {
    assert MaterialUpdates == [Update(E), Update(MuN)] + [Update(LamN), Update(Viscosity)];
    CountConcat([Update(E), Update(MuN)], [Update(LamN), Update(Viscosity)], k);
    CountPair(Update(E), Update(MuN), k);
    CountPair(Update(LamN), Update(Viscosity), k);
  }

  lemma CalibrationCount(k: Kind)
    ensures Count(Calibration, k) == match k
      case Resets => 1
      case Updates => 4
      case _ => 0
  {
    MaterialUpdatesCount(k);
    CountPair(Score, Backward, k);
    CountSingle(Reset, k);
    CountConcat([Score, Backward], MaterialUpdates, k);
    CountConcat([Score, Backward] + MaterialUpdates, [Reset], k);
  }

  /** Events of each kind in the output rollout of an even batch. */
  function PerRollout(spf: int, k: Kind): int {
    match k
    case Videos => 1
    case _ => Times(OutputFrameCount, PerOutputFrame(spf, k))
  }

  lemma OutputRolloutCount(batch: nat, spf: int, k: Kind)
    ensures Count(OutputRollout(batch, spf), k) == if batch % 2 == 0 then PerRollout(spf, k) else 0
  {
    if batch % 2 == 0 {
      EvenRolloutCount(batch, spf, k);
    } else {
      assert OutputRollout(batch, spf) == [];
    }
  }

  lemma EvenRolloutCount(batch: nat, spf: int, k: Kind)
    requires batch % 2 == 0
    ensures Count(OutputRollout(batch, spf), k) == PerRollout(spf, k)
  {
    RolloutBodyCount(OutputFrameCount, spf, SaveVideo(VideoName(batch)), k);
  }

  lemma RolloutBodyCount(n: nat, spf: int, video: Event, k: Kind)
    requires video.SaveVideo?
    ensures Count([Finalize(false)] + OutputFrames(n, spf) + [video], k) ==
      if k == Videos then 1 else Times(n, PerOutputFrame(spf, k))
  {
    OutputFramesCount(n, spf, k);
    FramedCount(OutputFrames(n, spf), video, k);
    if k == Videos {
      TimesZero(n);
    }
  }

  /** A finalisation, then `frames`, then a video: only the video adds to the count. */
  lemma FramedCount(frames: seq<Event>, video: Event, k: Kind)
    requires video.SaveVideo?
    ensures Count([Finalize(false)] + frames + [video], k) ==
      Count(frames, k) + (if k == Videos then 1 else 0)
  {
    CountThree([Finalize(false)], frames, [video], k);
    CountSingle(Finalize(false), k);
    CountSingle(video, k);
  }

  /** Events of each kind up to the reset of a batch: the warm-up, the recorded frames
      and the calibration. */
  function PerTraining(batch: nat, spf: int, k: Kind): int {
    (if k == Substeps then RangeLen(Times(batch % StageNum, spf)) else 0)
      + Times(FramePerStage, PerRecordedFrame(spf, k))
      + (match k case Resets => 1 case Updates => 4 case _ => 0)
  }

  lemma TrainingCount(batch: nat, spf: int, k: Kind)
    ensures Count(Training(batch, spf), k) == PerTraining(batch, spf, k)
  {
    var w := WarmUp(batch, spf);
    CountUntaped(None, |w|, k);
    TrainingBodyCount(FramePerStage, w, spf, k);
  }

  /** The finalisation, `w`, `n` recorded frames and the calibration. */
  lemma TrainingBodyCount(n: nat, w: seq<Event>, spf: int, k: Kind)
    ensures Count([Finalize(true)] + w + RecordedFrames(n, spf) + Calibration, k) ==
      Count(w, k) + Times(n, PerRecordedFrame(spf, k))
      + (match k case Resets => 1 case Updates => 4 case _ => 0)
  {
    RecordedFramesCount(n, spf, k);
    CalibrationCount(k);
    CountSingle(Finalize(true), k);
    CountFour([Finalize(true)], w, RecordedFrames(n, spf), Calibration, k);
  }

  lemma CountThree(a: seq<Event>, b: seq<Event>, c: seq<Event>, k: Kind)
    ensures Count(a + b + c, k) == Count(a, k) + Count(b, k) + Count(c, k)
  {
    CountConcat(a, b, k);
    CountConcat(a + b, c, k);
  }

  lemma CountFour(a: seq<Event>, b: seq<Event>, c: seq<Event>, d: seq<Event>, k: Kind)
    ensures Count(a + b + c + d, k) == Count(a, k) + Count(b, k) + Count(c, k) + Count(d, k)
  {
    CountThree(a, b, c, k);
    CountConcat(a + b + c, d, k);
  }

  /** Events of each kind in one batch: the training part and, on even batches, the
      output rollout. */
  function PerBatch(batch: nat, spf: int, k: Kind): int {
    PerTraining(batch, spf, k) + (if batch % 2 == 0 then PerRollout(spf, k) else 0)
  }

  lemma BatchTraceCount(batch: nat, spf: int, k: Kind)
    ensures Count(BatchTrace(batch, spf), k) == PerBatch(batch, spf, k)
  {
    TrainingCount(batch, spf, k);
    OutputRolloutCount(batch, spf, k);
    CountConcat(Training(batch, spf), OutputRollout(batch, spf), k);
  }

  /** One taped substep per recorded frame, four updates and one reset per batch; 128
      images and one video on even batches, none on odd ones. */
  lemma BatchTotals(batch: nat, spf: int)
    ensures Count(BatchTrace(batch, spf), Taped) == FramePerStage
    ensures Count(BatchTrace(batch, spf), Updates) == 4
    ensures Count(BatchTrace(batch, spf), Resets) == 1
    ensures Count(BatchTrace(batch, spf), Images) == if batch % 2 == 0 then OutputFrameCount else 0
    ensures Count(BatchTrace(batch, spf), Videos) == if batch % 2 == 0 then 1 else 0
  {
    BatchKindTotal(batch, spf, Taped);
    BatchKindTotal(batch, spf, Updates);
    BatchKindTotal(batch, spf, Resets);
    BatchKindTotal(batch, spf, Images);
    BatchKindTotal(batch, spf, Videos);
  }

  lemma BatchKindTotal(batch: nat, spf: int, k: Kind)
    requires k != Substeps && k != Renders
    ensures Count(BatchTrace(batch, spf), k) ==
      (match k case Taped => FramePerStage case Updates => 4 case Resets => 1 case _ => 0)
      + (if batch % 2 == 0 then (if k == Images then OutputFrameCount else if k == Videos then 1 else 0) else 0)
  {
    BatchTraceCount(batch, spf, k);
    TimesProduct(FramePerStage, PerRecordedFrame(spf, k));
    TimesProduct(OutputFrameCount, PerOutputFrame(spf, k));
  }

  /** The output rollout starts only after the reset: every image and video event of a
      batch lies after its reset. */
  lemma OutputAfterReset(batch: nat, spf: int)
    ensures var t := BatchTrace(batch, spf);
      var k := |Training(batch, spf)| - 1;
      && t[k] == Reset
      && forall i :: 0 <= i < |t| && (t[i].WriteImage? || t[i].SaveVideo?) ==> k < i
  {
    var tr := Training(batch, spf);
    var t := BatchTrace(batch, spf);
    TrainingEndsWithReset(batch, spf);
    assert t[|tr| - 1] == tr[|tr| - 1];
    forall i | 0 <= i < |tr|
      ensures !t[i].WriteImage? && !t[i].SaveVideo?
    {
      assert t[i] == tr[i];
      TrainingNoFile(batch, spf, i);
    }
  }

  lemma TrainingEndsWithReset(batch: nat, spf: int)
    ensures |Training(batch, spf)| > 0 && Training(batch, spf)[|Training(batch, spf)| - 1] == Reset
  {
    var head := [Finalize(true)] + WarmUp(batch, spf) + RecordedFrames(FramePerStage, spf);
    assert Training(batch, spf) == head + Calibration;
    assert Calibration[|Calibration| - 1] == Reset;
  }

  /** Nothing before the reset writes a file. */
  lemma TrainingNoFile(batch: nat, spf: int, i: nat)
    requires i < |Training(batch, spf)|
    ensures !Training(batch, spf)[i].WriteImage? && !Training(batch, spf)[i].SaveVideo?
  {
    var w := WarmUp(batch, spf);
    var r := RecordedFrames(FramePerStage, spf);
    var head := [Finalize(true)] + w + r;
    assert Training(batch, spf) == head + Calibration;
    if i < |head| {
      assert Training(batch, spf)[i] == head[i];
      if i == 0 {
      } else if i < 1 + |w| {
        assert head[i] == w[i - 1];
      } else {
        assert head[i] == r[i - 1 - |w|];
        NoFileInRecorded(FramePerStage, spf, i - 1 - |w|);
      }
    } else {
      assert Training(batch, spf)[i] == Calibration[i - |head|];
      CalibrationNoFile(i - |head|);
    }
  }

  lemma CalibrationNoFile(j: nat)
    requires j < |Calibration|
    ensures !Calibration[j].WriteImage? && !Calibration[j].SaveVideo?
  {
    assert Calibration == [Score, Backward, Update(E), Update(MuN), Update(LamN), Update(Viscosity), Reset];
  }

  lemma {:induction false} NoFileInRecorded(n: nat, spf: int, i: nat)
    requires i < |RecordedFrames(n, spf)|
    ensures !RecordedFrames(n, spf)[i].WriteImage? && !RecordedFrames(n, spf)[i].SaveVideo?
  {
    var prev := RecordedFrames(n - 1, spf);
    var last := RecordedFrame(n - 1, spf);
    assert RecordedFrames(n, spf) == prev + last;
    if i < |prev| {
      NoFileInRecorded(n - 1, spf, i);
    } else {
      RecordedFrameShape(n - 1, spf);
      assert RecordedFrames(n, spf)[i] == last[i - |prev|];
    }
  }

  /** The output rollout writes the images named after frames 0 to 127, whatever the
      batch, and ends with the video named after the batch. */
  lemma OutputRolloutImages(batch: nat, spf: int, i: nat)
    requires batch % 2 == 0
    ensures var t := OutputRollout(batch, spf);
      && t[|t| - 1] == SaveVideo(VideoName(batch))
      && (i < OutputFrameCount ==> WriteImage(FrameFileName(i)) in t)
  {
    if i < OutputFrameCount {
      OutputFramesContain(OutputFrameCount, spf, i);
    }
  }

  lemma {:induction false} OutputFramesContain(n: nat, spf: int, i: nat)
    requires i < n
    ensures WriteImage(FrameFileName(i)) in OutputFrames(n, spf)
  {
    var last := OutputFrame(n - 1, spf);
    assert OutputFrames(n, spf) == OutputFrames(n - 1, spf) + last;
    if i == n - 1 {
      assert last[|last| - 1] == WriteImage(FrameFileName(i));
    } else {
      OutputFramesContain(n - 1, spf, i);
    }
  }

  /** Every image the output frames write is named after one of those frames. */
  lemma {:induction false} OutputFramesOnlyFrameNames(n: nat, spf: int, name: string)
    requires WriteImage(name) in OutputFrames(n, spf)
    ensures exists i :: 0 <= i < n && name == FrameFileName(i)
  {
    var last := OutputFrame(n - 1, spf);
    assert OutputFrames(n, spf) == OutputFrames(n - 1, spf) + last;
    if WriteImage(name) in OutputFrames(n - 1, spf) {
      OutputFramesOnlyFrameNames(n - 1, spf, name);
    } else {
      OutputFrameImage(n - 1, spf, name);
    }
  }

  /** The one image an output frame writes is named after that frame. */
  lemma OutputFrameImage(f: nat, spf: int, name: string)
    requires WriteImage(name) in OutputFrame(f, spf)
    ensures name == FrameFileName(f)
  {
    var u := Repeat(Substep(Some(f), false), RangeLen(spf));
    var tail := [Render(f), WriteImage(FrameFileName(f))];
    assert OutputFrame(f, spf) == u + tail;
    assert WriteImage(name) !in u;
  }

  /** Videos of distinct batches get distinct names, so none overwrites another. */
  lemma VideoNamesDistinct(b1: nat, b2: nat)
    requires b1 != b2
    ensures VideoName(b1) != VideoName(b2)
  {
    VideoNameRoundTrip(b1);
    VideoNameRoundTrip(b2);
  }

  // ---------------------------------------------------------------------------
  // A whole run

  /** `0 % 8 + 1 % 8 + ... + (n - 1) % 8`. */
  function WarmSum(n: nat): nat {
    if n == 0 then 0 else WarmSum(n - 1) + (n - 1) % StageNum
  }

  /** `0 + 1 + ... + (r - 1)`. */
  function Tri(r: nat): nat {
    if r == 0 then 0 else Tri(r - 1) + (r - 1)
  }

  lemma {:induction false} WarmSumClosed(n: nat)
    ensures WarmSum(n) == 28 * (n / StageNum) + Tri(n % StageNum)
  {
    if n > 0 {
      WarmSumClosed(n - 1);
      var m := n - 1;
      if m % StageNum == StageNum - 1 {
        assert n / StageNum == m / StageNum + 1 && n % StageNum == 0;
        assert Tri(7) == 21 by {
          assert Tri(1) == 0 && Tri(2) == 1 && Tri(3) == 3 && Tri(4) == 6 && Tri(5) == 10 && Tri(6) == 15;
        }
      } else {
        assert n / StageNum == m / StageNum && n % StageNum == m % StageNum + 1;
      }
    }
  }

  /** Warm-up substeps scale with the stage index: `range` of a negative count is empty
      whatever the stage. */
  lemma {:induction false} WarmUpScales(m: nat, spf: int)
    ensures RangeLen(Times(m, spf)) == Times(m, RangeLen(spf))
  {
    TimesSign(m, spf);
    if spf <= 0 {
      TimesZero(m);
    }
  }

  function PerBatchOf(spf: int, k: Kind): nat -> int {
    (b: nat) => PerBatch(b, spf, k)
  }

  /** Batches `0 .. n-1` together, summed batch by batch. */
  function PerRun(n: nat, spf: int, k: Kind): int {
    Sum(n, PerBatchOf(spf, k))
  }

  lemma RunTraceCount(n: nat, spf: int, k: Kind)
    ensures Count(RunTrace(n, spf), k) == PerRun(n, spf, k)
  {
    forall i | 0 <= i < n
      ensures Count(BatchOf(spf)(i), k) == PerBatchOf(spf, k)(i)
    {
      BatchTraceCount(i, spf, k);
    }
    LoopCount(n, BatchOf(spf), k, PerBatchOf(spf, k));
  }

  /** The batch-by-batch sum in closed form: warm-up substeps sum to `WarmSum(n)` stage
      steps, and `(n + 1) / 2` of the batches are even. */
  lemma PerRunClosed(n: nat, spf: int, k: Kind)
    ensures PerRun(n, spf, k) ==
      (if k == Substeps then Times(WarmSum(n), RangeLen(spf)) else 0)
      + Times(n, Times(FramePerStage, PerRecordedFrame(spf, k)))
      + Times(n, match k case Resets => 1 case Updates => 4 case _ => 0)
      + Times((n + 1) / 2, PerRollout(spf, k))
  {
    var rec := Times(FramePerStage, PerRecordedFrame(spf, k));
    var cal := match k case Resets => 1 case Updates => 4 case _ => 0;
    SumSplit(n, PerBatchOf(spf, k), WarmOf(spf, k), rec, cal, PerRollout(spf, k));
    WarmClosed(n, spf, k);
  }

  /** The warm-up substeps of batch `b`, when substeps are what is counted. */
  function WarmOf(spf: int, k: Kind): nat -> int {
    (b: nat) => if k == Substeps then RangeLen(Times(b % StageNum, spf)) else 0
  }

  lemma {:induction false} WarmClosed(n: nat, spf: int, k: Kind)
    ensures Sum(n, WarmOf(spf, k)) ==
      if k == Substeps then Times(WarmSum(n), RangeLen(spf)) else 0
  {
    if n > 0 {
      var b := n - 1;
      var m := b % StageNum;
      WarmClosed(b, spf, k);
      assert Sum(n, WarmOf(spf, k)) == Sum(b, WarmOf(spf, k)) + WarmOf(spf, k)(b);
      if k == Substeps {
        WarmUpScales(m, spf);
        TimesAdd(WarmSum(b), m, RangeLen(spf));
        assert WarmSum(n) == WarmSum(b) + m;
      }
    }
  }

  /** A sum whose every term is a varying part, two constants and, at even indices, a
      third constant. */
  lemma {:induction false} SumSplit(n: nat, g: nat -> int, w: nat -> int, a: int, c: int, p: int)
    requires forall i :: 0 <= i < n ==> g(i) == w(i) + a + c + (if i % 2 == 0 then p else 0)
    ensures Sum(n, g) == Sum(n, w) + Times(n, a) + Times(n, c) + Times((n + 1) / 2, p)
  {
    if n > 0 {
      var b := n - 1;
      SumSplit(b, g, w, a, c, p);
      if b % 2 == 0 {
        assert (n + 1) / 2 == (b + 1) / 2 + 1;
      } else {
        assert (n + 1) / 2 == (b + 1) / 2;
      }
    }
  }

  /** The fifty batches in closed form: 169 warm-up stage steps, 25 even batches. */
  lemma RunCount(spf: int, k: Kind)
    ensures Count(Run(spf), k) ==
      (if k == Substeps then Times(169, RangeLen(spf)) else 0)
      + Times(50, Times(FramePerStage, PerRecordedFrame(spf, k)))
      + Times(50, match k case Resets => 1 case Updates => 4 case _ => 0)
      + Times(25, PerRollout(spf, k))
  {
    RunTraceClosed(BatchCount, spf, k);
    WarmSumOfRun();
    EvenBatchesOfRun();
  }

  /** Batches 0, 2, ..., 48 are the even ones. */
  lemma EvenBatchesOfRun()
    ensures (BatchCount + 1) / 2 == 25
  {
  }

  /** Any number of batches in closed form. */
  lemma RunTraceClosed(n: nat, spf: int, k: Kind)
    ensures Count(RunTrace(n, spf), k) ==
      (if k == Substeps then Times(WarmSum(n), RangeLen(spf)) else 0)
      + Times(n, Times(FramePerStage, PerRecordedFrame(spf, k)))
      + Times(n, match k case Resets => 1 case Updates => 4 case _ => 0)
      + Times((n + 1) / 2, PerRollout(spf, k))
  {
    RunTraceCount(n, spf, k);
    PerRunClosed(n, spf, k);
  }

  /** The warm-up stage steps of the fifty batches: six full cycles of 28 and one step. */
  lemma WarmSumOfRun()
    ensures WarmSum(BatchCount) == 169
  {
    WarmSumClosed(BatchCount);
    assert Tri(2) == 1;
  }

  /** Totals over the fifty batches: 800 taped substeps, 200 updates, 50 resets, 3200
      images and 25 videos. */
  lemma RunTotals(spf: int)
    ensures Count(Run(spf), Taped) == 800
    ensures Count(Run(spf), Updates) == 200
    ensures Count(Run(spf), Resets) == 50
    ensures Count(Run(spf), Images) == 3200
    ensures Count(Run(spf), Videos) == 25
  {
    RunTaped(spf);
    RunUpdates(spf);
    RunResets(spf);
    RunImages(spf);
    RunVideos(spf);
  }

  lemma RunTaped(spf: int)
    ensures Count(Run(spf), Taped) == 800
  {
    RunCount(spf, Taped);
    TimesZero(25);
    TimesZero(OutputFrameCount);
    TimesZero(50);
    TimesProduct(16, 1);
    TimesProduct(50, 16);
  }

  lemma RunUpdates(spf: int)
    ensures Count(Run(spf), Updates) == 200
  {
    RunCount(spf, Updates);
    TimesZero(25);
    TimesZero(OutputFrameCount);
    TimesZero(16);
    TimesZero(50);
    TimesProduct(50, 4);
  }

  lemma RunResets(spf: int)
    ensures Count(Run(spf), Resets) == 50
  {
    RunCount(spf, Resets);
    TimesZero(25);
    TimesZero(OutputFrameCount);
    TimesZero(16);
    TimesZero(50);
    TimesProduct(50, 1);
  }

  lemma RunImages(spf: int)
    ensures Count(Run(spf), Images) == 3200
  {
    RunCount(spf, Images);
    TimesZero(16);
    TimesZero(50);
    TimesProduct(128, 1);
    TimesProduct(25, 128);
  }

  lemma RunVideos(spf: int)
    ensures Count(Run(spf), Videos) == 25
  {
    RunCount(spf, Videos);
    TimesZero(16);
    TimesZero(50);
    TimesProduct(25, 1);
  }

  /** With `spf` substeps per frame the run takes `10569 * spf` substeps, and 800 (only
      the taped ones) when `spf` is not positive. */
  lemma RunSubsteps(spf: int)
    ensures Count(Run(spf), Substeps) == if spf > 0 then 10569 * spf else 800
  {
    RunCount(spf, Substeps);
    var r := RangeLen(spf);
    var f := FrameSubsteps(spf);
    TimesProduct(9, spf);
    assert f == if spf > 0 then 9 * spf else 1;
    TimesProduct(169, r);
    TimesProduct(16, f);
    TimesProduct(50, 16 * f);
    TimesProduct(128, r);
    TimesProduct(25, 128 * r);
    TimesZero(50);
  }

  // ---------------------------------------------------------------------------
  // A run without an output path

  /** The events of a run and the fault that stopped it, if any. */
  datatype Outcome = Outcome(trace: seq<Event>, fault: Option<Fault>)

  /** What happens before the stop: batch 0 trains, starts its output rollout and renders
      frame 0. */
  function AbortedTrace(spf: int): seq<Event> {
    Training(0, spf) + [Finalize(false)] + Repeat(Substep(Some(0), false), RangeLen(spf)) + [Render(0)]
  }

  /** A run, depending on whether an output path was given and whether the initial state
      is exported to PLY or HDF5 files.  The output path defaults to `None`.  Without it,
      the export joins `None` with a directory name and fails before any batch, and
      otherwise the image writer's assertion stops the run at the first image write: in
      that case everything of the full run before that write happens and no file is
      written.  Either way the fault is reported. */
  function RunOutcome(hasOutputPath: bool, exportsState: bool, spf: int): (r: Outcome)
    ensures r.fault.None? <==> hasOutputPath
    ensures r.fault.Some? ==> r.fault.value == NoOutputPath
    ensures hasOutputPath ==> r.trace == Run(spf)
    ensures !hasOutputPath && exportsState ==> r.trace == []
    ensures !hasOutputPath && !exportsState ==> r.trace + [WriteImage(FrameFileName(0))] <= Run(spf)
    ensures !hasOutputPath && !exportsState ==> Count(r.trace, Images) == 0 && Count(r.trace, Videos) == 0
    ensures !hasOutputPath && !exportsState ==> Count(r.trace, Resets) == 1 && r.trace[|r.trace| - 1] == Render(0)
  {
    if hasOutputPath then Outcome(Run(spf), None)
    else if exportsState then Outcome([], Some(NoOutputPath))
    else
      AbortedIsPrefix(spf);
      AbortedCounts(spf);
      Outcome(AbortedTrace(spf), Some(NoOutputPath))
  }

  /** The stopped run is the full run up to, not including, the write of image 0. */
  lemma AbortedIsPrefix(spf: int)
    ensures AbortedTrace(spf) + [WriteImage(FrameFileName(0))] <= Run(spf)
  {
    var tr := Training(0, spf);
    var head := [Finalize(false)] + OutputFrame(0, spf);
    StopShape(tr, spf);
    PrefixExtend(head, OutputRollout(0, spf), tr);
    AbortedPrefixOfRun(BatchCount, spf, tr + head);
  }

  /** The stop, read as a prefix of the first output frame. */
  lemma StopShape(tr: seq<Event>, spf: int)
    ensures tr + [Finalize(false)] + Repeat(Substep(Some(0), false), RangeLen(spf)) + [Render(0)]
      + [WriteImage(FrameFileName(0))] == tr + ([Finalize(false)] + OutputFrame(0, spf))
  {
  }

  lemma AbortedPrefixOfRun(n: nat, spf: int, t: seq<Event>)
    requires n > 0 && t <= BatchTrace(0, spf)
    ensures t <= RunTrace(n, spf)
  {
    var r := RunTrace(n, spf);
    assert r[..|t|] == BatchTrace(0, spf)[..|t|];
  }

  /** The stopped run resets once and writes no file. */
  lemma AbortedCounts(spf: int)
    ensures Count(AbortedTrace(spf), Images) == 0 && Count(AbortedTrace(spf), Videos) == 0
    ensures Count(AbortedTrace(spf), Resets) == 1
  {
    AbortedKind(spf, Images);
    AbortedKind(spf, Videos);
    AbortedKind(spf, Resets);
    TrainingFileless(0, spf);
  }

  /** Training writes no file and resets once. */
  lemma TrainingFileless(batch: nat, spf: int)
    ensures PerTraining(batch, spf, Images) == 0 && PerTraining(batch, spf, Videos) == 0
    ensures PerTraining(batch, spf, Resets) == 1
  {
    TimesZero(FramePerStage);
  }

  /** Counted by anything but substeps and renderings, the stopped run is its training. */
  lemma AbortedKind(spf: int, k: Kind)
    requires k != Substeps && k != Renders
    ensures Count(AbortedTrace(spf), k) == PerTraining(0, spf, k)
  {
    StopCount(Training(0, spf), RangeLen(spf), k);
    TrainingCount(0, spf, k);
  }

  /** The stop adds only untaped substeps and one rendering to what came before. */
  lemma StopCount(tr: seq<Event>, n: nat, k: Kind)
    requires k != Substeps && k != Renders
    ensures Count(tr + [Finalize(false)] + Repeat(Substep(Some(0), false), n) + [Render(0)], k) == Count(tr, k)
  {
    var u := Repeat(Substep(Some(0), false), n);
    CountConcat(tr + [Finalize(false)] + u, [Render(0)], k);
    CountConcat(tr + [Finalize(false)], u, k);
    CountConcat(tr, [Finalize(false)], k);
    CountSingle(Finalize(false), k);
    CountSingle(Render(0), k);
    CountUntaped(Some(0), n, k);
  }
}
