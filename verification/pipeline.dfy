/**
 End-to-end statements over pre-processing, solver set-up and per-frame
 re-composition: which particles reach the renderer, whether the arrays it
 receives stay index-aligned with each other, and whether they have as many rows
 as the screen points handed over with them.
 */
module Pipeline {
  import opened Results
  import opened Arrays
  import opened Particles
  import opened Selection
  import opened Setup
  import opened Compose

  /** Everything a frame depends on besides the solver's exported state. */
  datatype Run = Run(
    scene: Scene,
    threshold: real,
    src: Sources,
    far: Vec3 -> bool,
    rotate: Vec3 -> Vec3,
    toSim: Vec3 -> Vec3,
    covToSim: Cov -> Cov,
    filler: seq<Vec3>,
    toWorld: Vec3 -> Vec3,
    covToWorld: Cov -> Cov)

  /** The number of particles that survive the opacity filter. */
  function OpaqueCount(run: Run): nat
    requires run.scene.Aligned()
  {
    |Opaque(run.scene.cloud.Records(), run.threshold)|
  }

  /** The frame the pipeline as written renders, or the pre-processing failure. */
  function RenderedFrame(run: Run, x: seq<Vec3>, c: seq<Cov>): (r: Result<RenderInput>)
    requires run.scene.Aligned()
    ensures r.Err? <==> run.src.simArea.Some? && |run.src.simArea.value| != 6
  {
    var p :- Prepare(run.scene, run.threshold, run.src, run.far, run.rotate);
    var init := BuildInit(p, run.toSim, run.covToSim, run.filler);
    Ok(ComposeFrame(x, c, init, p.frozen, run.src, run.toWorld, run.covToWorld))
  }

  /** The frame with the two frozen sets composed and appended once. */
  function RenderedFrameComposed(run: Run, x: seq<Vec3>, c: seq<Cov>): (r: Result<RenderInput>)
    requires run.scene.Aligned()
    ensures r.Err? <==> run.src.simArea.Some? && |run.src.simArea.value| != 6
  {
    var p :- PrepareComposed(run.scene, run.threshold, run.src, run.far, run.rotate);
    var init := BuildInit(p, run.toSim, run.covToSim, run.filler);
    Ok(ComposeFrameOnce(x, c, init, p.frozen, run.src, run.toWorld, run.covToWorld))
  }

  /** Composed pipeline: every frame is aligned, has one row per opaque particle, and so
      as many rows as the screen points handed to the renderer with it. */
  lemma EndToEndComposed(run: Run, x: seq<Vec3>, c: seq<Cov>)
    requires run.scene.Aligned()
    requires PrepareComposed(run.scene, run.threshold, run.src, run.far, run.rotate).Ok?
    requires |x| == |c| == PrepareComposed(run.scene, run.threshold, run.src, run.far, run.rotate).value.sim.Size() + |run.filler|
    ensures var r := RenderedFrameComposed(run, x, c);
      var p := PrepareComposed(run.scene, run.threshold, run.src, run.far, run.rotate).value;
      && r.Ok?
      && r.value.Aligned()
      && |r.value.pos| == OpaqueCount(run) == |p.screen|
  {
    var p := PrepareComposed(run.scene, run.threshold, run.src, run.far, run.rotate).value;
    var init := BuildInit(p, run.toSim, run.covToSim, run.filler);
    assert ExportMatches(x, c, init);
    if ActiveSources(run.src) == 0 {
      assert p.frozen == EmptyCloud;
    }
  }

  /** As written, with at most one source configured: the same guarantee. */
  lemma EndToEndAtMostOneSource(run: Run, x: seq<Vec3>, c: seq<Cov>)
    requires run.scene.Aligned()
    requires !(run.src.movingPart && run.src.BoxActive())
    requires Prepare(run.scene, run.threshold, run.src, run.far, run.rotate).Ok?
    requires |x| == |c| == Prepare(run.scene, run.threshold, run.src, run.far, run.rotate).value.sim.Size() + |run.filler|
    ensures var r := RenderedFrame(run, x, c);
      var p := Prepare(run.scene, run.threshold, run.src, run.far, run.rotate).value;
      && r.Ok?
      && r.value.Aligned()
      && |r.value.pos| == OpaqueCount(run) == |p.screen|
  {
    var p := Prepare(run.scene, run.threshold, run.src, run.far, run.rotate).value;
    var init := BuildInit(p, run.toSim, run.covToSim, run.filler);
    assert ExportMatches(x, c, init);
    PrepareConserves(run.scene, run.threshold, run.src, run.far, run.rotate);
    if ActiveSources(run.src) == 0 {
      assert p.frozen.Size() == 0;
      SimulatedPartAligned(x, c, init, run.toWorld, run.covToWorld);
    } else {
      ComposeOneSourceAligned(x, c, init, p.frozen, run.src, run.toWorld, run.covToWorld);
    }
  }

  /** As written, with both sources configured: the positions carry the frozen rows twice
      and the opacities once, so the frame is aligned only when nothing is frozen. */
  lemma BothSourcesFrame(run: Run, x: seq<Vec3>, c: seq<Cov>)
    requires run.scene.Aligned()
    requires run.src.movingPart && run.src.BoxActive() && |run.src.simArea.value| == 6
    requires |x| == |c| == Prepare(run.scene, run.threshold, run.src, run.far, run.rotate).value.sim.Size() + |run.filler|
    ensures var p := Prepare(run.scene, run.threshold, run.src, run.far, run.rotate).value;
      var r := RenderedFrame(run, x, c);
      && r.Ok?
      && |r.value.pos| == p.sim.Size() + 2 * p.frozen.Size()
      && |r.value.opacity| == p.sim.Size() + p.frozen.Size()
      && (r.value.Aligned() <==> p.frozen.Size() == 0)
  {
    var p := Prepare(run.scene, run.threshold, run.src, run.far, run.rotate).value;
    var init := BuildInit(p, run.toSim, run.covToSim, run.filler);
    ComposeBothSourcesMisaligned(x, c, init, p.frozen, run.src, run.toWorld, run.covToWorld);
  }

  // ---------------------------------------------------------------------------
  // Concrete runs with both sources configured

  const Origin := Vec3(0.0, 0.0, 0.0)
  const Corner := Vec3(5.0, 5.0, 5.0)

  /** The sim area (-1, 1)³, which holds `Origin` and not `Corner`. */
  const UnitBox := [-1.0, 1.0, -1.0, 1.0, -1.0, 1.0]

  /** Two opaque particles: one at the origin, one at (5, 5, 5). */
  const TwoParticles :=
    Scene(Cloud([Origin, Corner], [ZeroCov, ZeroCov], [1.0, 1.0], [[], []]), [Origin, Corner])

  /** The far-point test of a moving part next to the origin. */
  function FarFromOrigin(p: Vec3): bool {
    p.x > 2.0
  }

  /** The far-point test of a moving part that covers the whole scene. */
  function FarFromNothing(p: Vec3): bool {
    false
  }

  /** A run over `TwoParticles` with both sources configured, the sim area `UnitBox` and
      identity transforms. */
  function BothSourcesRun(far: Vec3 -> bool): Run {
    Run(TwoParticles, 0.5, Sources(true, Some(UnitBox)), far,
        (p: Vec3) => p, (p: Vec3) => p, (v: Cov) => v, [], (p: Vec3) => p, (v: Cov) => v)
  }

  /** Both particles survive the opacity filter, in their order. */
  lemma TwoParticlesOpaque()
    ensures Opaque(TwoParticles.cloud.Records(), 0.5) == [TwoParticles.cloud.At(0), TwoParticles.cloud.At(1)]
    ensures OpacityFilter(TwoParticles, 0.5).cloud.Records() == [TwoParticles.cloud.At(0), TwoParticles.cloud.At(1)]
  {
    var ps := TwoParticles.cloud.Records();
    var first := ps[..1];
    assert first[..0] == [];
    assert Opaque(first, 0.5) == [ps[0]];
    assert ps[..|ps| - 1] == first;
  }

  /** A two-row split with one given particle on each side has exactly that one on each. */
  lemma OneEach(a: Cloud, b: Cloud, x: Particle, y: Particle)
    requires a.Aligned() && b.Aligned() && a.Size() + b.Size() == 2
    requires x in a.Records() && y in b.Records()
    ensures a.Records() == [x] && b.Records() == [y]
  {
  }

  /** The moving-part split of two particles, the first near and the second far. */
  lemma FreezeSplitNearFar(c: Cloud, far: Vec3 -> bool, a: Particle, b: Particle)
    requires c.Aligned() && c.Records() == [a, b]
    requires !far(a.pos) && far(b.pos)
    ensures FreezeSplit(c, far).kept.Records() == [a] && FreezeSplit(c, far).frozen.Records() == [b]
  {
    var s := FreezeSplit(c, far);
    assert a in c.Records() && b in c.Records();
    OneEach(s.kept, s.frozen, a, b);
  }

  /** The moving-part split of two near particles freezes neither. */
  lemma FreezeSplitNearNear(c: Cloud, far: Vec3 -> bool, a: Particle, b: Particle)
    requires c.Aligned() && c.Records() == [a, b]
    requires !far(a.pos) && !far(b.pos)
    ensures var s := FreezeSplit(c, far);
      s.kept.Size() == 2 && a in s.kept.Records() && b in s.kept.Records()
  {
    var s := FreezeSplit(c, far);
    assert a in c.Records() && b in c.Records();
    NothingSelected(s.frozen, c.Records(), far);
  }

  /** A cloud whose particles are all far, drawn from particles none of which is far, is
      empty. */
  lemma NothingSelected(s: Cloud, ps: seq<Particle>, far: Vec3 -> bool)
    requires s.Aligned()
    requires forall p :: p in s.Records() ==> p in ps && far(p.pos)
    requires forall p :: p in ps ==> !far(p.pos)
    ensures s.Size() == 0
  {
    if s.Size() > 0 {
      RowIsRecord(s, 0);
      assert false;
    }
  }

  /** Row `i` of a cloud is one of its records. */
  lemma RowIsRecord(c: Cloud, i: nat)
    requires c.Aligned() && i < c.Size()
    ensures c.At(i) in c.Records()
  {
    assert c.Records()[i] == c.At(i);
  }

  /** The box split of one particle inside the box simulates it and freezes nothing. */
  lemma BoxSplitInside(c: Cloud, rotate: Vec3 -> Vec3, box: seq<real>, a: Particle)
    requires c.Aligned() && |box| == 6 && c.Size() == 1 && a in c.Records()
    requires InBox(rotate(a.pos), box)
    ensures BoxSplit(c, rotate, box).kept.Records() == [a.(pos := rotate(a.pos))]
    ensures BoxSplit(c, rotate, box).frozen.Size() == 0
  {
    var s := BoxSplit(c, rotate, box);
    assert a !in s.frozen.Records();
    OnlyRecord(s.kept, a.(pos := rotate(a.pos)));
  }

  /** A one-row cloud holding a given particle holds only that particle. */
  lemma OnlyRecord(c: Cloud, x: Particle)
    requires c.Aligned() && c.Size() <= 1 && x in c.Records()
    ensures c.Size() == 1 && c.Records() == [x]
  {
  }

  /** The box split of two particles, only the first inside the box. */
  lemma BoxSplitInsideOutside(c: Cloud, rotate: Vec3 -> Vec3, box: seq<real>, a: Particle, b: Particle)
    requires c.Aligned() && |box| == 6 && c.Size() == 2 && a in c.Records() && b in c.Records()
    requires InBox(rotate(a.pos), box) && !InBox(rotate(b.pos), box)
    ensures BoxSplit(c, rotate, box).kept.Records() == [a.(pos := rotate(a.pos))]
    ensures BoxSplit(c, rotate, box).frozen.Records() == [b]
  {
    var s := BoxSplit(c, rotate, box);
    assert a !in s.frozen.Records();
    assert rotate(b.pos) !in s.kept.pos;
    assert b.(pos := rotate(b.pos)) !in s.kept.Records();
    OneEach(s.kept, s.frozen, a.(pos := rotate(a.pos)), b);
  }

  /** With both sources configured and two opaque particles, the first near the moving part
      and inside the box, the second far from it: the first is simulated, nothing is frozen,
      and the second particle is lost. */
  lemma BothSourcesDropFar(scene: Scene, threshold: real, src: Sources, far: Vec3 -> bool, rotate: Vec3 -> Vec3, a: Particle, b: Particle)
    requires scene.Aligned() && src.movingPart && src.BoxActive() && |src.simArea.value| == 6
    requires OpacityFilter(scene, threshold).cloud.Records() == [a, b]
    requires !far(a.pos) && far(b.pos) && InBox(rotate(a.pos), src.simArea.value)
    requires b.(pos := rotate(b.pos)) != a.(pos := rotate(a.pos))
    ensures var p := Prepare(scene, threshold, src, far, rotate);
      && p.Ok?
      && p.value.sim.Records() == [a.(pos := rotate(a.pos))]
      && p.value.frozen.Size() == 0
      && !KeepsAll([a, b], p.value, rotate)
  {
    var f := OpacityFilter(scene, threshold).cloud;
    var s := FreezeSplit(f, far);
    FreezeSplitNearFar(f, far, a, b);
    assert a in s.kept.Records();
    var box := BoxSplit(s.kept, rotate, src.simArea.value);
    BoxSplitInside(s.kept, rotate, src.simArea.value, a);
    PrepareBothSources(scene, threshold, src, far, rotate);
    NotKept(Prepared(box.kept, box.frozen, OpacityFilter(scene, threshold).screen), rotate, a, b);
  }

  /** A particle that is neither frozen nor simulated breaks `KeepsAll`. */
  lemma NotKept(r: Prepared, rotate: Vec3 -> Vec3, a: Particle, b: Particle)
    requires r.sim.Aligned() && r.frozen.Aligned()
    requires r.sim.Records() == [a.(pos := rotate(a.pos))] && r.frozen.Size() == 0
    requires b.(pos := rotate(b.pos)) != a.(pos := rotate(a.pos))
    ensures !KeepsAll([a, b], r, rotate)
  {
    assert b in [a, b];
  }

  /** With both sources configured, a moving part that freezes nothing, and two opaque
      particles of which only the first is inside the box: the first is simulated and the
      second frozen. */
  lemma BothSourcesFreezeOutside(scene: Scene, threshold: real, src: Sources, far: Vec3 -> bool, rotate: Vec3 -> Vec3, a: Particle, b: Particle)
    requires scene.Aligned() && src.movingPart && src.BoxActive() && |src.simArea.value| == 6
    requires OpacityFilter(scene, threshold).cloud.Records() == [a, b]
    requires !far(a.pos) && !far(b.pos)
    requires InBox(rotate(a.pos), src.simArea.value) && !InBox(rotate(b.pos), src.simArea.value)
    ensures var p := Prepare(scene, threshold, src, far, rotate);
      && p.Ok?
      && p.value.sim.Records() == [a.(pos := rotate(a.pos))]
      && p.value.frozen.Records() == [b]
  {
    var f := OpacityFilter(scene, threshold).cloud;
    FreezeSplitNearNear(f, far, a, b);
    BoxSplitInsideOutside(FreezeSplit(f, far).kept, rotate, src.simArea.value, a, b);
    PrepareBothSources(scene, threshold, src, far, rotate);
  }

  /** The particle at the origin is kept by the moving-part split and then lies inside the
      box, so it is simulated; the corner particle is far, so the moving-part split freezes
      it, and the box split then replaces that frozen set with its own empty one.  The corner
      particle is neither simulated nor frozen, and the frame rendered has one row. */
  lemma BothSourcesLoseFrozenParticle()
    ensures var run := BothSourcesRun(FarFromOrigin);
      var p := Prepare(run.scene, run.threshold, run.src, run.far, run.rotate);
      && OpaqueCount(run) == 2
      && p.Ok? && p.value.sim.Size() == 1 && p.value.frozen.Size() == 0
      && !KeepsAll(Opaque(run.scene.cloud.Records(), run.threshold), p.value, run.rotate)
      && RenderedFrame(run, [Origin], [ZeroCov]).Ok?
      && |RenderedFrame(run, [Origin], [ZeroCov]).value.pos| == 1
  {
    var run := BothSourcesRun(FarFromOrigin);
    TwoParticlesOpaque();
    BothSourcesDropFar(run.scene, run.threshold, run.src, run.far, run.rotate, TwoParticles.cloud.At(0), TwoParticles.cloud.At(1));
    BothSourcesFrame(run, [Origin], [ZeroCov]);
  }

  /** With a moving part covering the scene nothing is frozen at first; the box split then
      simulates the particle at the origin and freezes the corner particle. */
  lemma OutsideBoxIsFrozen()
    ensures var run := BothSourcesRun(FarFromNothing);
      var r := Prepare(run.scene, run.threshold, run.src, run.far, run.rotate);
      && r.Ok?
      && r.value.sim.Records() == [TwoParticles.cloud.At(0)]
      && r.value.frozen.Records() == [TwoParticles.cloud.At(1)]
      && r.value.sim.Size() == 1 && r.value.frozen.Size() == 1
  {
    var run := BothSourcesRun(FarFromNothing);
    var a := TwoParticles.cloud.At(0);
    TwoParticlesOpaque();
    assert a.(pos := run.rotate(a.pos)) == a;
    BothSourcesFreezeOutside(run.scene, run.threshold, run.src, run.far, run.rotate, a, TwoParticles.cloud.At(1));
  }

  /** The corner particle is frozen and both `torch.cat` blocks append it: the frame has
      three position rows and two opacity rows. */
  lemma BothSourcesMisalignFrame()
    ensures var run := BothSourcesRun(FarFromNothing);
      var r := RenderedFrame(run, [Origin], [ZeroCov]);
      && r.Ok?
      && |r.value.pos| == 3
      && |r.value.opacity| == 2
      && !r.value.Aligned()
  {
    var run := BothSourcesRun(FarFromNothing);
    OutsideBoxIsFrozen();
    BothSourcesFrame(run, [Origin], [ZeroCov]);
  }
}
