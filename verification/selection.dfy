/**
 Pre-processing of the loaded scene into the particles that are simulated and
 the particles that stay frozen: the opacity filter, the moving-part split and
 the sim-area box split.
 */
module Selection {
  import opened Results
  import opened Arrays
  import opened Particles

  /** The loaded scene: the four particle arrays plus the screen-space points, which the
      opacity filter trims with them but which no later split touches. */
  datatype Scene = Scene(cloud: Cloud, screen: seq<Vec3>) {
    predicate Aligned() {
      cloud.Aligned() && |screen| == cloud.Size()
    }
  }

  /** The optional sources of frozen particles: a moving-part point file, and a sim-area box
      given as six bounds. */
  datatype Sources = Sources(movingPart: bool, simArea: Option<seq<real>>) {
    predicate BoxActive() {
      simArea.Some?
    }

    /** Exactly one of the two sources is configured. */
    predicate Single() {
      movingPart != BoxActive()
    }
  }

  /** A cloud cut in two by one mask. */
  datatype Split = Split(kept: Cloud, frozen: Cloud)

  /** What pre-processing hands on: the particles to simulate (positions already rotated,
      everything else in the world frame), the frozen particles (world frame), and the
      screen-space points. */
  datatype Prepared = Prepared(sim: Cloud, frozen: Cloud, screen: seq<Vec3>)

  // ---------------------------------------------------------------------------
  // Opacity filter

  function OpacityMask(c: Cloud, threshold: real): (m: seq<bool>)
    ensures |m| == |c.opacity|
    ensures forall i :: 0 <= i < |m| ==> (m[i] <==> c.opacity[i] > threshold)
  {
    Map((o: real) => o > threshold, c.opacity)
  }

  /** Reference definition: the particles whose opacity is strictly above the threshold,
      in their original order. */
  function Opaque(ps: seq<Particle>, threshold: real): (r: seq<Particle>)
    ensures forall p :: p in r ==> p in ps && p.opacity > threshold
    ensures forall p :: p in ps && p.opacity > threshold ==> p in r
    decreases |ps|
  {
    if |ps| == 0 then []
    else
      var n := |ps| - 1;
      assert ps == ps[..n] + [ps[n]];
      Opaque(ps[..n], threshold) + (if ps[n].opacity > threshold then [ps[n]] else [])
  }

  lemma {:induction false} OpaqueIsSelect(ps: seq<Particle>, m: seq<bool>, threshold: real)
    requires |m| == |ps|
    requires forall i :: 0 <= i < |ps| ==> (m[i] <==> ps[i].opacity > threshold)
    ensures Select(ps, m) == Opaque(ps, threshold)
    decreases |ps|
  {
    if |ps| > 0 {
      var n := |ps| - 1;
      OpaqueIsSelect(ps[..n], m[..n], threshold);
    }
  }

  /** Drops every particle whose opacity is at or below the threshold.  The same mask is
      applied to all five arrays, so the survivors keep their rows together and their order. */
  function OpacityFilter(s: Scene, threshold: real): (r: Scene)
    requires s.Aligned()
    ensures r.Aligned()
    ensures r.cloud.Records() == Opaque(s.cloud.Records(), threshold)
    ensures var p := Positions(OpacityMask(s.cloud, threshold));
      && |p| == r.cloud.Size()
      && forall k :: 0 <= k < |p| ==> r.cloud.At(k) == s.cloud.At(p[k]) && r.screen[k] == s.screen[p[k]]
  {
    var m := OpacityMask(s.cloud, threshold);
    SelectAt(s.screen, m);
    SelectAt(s.cloud.Records(), m);
    MaskRecords(s.cloud, m);
    OpaqueIsSelect(s.cloud.Records(), m, threshold);
    Scene(s.cloud.Mask(m), Select(s.screen, m))
  }

  // ---------------------------------------------------------------------------
  // Moving-part split

  /** The rows the far-point test flags; `far` stands for the distance test against the
      moving-part points, which is not part of this model. */
  function FarMask(c: Cloud, far: Vec3 -> bool): (m: seq<bool>)
    ensures |m| == |c.pos|
    ensures forall i :: 0 <= i < |m| ==> m[i] == far(c.pos[i])
  {
    Map(far, c.pos)
  }

  /** Complementary split by one mask: rows with the bit set go to `frozen`, the rest to
      `kept`, both in their original order. */
  function SplitBy(c: Cloud, m: seq<bool>): (s: Split)
    requires c.Aligned() && |m| == c.Size()
    ensures s.kept.Aligned() && s.frozen.Aligned()
    ensures s.kept.Size() + s.frozen.Size() == c.Size()
    ensures |s.frozen.Records()| == |Positions(m)|
    ensures Merge(s.frozen.Records(), s.kept.Records(), m) == c.Records()
    ensures forall p :: p in c.Records() ==> p in s.kept.Records() || p in s.frozen.Records()
  {
    MaskCovers(c, m);
    NotComplementary(m);
    MaskRecords(c, m);
    MaskRecords(c, Not(m));
    MergeSplit(c.Records(), m, Not(m));
    Split(c.Mask(Not(m)), c.Mask(m))
  }

  /** The moving-part split: particles far from every moving-part point are frozen, the
      others are kept for simulation. */
  function FreezeSplit(c: Cloud, far: Vec3 -> bool): (s: Split)
    requires c.Aligned()
    ensures s.kept.Aligned() && s.frozen.Aligned()
    ensures s.kept.Size() + s.frozen.Size() == c.Size()
    ensures forall p :: p in s.frozen.Records() ==> p in c.Records() && far(p.pos)
    ensures forall p :: p in s.kept.Records() ==> p in c.Records() && !far(p.pos)
    ensures |s.frozen.Records()| == |Positions(FarMask(c, far))|
    ensures Merge(s.frozen.Records(), s.kept.Records(), FarMask(c, far)) == c.Records()
    ensures forall p :: p in c.Records() ==> p in s.kept.Records() || p in s.frozen.Records()
  {
    var m := FarMask(c, far);
    NotComplementary(m);
    MaskRecords(c, m);
    MaskRecords(c, Not(m));
    SelectedSatisfy(c.Records(), m, (p: Particle) => far(p.pos));
    SelectedSatisfy(c.Records(), Not(m), (p: Particle) => !far(p.pos));
    SplitBy(c, m)
  }

  // ---------------------------------------------------------------------------
  // Sim-area box split

  /** Strictly inside the box `(b[0], b[1]) x (b[2], b[3]) x (b[4], b[5])`. */
  predicate InBox(p: Vec3, b: seq<real>)
    requires |b| == 6
  {
    b[0] < p.x < b[1] && b[2] < p.y < b[3] && b[4] < p.z < b[5]
  }

  /** Strictly inside the bounds of the first `n` axes. */
  predicate WithinAxes(p: Vec3, b: seq<real>, n: nat)
    requires |b| == 6 && n <= 3
  {
    forall j :: 0 <= j < n ==> b[2 * j] < p.Axis(j) < b[2 * j + 1]
  }

  /** The box mask as `simulation.py` builds it: six bounds are demanded, then the mask starts
      all-true and is narrowed by one strict lower and one strict upper test per axis. */
  method ComputeBoxMask(rotated: seq<Vec3>, boundary: seq<real>) returns (r: Result<seq<bool>>)
    ensures r.Err? <==> |boundary| != 6
    ensures r.Err? ==> r.fault == BadSimArea(|boundary|)
    ensures r.Ok? ==> |boundary| == 6 && |r.value| == |rotated|
    ensures r.Ok? ==> forall k :: 0 <= k < |rotated| ==> (r.value[k] <==> InBox(rotated[k], boundary))
  {
    if |boundary| != 6 {
      return Err(BadSimArea(|boundary|));
    }
    var mask := seq(|rotated|, k => true);
    var i := 0;
    while i < 3
      invariant 0 <= i <= 3
      invariant |mask| == |rotated|
      invariant forall k :: 0 <= k < |rotated| ==> (mask[k] <==> WithinAxes(rotated[k], boundary, i))
    {
      mask := seq(|rotated|, k requires 0 <= k < |rotated| => mask[k] && rotated[k].Axis(i) > boundary[2 * i]);
      mask := seq(|rotated|, k requires 0 <= k < |rotated| => mask[k] && rotated[k].Axis(i) < boundary[2 * i + 1]);
      i := i + 1;
    }
    forall k | 0 <= k < |rotated|
      ensures mask[k] <==> InBox(rotated[k], boundary)
    {
      assert rotated[k].Axis(0) == rotated[k].x;
      assert rotated[k].Axis(1) == rotated[k].y;
      assert rotated[k].Axis(2) == rotated[k].z;
    }
    return Ok(mask);
  }

  function BoxMask(rotated: seq<Vec3>, b: seq<real>): (m: seq<bool>)
    requires |b| == 6
    ensures |m| == |rotated|
    ensures forall k :: 0 <= k < |m| ==> (m[k] <==> InBox(rotated[k], b))
  {
    seq(|rotated|, k requires 0 <= k < |rotated| => InBox(rotated[k], b))
  }

  /** The box split.  The inside test reads the ROTATED positions; the particles inside
      keep their rotated positions, while those outside are frozen with their unrotated
      (world-frame) positions. */
  function BoxSplit(c: Cloud, rotate: Vec3 -> Vec3, b: seq<real>): (s: Split)
    requires c.Aligned() && |b| == 6
    ensures s.kept.Aligned() && s.frozen.Aligned()
    ensures s.kept.Size() + s.frozen.Size() == c.Size()
    ensures forall p :: p in s.kept.pos ==> InBox(p, b) && p in Map(rotate, c.pos)
    ensures forall p :: p in s.frozen.Records() ==> p in c.Records() && !InBox(rotate(p.pos), b)
    ensures forall p :: p in c.Records() ==> p in s.frozen.Records() || p.(pos := rotate(p.pos)) in s.kept.Records()
  {
    var rotated := Map(rotate, c.pos);
    var m := BoxMask(rotated, b);
    var inside := c.(pos := rotated);
    NotComplementary(m);
    PartitionLength(c.pos, m, Not(m));
    MaskRecords(c, Not(m));
    SelectedSatisfy(rotated, m, (p: Vec3) => InBox(p, b));
    SelectedSatisfy(c.Records(), Not(m), (p: Particle) => !InBox(rotate(p.pos), b));
    MovedMaskCovers(c, rotate, m);
    Split(inside.Mask(m), c.Mask(Not(m)))
  }

  /** The box split is the complementary, order-preserving split by the outside-the-box
      mask, with the kept particles' positions rotated. */
  lemma BoxSplitIsSplitBy(c: Cloud, rotate: Vec3 -> Vec3, b: seq<real>)
    requires c.Aligned() && |b| == 6
    ensures var outside := Not(BoxMask(Map(rotate, c.pos), b));
      var s := SplitBy(c, outside);
      BoxSplit(c, rotate, b) == Split(s.kept.(pos := Map(rotate, s.kept.pos)), s.frozen)
  {
    var m := BoxMask(Map(rotate, c.pos), b);
    assert Not(Not(m)) == m;
    SelectMap(rotate, c.pos, m);
  }

  // ---------------------------------------------------------------------------
  // The whole pre-processing

  /** The moving-part split when that source is configured, otherwise everything is kept. */
  function MovingSplit(c: Cloud, movingPart: bool, far: Vec3 -> bool): (s: Split)
    requires c.Aligned()
    ensures s.kept.Aligned() && s.frozen.Aligned()
    ensures s.kept.Size() + s.frozen.Size() == c.Size()
    ensures !movingPart ==> s.frozen.Size() == 0
    ensures forall p :: p in c.Records() ==> p in s.kept.Records() || p in s.frozen.Records()
  {
    if movingPart then FreezeSplit(c, far) else Split(c, EmptyCloud)
  }

  /** Pre-processing as written: the box split, when configured, REPLACES the frozen set of
      the moving-part split instead of adding to it.  A sim area whose bound count is not
      six aborts the run. */
  function Prepare(scene: Scene, threshold: real, src: Sources, far: Vec3 -> bool, rotate: Vec3 -> Vec3)
    : (r: Result<Prepared>)
    requires scene.Aligned()
    ensures r.Err? <==> src.simArea.Some? && |src.simArea.value| != 6
    ensures r.Err? ==> r.fault == BadSimArea(|src.simArea.value|)
    ensures r.Ok? ==> r.value.sim.Aligned() && r.value.frozen.Aligned()
    ensures r.Ok? ==> |r.value.screen| == |Opaque(scene.cloud.Records(), threshold)|
    ensures r.Ok? && src.BoxActive() ==> forall p :: p in r.value.sim.pos ==> InBox(p, src.simArea.value)
  {
    var f := OpacityFilter(scene, threshold);
    var s := MovingSplit(f.cloud, src.movingPart, far);
    match src.simArea
    case None => Ok(Prepared(s.kept.(pos := Map(rotate, s.kept.pos)), s.frozen, f.screen))
    case Some(b) =>
      if |b| != 6 then Err(BadSimArea(|b|))
      else
        var box := BoxSplit(s.kept, rotate, b);
        Ok(Prepared(box.kept, box.frozen, f.screen))
  }

  /** Every particle of `ps` is handed on: frozen as it is, or simulated with its position
      rotated. */
  predicate KeepsAll(ps: seq<Particle>, r: Prepared, rotate: Vec3 -> Vec3)
    requires r.sim.Aligned() && r.frozen.Aligned()
  {
    forall p :: p in ps ==> p in r.frozen.Records() || p.(pos := rotate(p.pos)) in r.sim.Records()
  }

  /** Pre-processing with the two frozen sets composed: the moving-part frozen particles
      followed by the box frozen particles. */
  function PrepareComposed(scene: Scene, threshold: real, src: Sources, far: Vec3 -> bool, rotate: Vec3 -> Vec3)
    : (r: Result<Prepared>)
    requires scene.Aligned()
    ensures r.Err? <==> src.simArea.Some? && |src.simArea.value| != 6
    ensures r.Ok? ==> r.value.sim.Aligned() && r.value.frozen.Aligned()
    ensures r.Ok? ==> r.value.sim.Size() + r.value.frozen.Size() == |Opaque(scene.cloud.Records(), threshold)|
    ensures r.Ok? ==> |r.value.screen| == |Opaque(scene.cloud.Records(), threshold)|
    ensures r.Ok? ==> KeepsAll(Opaque(scene.cloud.Records(), threshold), r.value, rotate)
  {
    var f := OpacityFilter(scene, threshold);
    var s := MovingSplit(f.cloud, src.movingPart, far);
    match src.simArea
    case None =>
      MovedRecords(s.kept, rotate);
      Ok(Prepared(s.kept.(pos := Map(rotate, s.kept.pos)), s.frozen, f.screen))
    case Some(b) =>
      if |b| != 6 then Err(BadSimArea(|b|))
      else
        var box := BoxSplit(s.kept, rotate, b);
        AppendRecords(s.frozen, box.frozen);
        Ok(Prepared(box.kept, s.frozen.Append(box.frozen), f.screen))
  }

  /** With at most one source configured, pre-processing as written is the composed one:
      with a single frozen set there is nothing to compose. */
  lemma PrepareAgrees(scene: Scene, threshold: real, src: Sources, far: Vec3 -> bool, rotate: Vec3 -> Vec3)
    requires scene.Aligned()
    requires !(src.movingPart && src.BoxActive())
    ensures Prepare(scene, threshold, src, far, rotate) == PrepareComposed(scene, threshold, src, far, rotate)
  {
    if src.BoxActive() && |src.simArea.value| == 6 {
      var f := OpacityFilter(scene, threshold);
      assert MovingSplit(f.cloud, src.movingPart, far) == Split(f.cloud, EmptyCloud);
      var box := BoxSplit(f.cloud, rotate, src.simArea.value);
      AppendToEmpty(box.frozen);
    }
  }

  lemma AppendToEmpty(c: Cloud)
    ensures EmptyCloud.Append(c) == c
  {
    assert [] + c.pos == c.pos && [] + c.cov == c.cov;
    assert [] + c.opacity == c.opacity && [] + c.shs == c.shs;
  }

  /** With at most one source configured, every opaque particle ends up either simulated
      or frozen, and the two sets together are exactly as large as the opaque set. */
  lemma PrepareConserves(scene: Scene, threshold: real, src: Sources, far: Vec3 -> bool, rotate: Vec3 -> Vec3)
    requires scene.Aligned()
    requires !(src.movingPart && src.BoxActive())
    requires Prepare(scene, threshold, src, far, rotate).Ok?
    ensures var p := Prepare(scene, threshold, src, far, rotate).value;
      && p.sim.Size() + p.frozen.Size() == |Opaque(scene.cloud.Records(), threshold)|
      && KeepsAll(Opaque(scene.cloud.Records(), threshold), p, rotate)
  {
    PrepareAgrees(scene, threshold, src, far, rotate);
  }

  /** With both sources configured, the particles frozen by the moving-part split are in
      neither output set. */
  lemma PrepareBothDropsMovingFrozen(scene: Scene, threshold: real, src: Sources, far: Vec3 -> bool, rotate: Vec3 -> Vec3)
    requires scene.Aligned()
    requires src.movingPart && src.BoxActive() && |src.simArea.value| == 6
    ensures var p := Prepare(scene, threshold, src, far, rotate).value;
      var f := OpacityFilter(scene, threshold).cloud;
      p.sim.Size() + p.frozen.Size() == f.Size() - FreezeSplit(f, far).frozen.Size()
  {
  }

  /** With both sources configured, the output is exactly the box split of the particles
      the moving-part split kept. */
  lemma PrepareBothSources(scene: Scene, threshold: real, src: Sources, far: Vec3 -> bool, rotate: Vec3 -> Vec3)
    requires scene.Aligned()
    requires src.movingPart && src.BoxActive() && |src.simArea.value| == 6
    ensures var f := OpacityFilter(scene, threshold);
      var box := BoxSplit(FreezeSplit(f.cloud, far).kept, rotate, src.simArea.value);
      Prepare(scene, threshold, src, far, rotate) == Ok(Prepared(box.kept, box.frozen, f.screen))
  {
  }
}
