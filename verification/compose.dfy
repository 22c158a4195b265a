/**
 Per-frame re-composition of the renderer's input: the simulated original
 particles, mapped back to the world frame, followed by the frozen particles.
 The renderer is index-parallel, so row i of positions, covariances, opacities
 and SH coefficients must describe the same particle.
 */
module Compose {
  import opened Arrays
  import opened Particles
  import opened Selection
  import opened Setup

  /** The arrays handed to the rasteriser for one frame. */
  datatype RenderInput = RenderInput(pos: seq<Vec3>, cov: seq<Cov>, opacity: seq<real>, shs: seq<Shs>) {
    predicate Aligned() {
      |cov| == |pos| && |opacity| == |pos| && |shs| == |pos|
    }
  }

  /** How many frozen-particle sources are configured. */
  function ActiveSources(src: Sources): nat {
    (if src.BoxActive() then 1 else 0) + (if src.movingPart then 1 else 0)
  }

  /** The simulated part of a frame from the solver's exported positions `x` and
      covariances `c`: the first `gsNum` rows, mapped back to the world frame (`toWorld`,
      `covToWorld` stand for the inverse normalising transforms). */
  function SimulatedPart(x: seq<Vec3>, c: seq<Cov>, init: SimInit, toWorld: Vec3 -> Vec3, covToWorld: Cov -> Cov)
    : (r: RenderInput)
    ensures |r.pos| <= init.gsNum && |r.cov| <= init.gsNum
    ensures forall i :: 0 <= i < |r.pos| ==> i < |x| && r.pos[i] == toWorld(x[i])
    ensures forall i :: 0 <= i < |r.cov| ==> i < |c| && r.cov[i] == covToWorld(c[i])
    ensures r.opacity == init.opacityRender && r.shs == init.shsRender
  {
    RenderInput(
      Map(toWorld, Take(Take(x, init.gsNum), init.initLen)),
      Map(covToWorld, Take(c, init.gsNum)),
      init.opacityRender,
      init.shsRender)
  }

  /** One `torch.cat` block as written: positions and covariances extend what was built so
      far, while opacity and SH are rebuilt from the render arrays. */
  function AppendFrozenAsWritten(r: RenderInput, init: SimInit, frozen: Cloud): RenderInput {
    RenderInput(
      r.pos + frozen.pos,
      r.cov + frozen.cov,
      init.opacityRender + frozen.opacity,
      init.shsRender + frozen.shs)
  }

  /** The re-composition as written: one `torch.cat` block per configured source, each
      appending the same frozen arrays. */
  function ComposeFrame(
    x: seq<Vec3>, c: seq<Cov>, init: SimInit, frozen: Cloud, src: Sources,
    toWorld: Vec3 -> Vec3, covToWorld: Cov -> Cov)
    : (r: RenderInput)
    ensures var base := SimulatedPart(x, c, init, toWorld, covToWorld);
      && |r.pos| == |base.pos| + ActiveSources(src) * |frozen.pos|
      && |r.cov| == |base.cov| + ActiveSources(src) * |frozen.cov|
      && |r.opacity| == |init.opacityRender| + (if ActiveSources(src) > 0 then |frozen.opacity| else 0)
      && |r.shs| == |init.shsRender| + (if ActiveSources(src) > 0 then |frozen.shs| else 0)
    ensures r.pos[..|SimulatedPart(x, c, init, toWorld, covToWorld).pos|] == SimulatedPart(x, c, init, toWorld, covToWorld).pos
  {
    var r0 := SimulatedPart(x, c, init, toWorld, covToWorld);
    var r1 := if src.BoxActive() then AppendFrozenAsWritten(r0, init, frozen) else r0;
    var r2 := if src.movingPart then AppendFrozenAsWritten(r1, init, frozen) else r1;
    assert r2.pos[..|r0.pos|] == r0.pos;
    r2
  }

  /** The re-composition with the frozen arrays appended once, to all four arrays, whenever
      any source is configured.  When the solver exports one row per particle the frame is
      aligned: the original particles first, then every frozen particle whole. */
  function ComposeFrameOnce(
    x: seq<Vec3>, c: seq<Cov>, init: SimInit, frozen: Cloud, src: Sources,
    toWorld: Vec3 -> Vec3, covToWorld: Cov -> Cov)
    : (r: RenderInput)
    ensures var base := SimulatedPart(x, c, init, toWorld, covToWorld);
      var extra := if ActiveSources(src) > 0 then 1 else 0;
      && |r.pos| == |base.pos| + extra * |frozen.pos|
      && |r.cov| == |base.cov| + extra * |frozen.cov|
      && |r.opacity| == |base.opacity| + extra * |frozen.opacity|
      && |r.shs| == |base.shs| + extra * |frozen.shs|
    ensures ExportMatches(x, c, init) && frozen.Aligned() ==>
      && r.Aligned()
      && |r.pos| == init.gsNum + (if ActiveSources(src) > 0 then frozen.Size() else 0)
      && (forall i :: 0 <= i < init.gsNum ==> r.pos[i] == toWorld(x[i]) && r.cov[i] == covToWorld(c[i]))
      && r.opacity[..init.gsNum] == init.opacityRender
      && r.shs[..init.gsNum] == init.shsRender
      && (ActiveSources(src) > 0 ==> forall k :: 0 <= k < frozen.Size() ==>
            Particle(r.pos[init.gsNum + k], r.cov[init.gsNum + k], r.opacity[init.gsNum + k], r.shs[init.gsNum + k])
              == frozen.At(k))
  {
    var r0 := SimulatedPart(x, c, init, toWorld, covToWorld);
    if ActiveSources(src) > 0 then
      RenderInput(r0.pos + frozen.pos, r0.cov + frozen.cov, r0.opacity + frozen.opacity, r0.shs + frozen.shs)
    else r0
  }

  /** The solver exported one position and one covariance per solver particle. */
  predicate ExportMatches(x: seq<Vec3>, c: seq<Cov>, init: SimInit) {
    init.Consistent() && |x| == |init.pos| && |c| == |init.pos|
  }

  /** The simulated part of a frame is aligned when the solver exports one row per particle. */
  lemma SimulatedPartAligned(x: seq<Vec3>, c: seq<Cov>, init: SimInit, toWorld: Vec3 -> Vec3, covToWorld: Cov -> Cov)
    requires ExportMatches(x, c, init)
    ensures var base := SimulatedPart(x, c, init, toWorld, covToWorld);
      base.Aligned() && |base.pos| == init.gsNum
  {
  }

  /** With exactly one source, the frame as written is aligned: the original particles
      followed by each frozen particle once, with its own covariance, opacity and SH. */
  lemma ComposeOneSourceAligned(
    x: seq<Vec3>, c: seq<Cov>, init: SimInit, frozen: Cloud, src: Sources,
    toWorld: Vec3 -> Vec3, covToWorld: Cov -> Cov)
    requires ExportMatches(x, c, init) && frozen.Aligned()
    requires src.Single()
    ensures var r := ComposeFrame(x, c, init, frozen, src, toWorld, covToWorld);
      && r == ComposeFrameOnce(x, c, init, frozen, src, toWorld, covToWorld)
      && r.Aligned()
      && |r.pos| == init.gsNum + frozen.Size()
  {
  }

  /** With both sources configured, the frame as written is misaligned whenever any particle
      is frozen: positions and covariances carry the frozen rows twice, opacity and SH once. */
  lemma ComposeBothSourcesMisaligned(
    x: seq<Vec3>, c: seq<Cov>, init: SimInit, frozen: Cloud, src: Sources,
    toWorld: Vec3 -> Vec3, covToWorld: Cov -> Cov)
    requires ExportMatches(x, c, init) && frozen.Aligned()
    requires src.movingPart && src.BoxActive()
    ensures var r := ComposeFrame(x, c, init, frozen, src, toWorld, covToWorld);
      && |r.pos| == |r.cov| == init.gsNum + 2 * frozen.Size()
      && |r.opacity| == |r.shs| == init.gsNum + frozen.Size()
      && (r.Aligned() <==> frozen.Size() == 0)
  {
  }
}
