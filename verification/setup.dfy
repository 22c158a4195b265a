/**
 The solver's initial particle arrays and the render-side arrays derived from
 the pre-processed particles: originals first (the first `gsNum` rows), filler
 particles after them, and a covariance buffer zero-padded for the filler.
 */
module Setup {
  import opened Arrays
  import opened Particles
  import opened Selection

  /** `pos`/`cov` are loaded into the solver; `gsNum` rows of them are the original
      particles; `initLen` is the solver's particle count; `opacityRender`/`shsRender` are
      the appearance arrays of the original particles. */
  datatype SimInit = SimInit(
    pos: seq<Vec3>,
    cov: seq<Cov>,
    gsNum: nat,
    initLen: nat,
    opacityRender: seq<real>,
    shsRender: seq<Shs>)
  {
    /** One covariance per solver particle, the originals a prefix of the solver's rows,
        and one appearance row per original. */
    predicate Consistent() {
      && |cov| == |pos|
      && gsNum <= |pos|
      && initLen == |pos|
      && |opacityRender| == gsNum
      && |shsRender| == gsNum
    }
  }

  /** A covariance buffer of `total` rows holding `cov` in its first rows and zeros after. */
  function PadCov(cov: seq<Cov>, total: nat): (r: seq<Cov>)
    requires |cov| <= total
    ensures |r| == total
    ensures r[..|cov|] == cov
    ensures forall i :: |cov| <= i < total ==> r[i] == ZeroCov
  {
    seq(total, i requires 0 <= i < total => if i < |cov| then cov[i] else ZeroCov)
  }

  /** Builds the solver input from the particles to simulate: their positions and
      covariances in the solver frame (`toSim`, `covToSim` stand for the normalising
      transforms, which are not part of this model) followed by the filler particles. */
  function BuildInit(p: Prepared, toSim: Vec3 -> Vec3, covToSim: Cov -> Cov, filler: seq<Vec3>): (s: SimInit)
    requires p.sim.Aligned()
    ensures s.Consistent()
    ensures s.gsNum == p.sim.Size() && |s.pos| == p.sim.Size() + |filler|
    ensures forall i :: 0 <= i < s.gsNum ==> s.pos[i] == toSim(p.sim.pos[i]) && s.cov[i] == covToSim(p.sim.cov[i])
    ensures forall i :: s.gsNum <= i < |s.pos| ==> s.pos[i] == filler[i - s.gsNum] && s.cov[i] == ZeroCov
    ensures s.opacityRender == p.sim.opacity && s.shsRender == p.sim.shs
  {
    var pos := Map(toSim, p.sim.pos) + filler;
    SimInit(pos, PadCov(Map(covToSim, p.sim.cov), |pos|), p.sim.Size(), |pos|, p.sim.opacity, p.sim.shs)
  }
}
