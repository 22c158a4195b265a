/**
 The particle data of a point-based scene.  `simulation.py` keeps particles as
 parallel arrays (one row per particle) and never joins them on a key, so the
 model does the same: a `Cloud` holds the four arrays that are filtered and
 re-composed together, and `Records` reads them back as one record per row.
 */
module Particles {
  import opened Arrays

  datatype Vec3 = Vec3(x: real, y: real, z: real) {
    /** Coordinate `i`, the column `pos[:, i]`. */
    function Axis(i: nat): real
      requires i < 3
    {
      if i == 0 then x else if i == 1 then y else z
    }
  }

  /** A symmetric 3x3 covariance packed as its six upper-triangle entries. */
  datatype Cov = Cov(xx: real, xy: real, xz: real, yy: real, yz: real, zz: real)

  const ZeroCov := Cov(0.0, 0.0, 0.0, 0.0, 0.0, 0.0)

  /** Spherical-harmonic colour coefficients: one RGB triple per basis function. */
  type Shs = seq<Vec3>

  /** One row of the parallel arrays. */
  datatype Particle = Particle(pos: Vec3, cov: Cov, opacity: real, shs: Shs)

  /** Positions, covariances, opacities and SH coefficients, one row per particle. */
  datatype Cloud = Cloud(pos: seq<Vec3>, cov: seq<Cov>, opacity: seq<real>, shs: seq<Shs>) {

    /** All four arrays have one row per particle. */
    predicate Aligned() {
      |cov| == |pos| && |opacity| == |pos| && |shs| == |pos|
    }

    function Size(): nat {
      |pos|
    }

    /** Row `i` of every array, read as one particle. */
    function At(i: nat): Particle
      requires Aligned() && i < |pos|
    {
      Particle(pos[i], cov[i], opacity[i], shs[i])
    }

    function Records(): (r: seq<Particle>)
      requires Aligned()
      ensures |r| == |pos|
    {
      seq(|pos|, i requires 0 <= i < |pos| => At(i))
    }

    /** The same boolean mask applied to each of the four arrays. */
    function Mask(m: seq<bool>): (r: Cloud)
      requires Aligned() && |m| == |pos|
      ensures r.Aligned() && r.Size() == |Positions(m)|
    {
      SelectLength(pos, m);
      SelectLength(cov, m);
      SelectLength(opacity, m);
      SelectLength(shs, m);
      Cloud(Select(pos, m), Select(cov, m), Select(opacity, m), Select(shs, m))
    }

    /** `torch.cat` of each array with the matching array of `other`. */
    function Append(other: Cloud): Cloud {
      Cloud(pos + other.pos, cov + other.cov, opacity + other.opacity, shs + other.shs)
    }
  }

  const EmptyCloud := Cloud([], [], [], [])

  /** Masking every array separately keeps rows together: it selects whole particles. */
  lemma MaskRecords(c: Cloud, m: seq<bool>)
    requires c.Aligned() && |m| == c.Size()
    ensures c.Mask(m).Records() == Select(c.Records(), m)
  {
    var p := Positions(m);
    SelectAt(c.pos, m);
    SelectAt(c.cov, m);
    SelectAt(c.opacity, m);
    SelectAt(c.shs, m);
    SelectAt(c.Records(), m);
    var r := c.Mask(m).Records();
    forall k | 0 <= k < |p|
      ensures r[k] == Select(c.Records(), m)[k]
    {
      assert r[k] == c.At(p[k]);
    }
  }

  /** A row whose mask bit is set survives masking as a whole particle. */
  lemma MaskKeeps(c: Cloud, m: seq<bool>, i: nat)
    requires c.Aligned() && |m| == c.Size() && i < c.Size() && m[i]
    ensures c.At(i) in c.Mask(m).Records()
  {
    MaskRecords(c, m);
    assert c.Records()[i] == c.At(i);
    SelectMembership(c.Records(), m, c.At(i));
  }

  /** A mask and its complement together keep every particle. */
  lemma MaskCovers(c: Cloud, m: seq<bool>)
    requires c.Aligned() && |m| == c.Size()
    ensures forall p :: p in c.Records() ==> p in c.Mask(m).Records() || p in c.Mask(Not(m)).Records()
  {
    forall p | p in c.Records()
      ensures p in c.Mask(m).Records() || p in c.Mask(Not(m)).Records()
    {
      var i :| 0 <= i < |c.Records()| && c.Records()[i] == p;
      if m[i] {
        MaskKeeps(c, m, i);
      } else {
        MaskKeeps(c, Not(m), i);
      }
    }
  }

  /** Masking the moved cloud by `m` and the original by its complement keeps every
      particle, moved when its bit is set and as it was otherwise. */
  lemma MovedMaskCovers(c: Cloud, f: Vec3 -> Vec3, m: seq<bool>)
    requires c.Aligned() && |m| == c.Size()
    ensures forall p :: p in c.Records() ==>
      p.(pos := f(p.pos)) in c.(pos := Map(f, c.pos)).Mask(m).Records() || p in c.Mask(Not(m)).Records()
  {
    var moved := c.(pos := Map(f, c.pos));
    forall p | p in c.Records()
      ensures p.(pos := f(p.pos)) in moved.Mask(m).Records() || p in c.Mask(Not(m)).Records()
    {
      var i :| 0 <= i < |c.Records()| && c.Records()[i] == p;
      if m[i] {
        assert moved.At(i) == p.(pos := f(p.pos));
        MaskKeeps(moved, m, i);
      } else {
        MaskKeeps(c, Not(m), i);
      }
    }
  }

  /** Mapping the position array moves each particle and leaves the rest of its row. */
  lemma MovedRecords(c: Cloud, f: Vec3 -> Vec3)
    requires c.Aligned()
    ensures c.(pos := Map(f, c.pos)).Aligned()
    ensures forall p :: p in c.Records() ==> p.(pos := f(p.pos)) in c.(pos := Map(f, c.pos)).Records()
  {
    var moved := c.(pos := Map(f, c.pos));
    forall p | p in c.Records()
      ensures p.(pos := f(p.pos)) in moved.Records()
    {
      var i :| 0 <= i < |c.Records()| && c.Records()[i] == p;
      assert moved.Records()[i] == p.(pos := f(p.pos));
    }
  }

  /** Concatenating aligned clouds concatenates their particles. */
  lemma AppendRecords(a: Cloud, b: Cloud)
    requires a.Aligned() && b.Aligned()
    ensures a.Append(b).Aligned()
    ensures a.Append(b).Size() == a.Size() + b.Size()
    ensures a.Append(b).Records() == a.Records() + b.Records()
  {
    var r := a.Append(b).Records();
    forall i | 0 <= i < |r|
      ensures r[i] == (a.Records() + b.Records())[i]
    {
      if i >= a.Size() {
        assert r[i] == b.At(i - a.Size());
      }
    }
  }
}
