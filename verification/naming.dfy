/**
 Small integer and string computations of the pipeline: the spherical-harmonic
 degree inferred from a checkpoint's property names, the names of the output
 images and videos, and the even rounding of image dimensions.
 */
module Naming {
  import opened Strings

  // ---------------------------------------------------------------------------
  // Spherical-harmonic degree

  /** The number of names that start with `prefix`. */
  function CountPrefixed(names: seq<string>, prefix: string): (n: nat)
    ensures n <= |names|
    ensures n == 0 <==> forall i :: 0 <= i < |names| ==> !StartsWith(names[i], prefix)
    decreases |names|
  {
    if |names| == 0 then 0
    else
      var k := |names| - 1;
      CountPrefixed(names[..k], prefix) + (if StartsWith(names[k], prefix) then 1 else 0)
  }

  /** Integer square root: the largest `r` with `r * r <= k`. */
  function ISqrt(k: nat): (r: nat)
    ensures r * r <= k < (r + 1) * (r + 1)
    decreases k
  {
    if k == 0 then 0
    else
      var s := ISqrt(k - 1);
      if (s + 1) * (s + 1) <= k then s + 1 else s
  }

  /** The number of `f_rest_` properties a degree-`d` checkpoint stores: three colour
      channels times the `(d + 1)^2 - 1` non-constant basis functions. */
  function RestCount(d: nat): nat {
    3 * ((d + 1) * (d + 1) - 1)
  }

  /** `int(math.sqrt((n + 3) // 3)) - 1` for `n` extra coefficient names: the degree whose
      checkpoints store at most `n` of them, and whose successor's store more. */
  function ShDegreeOfCount(n: nat): (d: nat)
    ensures RestCount(d) <= n < RestCount(d + 1)
  {
    var q := (n + 3) / 3;
    var s := ISqrt(q);
    assert s * s <= q < (s + 1) * (s + 1);
    assert 3 * q <= n + 3 < 3 * q + 3;
    s - 1
  }

  /** The SH degree a checkpoint is loaded with, from its property names. */
  function ShDegree(names: seq<string>): (d: nat)
    ensures CountPrefixed(names, "f_rest_") == 0 ==> d == 0
    ensures RestCount(d) <= CountPrefixed(names, "f_rest_") < RestCount(d + 1)
  {
    var n := CountPrefixed(names, "f_rest_");
    ShDegreeBracket(n, ShDegreeOfCount(n));
    ShDegreeOfCount(n)
  }

  lemma {:induction false} SquareMonotone(a: nat, b: nat)
    requires a <= b
    ensures a * a <= b * b
  {
    assert a * a <= a * b by {
      MulLe(a, a, b);
    }
    assert a * b <= b * b by {
      MulLe(b, a, b);
    }
  }

  lemma MulLe(c: nat, a: nat, b: nat)
    requires a <= b
    ensures c * a <= c * b
  {
  }

  /** The integer square root is the only `r` with `r * r <= k < (r + 1) * (r + 1)`. */
  lemma ISqrtUnique(k: nat, r: nat)
    requires r * r <= k < (r + 1) * (r + 1)
    ensures ISqrt(k) == r
  {
    var s := ISqrt(k);
    if s < r {
      SquareMonotone(s + 1, r);
    } else if r < s {
      SquareMonotone(r + 1, s);
    }
  }

  /** The inferred degree is `d` exactly when the count lies in `[RestCount(d), RestCount(d + 1))`. */
  lemma ShDegreeBracket(n: nat, d: nat)
    ensures ShDegreeOfCount(n) == d <==> RestCount(d) <= n < RestCount(d + 1)
  {
    var q := (n + 3) / 3;
    var s := ISqrt(q);
    assert s >= 1;
    if RestCount(d) <= n < RestCount(d + 1) {
      assert (d + 1) * (d + 1) <= q < (d + 2) * (d + 2);
      ISqrtUnique(q, d + 1);
    }
    if ShDegreeOfCount(n) == d {
      assert s == d + 1;
      assert (d + 1) * (d + 1) <= q < (d + 2) * (d + 2);
    }
  }

  /** Round trip: a degree-`d` checkpoint is loaded back with degree `d`. */
  lemma ShDegreeRoundTrip(d: nat)
    ensures ShDegreeOfCount(RestCount(d)) == d
  {
    ShDegreeBracket(RestCount(d), d);
  }

  // ---------------------------------------------------------------------------
  // Output names

  /** `f"{frame}.png".rjust(8, "0")`: at least eight characters, ending in `.png`. */
  function FrameFileName(frame: nat): (name: string)
    ensures |name| >= 8 && EndsWith(name, ".png")
  {
    PadLeft(Decimal(frame) + ".png", 8, '0')
  }

  /** `'video%02d.mp4' % batch`: at least eleven characters, `video` first and `.mp4` last. */
  function VideoName(batch: nat): (name: string)
    ensures |name| >= 11 && StartsWith(name, "video") && EndsWith(name, ".mp4")
  {
    "video" + PadLeft(Decimal(batch), 2, '0') + ".mp4"
  }

  /** The image name ends in `.png`, and its stem is zero-padded decimal text that reads back
      as the frame number. */
  lemma FrameFileNameRoundTrip(frame: nat)
    ensures var name := FrameFileName(frame);
      && |name| >= 8
      && name[|name| - 4..] == ".png"
      && AllDigits(name[..|name| - 4])
      && Value(name[..|name| - 4]) == frame
  {
    var d := Decimal(frame);
    var name := FrameFileName(frame);
    var z := name[..|name| - |d| - 4];
    assert name[|name| - 4..] == ".png";
    assert name[..|name| - 4] == z + d;
    LeadingZeros(z, d);
    DecimalValue(frame);
  }

  /** Frames below 10000 all get names of exactly eight characters. */
  lemma FrameFileNameLength(frame: nat)
    requires frame < 10000
    ensures |FrameFileName(frame)| == 8
  {
    DecimalLength(frame, 4);
  }

  /** Distinct frames are written to distinct files. */
  lemma FrameFileNameInjective(f: nat, g: nat)
    requires FrameFileName(f) == FrameFileName(g)
    ensures f == g
  {
    FrameFileNameRoundTrip(f);
    FrameFileNameRoundTrip(g);
  }

  /** The video name carries the batch number, zero-padded to at least two digits. */
  lemma VideoNameRoundTrip(batch: nat)
    ensures var name := VideoName(batch);
      && |name| >= 11
      && name[..5] == "video" && name[|name| - 4..] == ".mp4"
      && AllDigits(name[5..|name| - 4])
      && Value(name[5..|name| - 4]) == batch
  {
    var d := Decimal(batch);
    var p := PadLeft(d, 2, '0');
    var name := VideoName(batch);
    assert name[5..|name| - 4] == p;
    PaddedValue(d, 2);
    DecimalValue(batch);
  }

  /** Zero padding keeps the value of a digit string. */
  lemma PaddedValue(d: string, width: nat)
    requires AllDigits(d)
    ensures AllDigits(PadLeft(d, width, '0'))
    ensures Value(PadLeft(d, width, '0')) == Value(d)
  {
    var p := PadLeft(d, width, '0');
    assert p == p[..|p| - |d|] + d;
    LeadingZeros(p[..|p| - |d|], d);
  }

  /** Batches below 100 all get names of exactly eleven characters. */
  lemma VideoNameLength(batch: nat)
    requires batch < 100
    ensures |VideoName(batch)| == 11
  {
    DecimalLength(batch, 2);
  }

  // ---------------------------------------------------------------------------
  // Image dimensions

  /** `h // 2 * 2`: the largest even number not above `h`. */
  function EvenDown(h: nat): (r: nat)
    ensures r % 2 == 0 && r <= h < r + 2
  {
    h / 2 * 2
  }
}
