/**
 The tensor indexing the pipeline applies to its parallel particle arrays:
 boolean-mask selection `x[mask]` (which keeps the elements whose mask bit is
 set, in their original order), prefix slicing `x[:k]` and row-wise maps.
 */
module Arrays {

  /** Python prefix slicing `xs[:k]` for `k >= 0`: a bound past the end is clamped. */
  function Take<T>(xs: seq<T>, k: nat): (r: seq<T>)
    ensures |r| == if k <= |xs| then k else |xs|
    ensures r <= xs
  {
    if k <= |xs| then xs[..k] else xs
  }

  /** Applies `f` to every row. */
  function Map<T, U>(f: T -> U, xs: seq<T>): (r: seq<U>)
    ensures |r| == |xs|
    ensures forall i :: 0 <= i < |xs| ==> r[i] == f(xs[i])
  {
    seq(|xs|, i requires 0 <= i < |xs| => f(xs[i]))
  }

  /** Elementwise negation, the `~mask` of `simulation.py`. */
  function Not(m: seq<bool>): (r: seq<bool>)
    ensures |r| == |m|
    ensures forall i :: 0 <= i < |m| ==> r[i] == !m[i]
  {
    seq(|m|, i requires 0 <= i < |m| => !m[i])
  }

  /** The elements of `xs` whose mask bit is set, in order. */
  function Select<T>(xs: seq<T>, m: seq<bool>): (r: seq<T>)
    requires |xs| == |m|
    ensures |r| <= |xs|
    ensures forall x :: x in r ==> x in xs
    decreases |xs|
  {
    if |xs| == 0 then []
    else
      var n := |xs| - 1;
      Select(xs[..n], m[..n]) + (if m[n] then [xs[n]] else [])
  }

  /** The indices whose mask bit is set, in increasing order. */
  function Positions(m: seq<bool>): (p: seq<nat>)
    ensures |p| <= |m|
    ensures forall k :: 0 <= k < |p| ==> p[k] < |m| && m[p[k]]
    ensures forall k, l :: 0 <= k < l < |p| ==> p[k] < p[l]
    decreases |m|
  {
    if |m| == 0 then []
    else
      var n := |m| - 1;
      Positions(m[..n]) + (if m[n] then [n] else [])
  }

  /** Interleaves `a` (at set bits) and `b` (at clear bits) back into one sequence. */
  function Merge<T>(a: seq<T>, b: seq<T>, m: seq<bool>): (r: seq<T>)
    requires |a| == |Positions(m)| && |a| + |b| == |m|
    ensures |r| == |m|
    ensures forall x :: x in r ==> x in a || x in b
    decreases |m|
  {
    if |m| == 0 then []
    else
      var n := |m| - 1;
      if m[n] then Merge(a[..|a| - 1], b, m[..n]) + [a[|a| - 1]]
      else Merge(a, b[..|b| - 1], m[..n]) + [b[|b| - 1]]
  }

  /** Selection picks exactly the elements at `Positions(m)`: it is order-preserving and
      the same mask picks the same indices from every array it is applied to. */
  lemma {:induction false} SelectAt<T>(xs: seq<T>, m: seq<bool>)
    requires |xs| == |m|
    ensures |Select(xs, m)| == |Positions(m)|
    ensures forall k :: 0 <= k < |Positions(m)| ==> Select(xs, m)[k] == xs[Positions(m)[k]]
    decreases |xs|
  {
    if |xs| > 0 {
      var n := |xs| - 1;
      SelectAt(xs[..n], m[..n]);
    }
  }

  /** An element is selected iff it sits at an index whose mask bit is set. */
  lemma SelectMembership<T>(xs: seq<T>, m: seq<bool>, x: T)
    requires |xs| == |m|
    ensures x in Select(xs, m) <==> exists i :: 0 <= i < |xs| && m[i] && xs[i] == x
  {
    SelectAt(xs, m);
    var p := Positions(m);
    if x in Select(xs, m) {
      var k :| 0 <= k < |Select(xs, m)| && Select(xs, m)[k] == x;
      assert m[p[k]] && xs[p[k]] == x;
    }
    if i :| 0 <= i < |xs| && m[i] && xs[i] == x {
      PositionsComplete(m, i);
      var k :| 0 <= k < |p| && p[k] == i;
      assert Select(xs, m)[k] == x;
    }
  }

  /** `c` is the elementwise complement of `m`. */
  predicate Complementary(m: seq<bool>, c: seq<bool>) {
    |m| == |c| && forall i :: 0 <= i < |m| ==> c[i] == !m[i]
  }

  lemma NotComplementary(m: seq<bool>)
    ensures Complementary(m, Not(m))
  {
  }

  /** A mask and its complement split a sequence into two parts whose lengths add up. */
  lemma {:induction false} PartitionLength<T>(xs: seq<T>, m: seq<bool>, c: seq<bool>)
    requires |xs| == |m| && Complementary(m, c)
    ensures |Select(xs, m)| + |Select(xs, c)| == |xs|
    ensures |Positions(m)| + |Positions(c)| == |m|
    decreases |xs|
  {
    if |xs| > 0 {
      var n := |xs| - 1;
      PartitionLength(xs[..n], m[..n], c[..n]);
    }
  }

  /** The split is complementary: merging the two parts along the mask rebuilds the input. */
  lemma {:induction false} MergeSplit<T>(xs: seq<T>, m: seq<bool>, c: seq<bool>)
    requires |xs| == |m| && Complementary(m, c)
    ensures |Select(xs, m)| == |Positions(m)|
    ensures |Select(xs, m)| + |Select(xs, c)| == |m|
    ensures Merge(Select(xs, m), Select(xs, c), m) == xs
    decreases |xs|
  {
    SelectLength(xs, m);
    PartitionLength(xs, m, c);
    if |xs| > 0 {
      var n := |xs| - 1;
      MergeSplit(xs[..n], m[..n], c[..n]);
      MergeSplitLast(xs, m, c);
    }
  }

  /** The number of selected elements is the number of set bits. */
  lemma {:induction false} SelectLength<T>(xs: seq<T>, m: seq<bool>)
    requires |xs| == |m|
    ensures |Select(xs, m)| == |Positions(m)|
    decreases |xs|
  {
    if |xs| > 0 {
      SelectLength(xs[..|xs| - 1], m[..|xs| - 1]);
    }
  }

  /** The inductive step of `MergeSplit`: one more element at the end. */
  lemma MergeSplitLast<T>(xs: seq<T>, m: seq<bool>, c: seq<bool>)
    requires |xs| == |m| > 0 && Complementary(m, c)
    requires |Select(xs, m)| == |Positions(m)| && |Select(xs, m)| + |Select(xs, c)| == |m|
    requires
      var n := |xs| - 1;
      && |Select(xs[..n], m[..n])| == |Positions(m[..n])|
      && |Select(xs[..n], m[..n])| + |Select(xs[..n], c[..n])| == n
      && Merge(Select(xs[..n], m[..n]), Select(xs[..n], c[..n]), m[..n]) == xs[..n]
    ensures Merge(Select(xs, m), Select(xs, c), m) == xs
  {
    var n := |xs| - 1;
    var a := Select(xs[..n], m[..n]);
    var b := Select(xs[..n], c[..n]);
    if m[n] {
      MergeLastSet(a, b, m, xs[n]);
      assert Select(xs, m) == a + [xs[n]];
      assert Select(xs, c) == b;
    } else {
      MergeLastClear(a, b, m, xs[n]);
      assert Select(xs, m) == a;
      assert Select(xs, c) == b + [xs[n]];
    }
    assert xs == xs[..n] + [xs[n]];
  }

  lemma MergeLastSet<T>(a: seq<T>, b: seq<T>, m: seq<bool>, x: T)
    requires |m| > 0 && m[|m| - 1]
    requires |a| == |Positions(m[..|m| - 1])| && |a| + |b| == |m| - 1
    ensures |a + [x]| == |Positions(m)|
    ensures Merge(a + [x], b, m) == Merge(a, b, m[..|m| - 1]) + [x]
  {
    assert (a + [x])[..|a|] == a;
  }

  lemma MergeLastClear<T>(a: seq<T>, b: seq<T>, m: seq<bool>, x: T)
    requires |m| > 0 && !m[|m| - 1]
    requires |a| == |Positions(m[..|m| - 1])| && |a| + |b| == |m| - 1
    ensures |a| == |Positions(m)|
    ensures Merge(a, b + [x], m) == Merge(a, b, m[..|m| - 1]) + [x]
  {
    assert (b + [x])[..|b|] == b;
  }

  /** Every index whose mask bit is set appears among the positions. */
  lemma {:induction false} PositionsComplete(m: seq<bool>, i: nat)
    requires i < |m| && m[i]
    ensures i in Positions(m)
    decreases |m|
  {
    var n := |m| - 1;
    if i < n {
      PositionsComplete(m[..n], i);
    }
  }

  /** Selecting from a mapped sequence is mapping the selection. */
  lemma {:induction false} SelectMap<T, U>(f: T -> U, xs: seq<T>, m: seq<bool>)
    requires |xs| == |m|
    ensures Select(Map(f, xs), m) == Map(f, Select(xs, m))
    decreases |xs|
  {
    if |xs| > 0 {
      var n := |xs| - 1;
      assert Map(f, xs)[..n] == Map(f, xs[..n]);
      SelectMap(f, xs[..n], m[..n]);
    }
  }

  /** Every selected element satisfies whatever every masked-in element satisfies. */
  lemma SelectedSatisfy<T>(xs: seq<T>, m: seq<bool>, P: T -> bool)
    requires |xs| == |m|
    requires forall i :: 0 <= i < |xs| && m[i] ==> P(xs[i])
    ensures forall x :: x in Select(xs, m) ==> x in xs && P(x)
  {
    forall x | x in Select(xs, m)
      ensures x in xs && P(x)
    {
      SelectMembership(xs, m, x);
    }
  }
}
