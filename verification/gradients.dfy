/**
 The calibration update's bookkeeping: each material field's gradient is
 min-max rescaled into [-0.5, 0.5] (all zeros when its range is degenerate)
 and handed, with fixed per-field arguments, to the solver's update kernel.
 */
module Gradients {
  import opened Results

  function Min(s: seq<real>): (m: real)
    requires |s| > 0
    ensures m in s
    ensures forall i :: 0 <= i < |s| ==> m <= s[i]
    decreases |s|
  {
    if |s| == 1 then s[0]
    else
      var n := |s| - 1;
      var r := Min(s[..n]);
      assert s == s[..n] + [s[n]];
      if s[n] < r then s[n] else r
  }

  function Max(s: seq<real>): (m: real)
    requires |s| > 0
    ensures m in s
    ensures forall i :: 0 <= i < |s| ==> s[i] <= m
    decreases |s|
  {
    if |s| == 1 then s[0]
    else
      var n := |s| - 1;
      var r := Max(s[..n]);
      assert s == s[..n] + [s[n]];
      if s[n] > r then s[n] else r
  }

  /** A member that is below or equal to every element is the minimum. */
  lemma MinUnique(s: seq<real>, a: int)
    requires 0 <= a < |s| && forall i :: 0 <= i < |s| ==> s[a] <= s[i]
    ensures Min(s) == s[a]
  {
  }

  lemma MaxUnique(s: seq<real>, a: int)
    requires 0 <= a < |s| && forall i :: 0 <= i < |s| ==> s[i] <= s[a]
    ensures Max(s) == s[a]
  {
  }

  /** `(x - lo) / (hi - lo) - 0.5`, the rescaling of one entry. */
  function Unit(x: real, lo: real, hi: real): real
    requires lo < hi
  {
    (x - lo) / (hi - lo) - 0.5
  }

  /** The rescaling of one entry maps `[lo, hi]` into `[-0.5, 0.5]`, its ends onto the ends. */
  lemma UnitRange(x: real, lo: real, hi: real)
    requires lo < hi && lo <= x <= hi
    ensures -0.5 <= Unit(x, lo, hi) <= 0.5
    ensures Unit(lo, lo, hi) == -0.5 && Unit(hi, lo, hi) == 0.5
  {
    var d := hi - lo;
    DivLe(x - lo, d, d);
    DivLe(0.0, x - lo, d);
    DivSelf(d);
  }

  /** The rescaling of one entry preserves the order of entries, strictly and not. */
  lemma UnitMonotone(x: real, y: real, lo: real, hi: real)
    requires lo < hi
    ensures x <= y ==> Unit(x, lo, hi) <= Unit(y, lo, hi)
    ensures x < y ==> Unit(x, lo, hi) < Unit(y, lo, hi)
  {
    if x < y {
      DivLt(x - lo, y - lo, hi - lo);
    }
  }

  lemma DivSelf(d: real)
    requires d > 0.0
    ensures d / d == 1.0
  {
  }

  /** Shifting an entry and both ends by the same offset leaves its rescaling unchanged. */
  lemma UnitShift(x: real, lo: real, hi: real, c: real, x': real, lo': real, hi': real)
    requires lo < hi && x' == x + c && lo' == lo + c && hi' == hi + c
    ensures lo' < hi' && Unit(x', lo', hi') == Unit(x, lo, hi)
  {
    assert x' - lo' == x - lo;
    assert hi' - lo' == hi - lo;
  }

  lemma DivLe(a: real, b: real, d: real)
    requires d > 0.0 && a <= b
    ensures a / d <= b / d
  {
    assert b / d - a / d == (b - a) / d;
  }

  lemma DivLt(a: real, b: real, d: real)
    requires d > 0.0 && a < b
    ensures a / d < b / d
  {
    assert b / d - a / d == (b - a) / d;
  }

  /** The rescaling of one gradient tensor as written: `(g - min) / (max - min) - 0.5` when
      the range is non-zero, `zeros_like(g)` otherwise. */
  function Rescale(g: seq<real>): (r: seq<real>)
    requires |g| > 0
    ensures |r| == |g|
    ensures forall i :: 0 <= i < |g| ==> -0.5 <= r[i] <= 0.5
  {
    var lo := Min(g);
    var hi := Max(g);
    if hi - lo != 0.0 then
      RescaleFacts(g, lo, hi);
      seq(|g|, i requires 0 <= i < |g| => Unit(g[i], lo, hi))
    else
      seq(|g|, i => 0.0)
  }

  /** One entry of the rescaled tensor. */
  lemma RescaleAt(g: seq<real>, i: int)
    requires 0 <= i < |g|
    ensures Min(g) < Max(g) ==> Rescale(g)[i] == Unit(g[i], Min(g), Max(g))
    ensures Min(g) == Max(g) ==> Rescale(g)[i] == 0.0
  {
  }

  /** The rescaling preserves the order of the entries; a non-degenerate range sends its
      minimum to -0.5, its maximum to 0.5 and keeps strict order, a degenerate one gives
      all zeros. */
  lemma RescaleOrder(g: seq<real>)
    requires |g| > 0
    ensures forall i, j :: 0 <= i < |g| && 0 <= j < |g| && g[i] <= g[j] ==> Rescale(g)[i] <= Rescale(g)[j]
    ensures Max(g) == Min(g) ==> forall i :: 0 <= i < |g| ==> Rescale(g)[i] == 0.0
    ensures Max(g) != Min(g) ==> forall i :: 0 <= i < |g| ==>
      && (g[i] == Min(g) ==> Rescale(g)[i] == -0.5)
      && (g[i] == Max(g) ==> Rescale(g)[i] == 0.5)
      && (forall j :: 0 <= j < |g| && g[i] < g[j] ==> Rescale(g)[i] < Rescale(g)[j])
  {
    if Max(g) != Min(g) {
      RescaleFacts(g, Min(g), Max(g));
    }
  }

  lemma RescaleFacts(g: seq<real>, lo: real, hi: real)
    requires |g| > 0 && lo == Min(g) && hi == Max(g) && lo != hi
    ensures forall i, j :: 0 <= i < |g| && 0 <= j < |g| ==>
      && -0.5 <= Unit(g[i], lo, hi) <= 0.5
      && (g[i] <= g[j] ==> Unit(g[i], lo, hi) <= Unit(g[j], lo, hi))
      && (g[i] < g[j] ==> Unit(g[i], lo, hi) < Unit(g[j], lo, hi))
      && (g[i] == lo ==> Unit(g[i], lo, hi) == -0.5)
      && (g[i] == hi ==> Unit(g[i], lo, hi) == 0.5)
  {
    forall i, j | 0 <= i < |g| && 0 <= j < |g|
      ensures -0.5 <= Unit(g[i], lo, hi) <= 0.5
      ensures g[i] <= g[j] ==> Unit(g[i], lo, hi) <= Unit(g[j], lo, hi)
      ensures g[i] < g[j] ==> Unit(g[i], lo, hi) < Unit(g[j], lo, hi)
      ensures g[i] == lo ==> Unit(g[i], lo, hi) == -0.5
      ensures g[i] == hi ==> Unit(g[i], lo, hi) == 0.5
    {
      UnitRange(g[i], lo, hi);
      UnitMonotone(g[i], g[j], lo, hi);
    }
  }

  /** A degenerate range means a constant tensor, and the other way round. */
  lemma DegenerateIffConstant(g: seq<real>)
    requires |g| > 0
    ensures Max(g) == Min(g) <==> forall i, j :: 0 <= i < |g| && 0 <= j < |g| ==> g[i] == g[j]
  {
    if forall i, j :: 0 <= i < |g| && 0 <= j < |g| ==> g[i] == g[j] {
      var a :| 0 <= a < |g| && g[a] == Min(g);
      var b :| 0 <= b < |g| && g[b] == Max(g);
      assert g[a] == g[b];
    }
  }

  /** Adds `c` to every entry. */
  function Shift(g: seq<real>, c: real): (r: seq<real>)
    ensures |r| == |g| && forall i :: 0 <= i < |g| ==> r[i] == g[i] + c
  {
    seq(|g|, i requires 0 <= i < |g| => g[i] + c)
  }

  /** Shifting moves the minimum and the maximum by the same offset. */
  lemma ShiftBounds(g: seq<real>, c: real)
    requires |g| > 0
    ensures Min(Shift(g, c)) == Min(g) + c && Max(Shift(g, c)) == Max(g) + c
  {
    var s := Shift(g, c);
    var a :| 0 <= a < |g| && g[a] == Min(g);
    var b :| 0 <= b < |g| && g[b] == Max(g);
    forall i | 0 <= i < |s|
      ensures s[a] <= s[i] <= s[b]
    {
      assert i < |g|;
      assert Min(g) <= g[i] <= Max(g);
    }
    MinUnique(s, a);
    MaxUnique(s, b);
  }

  lemma ShiftAt(g: seq<real>, s: seq<real>, c: real, i: int)
    requires 0 <= i < |g| == |s| && s[i] == g[i] + c
    requires Min(s) == Min(g) + c && Max(s) == Max(g) + c
    ensures Rescale(s)[i] == Rescale(g)[i]
  {
    RescaleAt(g, i);
    RescaleAt(s, i);
    if Min(g) < Max(g) {
      UnitShift(g[i], Min(g), Max(g), c, s[i], Min(s), Max(s));
    }
  }

  /** The rescaled gradient does not depend on a constant offset of the raw gradient. */
  lemma RescaleShiftInvariant(g: seq<real>, c: real)
    requires |g| > 0
    ensures Rescale(Shift(g, c)) == Rescale(g)
  {
    var s := Shift(g, c);
    ShiftBounds(g, c);
    forall i | 0 <= i < |g|
      ensures Rescale(s)[i] == Rescale(g)[i]
    {
      ShiftAt(g, s, c, i);
    }
  }

  /** Rescaling an already rescaled gradient changes nothing. */
  lemma RescaleIdempotent(g: seq<real>)
    requires |g| > 0
    ensures Rescale(Rescale(g)) == Rescale(g)
  {
    var r := Rescale(g);
    var a :| 0 <= a < |g| && g[a] == Min(g);
    var b :| 0 <= b < |g| && g[b] == Max(g);
    RescaleOrder(g);
    forall i | 0 <= i < |r|
      ensures r[a] <= r[i] <= r[b]
    {
      assert i < |g|;
      assert Min(g) <= g[i] <= Max(g);
    }
    MinUnique(r, a);
    MaxUnique(r, b);
    forall i | 0 <= i < |g|
      ensures Rescale(r)[i] == r[i]
    {
      RescaleAt(r, i);
      if Min(g) < Max(g) {
        assert Min(r) == -0.5 && Max(r) == 0.5;
        assert Unit(r[i], -0.5, 0.5) == r[i];
      }
    }
  }

  /** A gradient tensor's rescaling; the reduction over an empty tensor fails. */
  function Normalize(g: seq<real>): (r: Result<seq<real>>)
    ensures r.Err? <==> |g| == 0
    ensures r.Err? ==> r.fault == EmptyReduction
    ensures r.Ok? ==> |r.value| == |g| && forall i :: 0 <= i < |g| ==> -0.5 <= r.value[i] <= 0.5
  {
    if |g| == 0 then Err(EmptyReduction) else Ok(Rescale(g))
  }

  // ---------------------------------------------------------------------------
  // Per-field update launches

  /** The calibrated material fields: Young's modulus and the two plasticity moduli and
      the viscosity of the solver's model. */
  datatype Field = E | MuN | LamN | Viscosity

  /** The gradients read back from the solver after the backward pass. */
  datatype Grads = Grads(e: seq<real>, muN: seq<real>, lamN: seq<real>, viscosity: seq<real>) {
    function Of(f: Field): seq<real> {
      match f
      case E => e
      case MuN => muN
      case LamN => lamN
      case Viscosity => viscosity
    }
  }

  /** One launch of the update kernel, whose semantics are not part of this model. */
  datatype Launch = Launch(field: Field, grad: seq<real>, a: real, b: real)

  const FieldOrder: seq<Field> := [E, MuN, LamN, Viscosity]

  /** The two scalar arguments each field's update launch is given. */
  function UpdateArgs(f: Field): (real, real) {
    match f
    case E => (1.0, -0.4)
    case MuN => (1.0, 1.0)
    case LamN => (1.0, 1.0)
    case Viscosity => (1.0, 2.0)
  }

  /** The launch for one field, carrying that field's rescaled gradient and arguments. */
  function LaunchFor(g: Grads, f: Field): (r: Result<Launch>)
    ensures r.Err? <==> |g.Of(f)| == 0
    ensures r.Ok? ==> ValidLaunch(g, f, r.value)
  {
    var n :- Normalize(g.Of(f));
    Ok(Launch(f, n, UpdateArgs(f).0, UpdateArgs(f).1))
  }

  /** `l` updates field `f` with that field's own gradient, rescaled, and its arguments. */
  predicate ValidLaunch(g: Grads, f: Field, l: Launch) {
    && l.field == f
    && (l.a, l.b) == UpdateArgs(f)
    && |g.Of(f)| > 0
    && l.grad == Rescale(g.Of(f))
    && |l.grad| == |g.Of(f)|
    && forall i :: 0 <= i < |l.grad| ==> -0.5 <= l.grad[i] <= 0.5
  }

  /** The four update launches of one calibration step, in the order `simulation.py`
      issues them; the step fails when any of the four gradients is empty. */
  function UpdateLaunches(g: Grads): (r: Result<seq<Launch>>)
    ensures r.Err? <==> |g.e| == 0 || |g.muN| == 0 || |g.lamN| == 0 || |g.viscosity| == 0
    ensures r.Ok? ==> |r.value| == |FieldOrder| && forall k :: 0 <= k < |FieldOrder| ==>
      ValidLaunch(g, FieldOrder[k], r.value[k])
  {
    var e :- LaunchFor(g, E);
    var mu :- LaunchFor(g, MuN);
    var lam :- LaunchFor(g, LamN);
    var visc :- LaunchFor(g, Viscosity);
    Ok([e, mu, lam, visc])
  }
}
