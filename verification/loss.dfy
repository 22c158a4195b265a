/**
 The stage loss: the guidance returns named terms, and only those whose name starts
 with `loss_` are weighted by 3e-4, summed and divided by the number of stages. With no
 such term the loss stays the plain number zero, which has no backward pass.
 */
module Loss {
  import opened Results
  import opened Strings
  import Schedule

  /** One entry of the guidance output. */
  datatype Term = Term(name: string, value: real)

  predicate IsLossTerm(t: Term) {
    StartsWith(t.name, "loss_")
  }

  /** The contribution of one entry to the running loss: its value weighted by 3e-4. */
  function Contribution(t: Term): real {
    if IsLossTerm(t) then t.value * 0.0003 else 0.0
  }

  /** The accumulation loop as written: entries are added in order onto `0.`, which is
      what remains when no entry is a loss entry. */
  function Accumulate(terms: seq<Term>): (r: real)
    ensures (forall i :: 0 <= i < |terms| ==> !IsLossTerm(terms[i])) ==> r == 0.0
  {
    if |terms| == 0 then 0.0
    else Accumulate(terms[..|terms| - 1]) + Contribution(terms[|terms| - 1])
  }

  /** The loss entries of `terms`, in order. */
  function LossTerms(terms: seq<Term>): (r: seq<Term>)
    ensures |r| <= |terms|
  {
    if |terms| == 0 then []
    else (if IsLossTerm(terms[0]) then [terms[0]] else []) + LossTerms(terms[1..])
  }

  /** The plain sum of the values of `terms`. */
  function Total(terms: seq<Term>): real {
    if |terms| == 0 then 0.0 else terms[0].value + Total(terms[1..])
  }

  lemma {:induction false} LossTermsAppend(a: seq<Term>, b: seq<Term>)
    ensures LossTerms(a + b) == LossTerms(a) + LossTerms(b)
  {
    if |a| > 0 {
      assert (a + b)[1..] == a[1..] + b;
      LossTermsAppend(a[1..], b);
    } else {
      assert a + b == b;
    }
  }

  lemma {:induction false} TotalAppend(a: seq<Term>, b: seq<Term>)
    ensures Total(a + b) == Total(a) + Total(b)
  {
    if |a| > 0 {
      assert (a + b)[1..] == a[1..] + b;
      TotalAppend(a[1..], b);
    } else {
      assert a + b == b;
    }
  }

  /** The loss entries are exactly the entries named with the `loss_` prefix. */
  lemma {:induction false} LossTermsMembers(terms: seq<Term>)
    ensures forall t :: t in LossTerms(terms) <==> t in terms && IsLossTerm(t)
  {
    if |terms| > 0 {
      LossTermsMembers(terms[1..]);
      assert terms == [terms[0]] + terms[1..];
    }
  }

  /** One more entry adds its contribution to the weighted total of the loss entries. */
  lemma WeightedTotalSnoc(terms: seq<Term>, last: Term)
    ensures 0.0003 * Total(LossTerms(terms + [last])) ==
      0.0003 * Total(LossTerms(terms)) + Contribution(last)
  {
    LossTermsAppend(terms, [last]);
    assert [last][1..] == [];
    var tail := if IsLossTerm(last) then [last] else [];
    assert LossTerms([last]) == tail + LossTerms([]);
    assert tail + [] == tail;
    assert LossTerms(terms + [last]) == LossTerms(terms) + tail;
    TotalAppend(LossTerms(terms), tail);
    if IsLossTerm(last) {
      assert tail[1..] == [];
      assert Total(tail) == last.value;
    }
    assert Total(LossTerms(terms + [last])) == Total(LossTerms(terms)) + Total(tail);
  }

  /** The loop computes the weighted sum of exactly the loss entries. */
  lemma {:induction false} AccumulateIsWeightedTotal(terms: seq<Term>)
    ensures Accumulate(terms) == 0.0003 * Total(LossTerms(terms))
  {
    if |terms| > 0 {
      var n := |terms| - 1;
      AccumulateIsWeightedTotal(terms[..n]);
      WeightedTotalSnoc(terms[..n], terms[n]);
      assert terms == terms[..n] + [terms[n]];
    }
  }

  /** `loss / stage_num` after the loop: the weighted total of the loss entries over the
      stages, zero when there is none. */
  function StageLoss(terms: seq<Term>): (r: real)
    ensures r == 0.0003 * Total(LossTerms(terms)) / Schedule.StageNum as real
    ensures LossTerms(terms) == [] ==> r == 0.0
  {
    AccumulateIsWeightedTotal(terms);
    Accumulate(terms) / Schedule.StageNum as real
  }

  /** `loss.backward()`: only a loss built from at least one entry can be differentiated. */
  function BackwardLoss(terms: seq<Term>): (r: Result<real>)
    ensures r.Err? <==> forall i :: 0 <= i < |terms| ==> !IsLossTerm(terms[i])
    ensures r.Err? ==> r.fault == NoLossTerm
    ensures r.Ok? ==> r.value == StageLoss(terms)
  {
    LossTermsMembers(terms);
    if LossTerms(terms) == [] then
      assert forall i :: 0 <= i < |terms| && IsLossTerm(terms[i]) ==> terms[i] in LossTerms(terms);
      Err(NoLossTerm)
    else
      assert LossTerms(terms)[0] in LossTerms(terms);
      Ok(StageLoss(terms))
  }

  /** An entry without the `loss_` prefix, wherever it sits, leaves the loss unchanged. */
  lemma OtherTermIgnored(a: seq<Term>, t: Term, b: seq<Term>)
    requires !IsLossTerm(t)
    ensures StageLoss(a + [t] + b) == StageLoss(a + b)
  {
    LossTermsAppend(a + [t], b);
    LossTermsAppend(a, [t]);
    LossTermsAppend(a, b);
    assert [t][1..] == [];
    assert LossTerms([t]) == [];
    assert LossTerms(a + [t]) == LossTerms(a);
  }

  /** The loss of two batches of entries is the sum of their losses. */
  lemma StageLossAdditive(a: seq<Term>, b: seq<Term>)
    ensures StageLoss(a + b) == StageLoss(a) + StageLoss(b)
  {
    LossTermsAppend(a, b);
    TotalAppend(LossTerms(a), LossTerms(b));
  }

  /** The order in which the guidance lists its entries does not matter. */
  lemma StageLossSwap(a: seq<Term>, b: seq<Term>)
    ensures StageLoss(a + b) == StageLoss(b + a)
  {
    StageLossAdditive(a, b);
    StageLossAdditive(b, a);
  }

  /** The same loop written imperatively, accumulating entry by entry. */
  method ComputeStageLoss(terms: seq<Term>) returns (loss: real)
    ensures loss == 0.0003 * Total(LossTerms(terms)) / Schedule.StageNum as real
  {
    loss := 0.0;
    var i := 0;
    while i < |terms|
      invariant 0 <= i <= |terms|
      invariant loss == Accumulate(terms[..i])
    {
      assert terms[..i + 1][..i] == terms[..i];
      loss := loss + Contribution(terms[i]);
      i := i + 1;
    }
    assert terms[..i] == terms;
    AccumulateIsWeightedTotal(terms);
    loss := loss / Schedule.StageNum as real;
  }
}
