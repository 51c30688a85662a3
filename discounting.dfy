/** Present values at a spot date: each cashflow's amount times the discount
    factor at its payment time, over the discount factor at the spot time,
    summed front to back as both bootstrappers' objective loops do. */
module Discounting {
  import opened Basics
  import opened Curves

  /** An amount paid at a year fraction from the anchor date (`CashFlow` of the resolver). */
  datatype CashFlow = CashFlow(paymentDateYearFraction: real, amount: real)

  /** One cashflow's value at the spot date: its amount times its discount factor over the spot date's. */
  function Discounted(anchor: Date, cf: CashFlow, curve: Curve, spotDf: PositiveReal, coll: Collaborators): real {
    cf.amount * coll.DiscountFactor(anchor, curve, cf.paymentDateYearFraction) / spotDf
  }

  /** The value at the spot date of cashflows, accumulated front to back. */
  function SpotValue(anchor: Date, cfs: seq<CashFlow>, curve: Curve, spotDf: PositiveReal, coll: Collaborators): real
    decreases |cfs|
  {
    if cfs == [] then 0.0
    else SpotValue(anchor, cfs[..|cfs| - 1], curve, spotDf, coll) + Discounted(anchor, cfs[|cfs| - 1], curve, spotDf, coll)
  }

  /** The spot value of a concatenation is the sum of the spot values. */
  lemma {:induction false} SpotValueAppend(anchor: Date, a: seq<CashFlow>, b: seq<CashFlow>, curve: Curve, spotDf: PositiveReal, coll: Collaborators)
    ensures SpotValue(anchor, a + b, curve, spotDf, coll)
         == SpotValue(anchor, a, curve, spotDf, coll) + SpotValue(anchor, b, curve, spotDf, coll)
    decreases |b|
  {
    if b == [] {
      assert a + b == a;
    } else {
      var b' := b[..|b| - 1];
      assert (a + b)[..|a + b| - 1] == a + b';
      SpotValueAppend(anchor, a, b', curve, spotDf, coll);
    }
  }

  lemma MultisetRemove<T>(a: seq<T>, x: T, b1: seq<T>, b2: seq<T>)
    requires multiset(a + [x]) == multiset(b1 + [x] + b2)
    ensures multiset(a) == multiset(b1 + b2)
  {
    calc {
      multiset(a) + multiset{x};
      multiset(a + [x]);
      multiset(b1 + [x] + b2);
      multiset(b1 + [x]) + multiset(b2);
      multiset(b1) + multiset{x} + multiset(b2);
      multiset(b1 + b2) + multiset{x};
    }
    assert multiset(a) == multiset(a) + multiset{x} - multiset{x};
    assert multiset(b1 + b2) == multiset(b1 + b2) + multiset{x} - multiset{x};
  }

  /** The spot value does not depend on the order of the cashflows, so the
      coarse cashflow sort cannot change a calibration. */
  lemma {:induction false} SpotValuePermutation(anchor: Date, a: seq<CashFlow>, b: seq<CashFlow>, curve: Curve, spotDf: PositiveReal, coll: Collaborators)
    requires multiset(a) == multiset(b)
    ensures SpotValue(anchor, a, curve, spotDf, coll) == SpotValue(anchor, b, curve, spotDf, coll)
    decreases |a|
  {
    if a == [] {
      assert |b| == |multiset(b)| == 0;
    } else {
      var x := a[|a| - 1];
      var a' := a[..|a| - 1];
      assert a == a' + [x];
      assert x in multiset(b);
      var k :| 0 <= k < |b| && b[k] == x;
      var b1, b2 := b[..k], b[k + 1..];
      assert b == b1 + [x] + b2;
      MultisetRemove(a', x, b1, b2);
      SpotValuePermutation(anchor, a', b1 + b2, curve, spotDf, coll);
      SpotValueAppend(anchor, b1, b2, curve, spotDf, coll);
      SpotValueAppend(anchor, b1 + [x], b2, curve, spotDf, coll);
      assert (b1 + [x])[..|b1|] == b1;
    }
  }
}
