/** `CfetsForwardIborAveragedRateComputationFn`: the rate of an averaged Ibor
    computation under the CFETS convention, which compounds the weighted
    fixings instead of averaging them, and its sensitivity to the forecast
    curve. */
module AveragedRate {
  import opened Basics

  /** `IborIndexObservation`, identified by the fixing date. */
  datatype Observation = Observation(index: string, fixingDate: Date)

  /** `IborAveragedFixing`: the observation, the fixed rate if already known, and the weight. */
  datatype Fixing = Fixing(observation: Observation, fixedRate: Option<real>, weight: real)

  /** `IborAveragedRateComputation`. */
  datatype Computation = Computation(index: string, fixings: seq<Fixing>, totalWeight: real)

  /** A point sensitivity to the forecast rate of one observation. */
  datatype PointSensitivity = PointSensitivity(observation: Observation, sensitivity: real)

  /** `IborIndexRates`: the forecast rate of an observation and its point sensitivity. */
  datatype IndexRates = IndexRates(rate: Observation -> real, pointSensitivity: Observation -> seq<PointSensitivity>)

  // ------------------------------------------------------------- the rate

  /** The rate of one fixing: the fixed rate if there is one, else the forecast. */
  function FixingRate(fixing: Fixing, rates: IndexRates): real {
    fixing.fixedRate.GetOr(rates.rate(fixing.observation))
  }

  /** `futureValue`: the growth factor of one fixing. */
  function FutureValue(fixing: Fixing, rates: IndexRates): real {
    1.0 + FixingRate(fixing, rates) * fixing.weight
  }

  /** The reduce of `rate`: the growth factors multiplied left to right, from 1. */
  function Growth(fixings: seq<Fixing>, rates: IndexRates): real
    decreases |fixings|
  {
    if fixings == [] then 1.0
    else Growth(fixings[..|fixings| - 1], rates) * FutureValue(fixings[|fixings| - 1], rates)
  }

  /** `rate`: the compounded growth less one, over the total weight; `None`
      when the total weight is zero (where Java's double division gives an
      infinity or NaN). */
  function Rate(computation: Computation, rates: IndexRates): (r: Option<real>)
    ensures r.Some? <==> computation.totalWeight != 0.0
  {
    if computation.totalWeight == 0.0 then None
    else Some((Growth(computation.fixings, rates) - 1.0) / computation.totalWeight)
  }

  /** Without fixings the rate is zero. */
  lemma RateOfNoFixings(computation: Computation, rates: IndexRates)
    requires computation.fixings == [] && computation.totalWeight != 0.0
    ensures Rate(computation, rates) == Some(0.0)
  {
  }

  /** A single fixing carrying the total weight gives back its own rate, the
      fixed rate taking precedence over the forecast. */
  lemma RateOfOneFixing(computation: Computation, rates: IndexRates)
    requires |computation.fixings| == 1 && computation.fixings[0].weight == computation.totalWeight != 0.0
    ensures computation.fixings[0].fixedRate.Some? ==> Rate(computation, rates) == Some(computation.fixings[0].fixedRate.value)
    ensures computation.fixings[0].fixedRate.None? ==> Rate(computation, rates) == Some(rates.rate(computation.fixings[0].observation))
  {
    var f := computation.fixings[0];
    var w := computation.totalWeight;
    assert computation.fixings[..0] == [];
    assert Growth(computation.fixings, rates) == 1.0 + FixingRate(f, rates) * w;
    assert (FixingRate(f, rates) * w) / w == FixingRate(f, rates);
  }

  /** When every fixing is fixed, the forecasts do not matter. */
  lemma {:induction false} GrowthOfFixedRates(fixings: seq<Fixing>, rates1: IndexRates, rates2: IndexRates)
    requires forall j :: 0 <= j < |fixings| ==> fixings[j].fixedRate.Some?
    ensures Growth(fixings, rates1) == Growth(fixings, rates2)
    decreases |fixings|
  {
    if fixings != [] {
      var n := |fixings| - 1;
      GrowthOfFixedRates(fixings[..n], rates1, rates2);
      assert FutureValue(fixings[n], rates1) == FutureValue(fixings[n], rates2);
    }
  }

  /** The rate of a computation whose fixings are all fixed is independent of the forecast rates. */
  lemma RateOfFixedRates(computation: Computation, rates1: IndexRates, rates2: IndexRates)
    requires forall j :: 0 <= j < |computation.fixings| ==> computation.fixings[j].fixedRate.Some?
    ensures Rate(computation, rates1) == Rate(computation, rates2)
  {
    GrowthOfFixedRates(computation.fixings, rates1, rates2);
  }

  /** A left fold of a real accumulator over a sequence, from the back. */
  function FoldLeft<T>(seed: real, xs: seq<T>, op: (real, T) -> real): real
    decreases |xs|
  {
    if xs == [] then seed else op(FoldLeft(seed, xs[..|xs| - 1], op), xs[|xs| - 1])
  }

  /** Applying two elements to an accumulator in either order gives the same value. */
  ghost predicate RightCommutative<T(!new)>(op: (real, T) -> real) {
    forall a, x, y :: op(op(a, x), y) == op(op(a, y), x)
  }

  /** Taking one element out of a right-commutative fold and applying it last. */
  lemma {:induction false} FoldRemove<T(!new)>(seed: real, xs: seq<T>, k: nat, op: (real, T) -> real)
    requires k < |xs| && RightCommutative(op)
    ensures FoldLeft(seed, xs, op) == op(FoldLeft(seed, xs[..k] + xs[k + 1..], op), xs[k])
    decreases |xs|
  {
    var n := |xs| - 1;
    if k == n {
      assert xs[..k] + xs[k + 1..] == xs[..n];
    } else {
      var init := xs[..n];
      var rest := xs[..k] + xs[k + 1..];
      FoldRemove(seed, init, k, op);
      assert init[..k] + init[k + 1..] == rest[..|rest| - 1];
      assert rest[|rest| - 1] == xs[n];
      assert init[k] == xs[k];
    }
  }

  /** A right-commutative fold does not depend on the order of the elements. */
  lemma {:induction false} FoldPermutation<T(!new)>(seed: real, a: seq<T>, b: seq<T>, op: (real, T) -> real)
    requires multiset(a) == multiset(b) && RightCommutative(op)
    ensures FoldLeft(seed, a, op) == FoldLeft(seed, b, op)
    decreases |a|
  {
    if a == [] {
      assert |b| == |multiset(b)| == 0;
    } else {
      var n := |a| - 1;
      var x := a[n];
      assert a == a[..n] + [x];
      assert x in multiset(b);
      var k :| 0 <= k < |b| && b[k] == x;
      var rest := b[..k] + b[k + 1..];
      assert b == b[..k] + [x] + b[k + 1..];
      assert multiset(b) == multiset(b[..k]) + multiset([x]) + multiset(b[k + 1..]);
      assert multiset(rest) == multiset(b[..k]) + multiset(b[k + 1..]);
      assert multiset(a) == multiset(a[..n]) + multiset([x]);
      assert multiset(a[..n]) == multiset(a) - multiset([x]);
      assert multiset(rest) == multiset(b) - multiset([x]);
      FoldPermutation(seed, a[..n], rest, op);
      FoldRemove(seed, b, k, op);
    }
  }

  /** One step of `rate`'s reduce: multiply by the fixing's growth factor. */
  function GrowthStep(rates: IndexRates): (real, Fixing) -> real {
    (g: real, fixing: Fixing) => g * FutureValue(fixing, rates)
  }

  /** The growth is the reduce of `GrowthStep` from one. */
  lemma {:induction false} GrowthIsFold(fixings: seq<Fixing>, rates: IndexRates)
    ensures Growth(fixings, rates) == FoldLeft(1.0, fixings, GrowthStep(rates))
    decreases |fixings|
  {
    if fixings != [] {
      GrowthIsFold(fixings[..|fixings| - 1], rates);
    }
  }

  /** Multiplication by growth factors commutes. */
  lemma GrowthStepCommutes(rates: IndexRates)
    ensures RightCommutative(GrowthStep(rates))
  {
    var op := GrowthStep(rates);
    forall g: real, x: Fixing, y: Fixing ensures op(op(g, x), y) == op(op(g, y), x) {
      var fx := FutureValue(x, rates);
      var fy := FutureValue(y, rates);
      assert (g * fx) * fy == (g * fy) * fx;
    }
  }

  /** The product does not depend on the order of the fixings. */
  lemma GrowthPermutation(a: seq<Fixing>, b: seq<Fixing>, rates: IndexRates)
    requires multiset(a) == multiset(b)
    ensures Growth(a, rates) == Growth(b, rates)
  {
    GrowthIsFold(a, rates);
    GrowthIsFold(b, rates);
    GrowthStepCommutes(rates);
    FoldPermutation(1.0, a, b, GrowthStep(rates));
  }

  /** The rate does not depend on the order of the fixings. */
  lemma RatePermutation(c1: Computation, c2: Computation, rates: IndexRates)
    requires multiset(c1.fixings) == multiset(c2.fixings) && c1.totalWeight == c2.totalWeight
    ensures Rate(c1, rates) == Rate(c2, rates)
  {
    GrowthPermutation(c1.fixings, c2.fixings, rates);
  }

  /** One entry of the explain map: the observation explained and its weight. */
  datatype Explained = Explained(observation: Observation, weight: real)

  /** `explainRate`: one explain entry per fixing, in order, then the rate
      itself, which is returned. */
  method ExplainRate(computation: Computation, rates: IndexRates) returns (r: Option<real>, explained: seq<Explained>)
    ensures r == Rate(computation, rates)
    ensures |explained| == |computation.fixings|
    ensures forall j :: 0 <= j < |explained| ==>
      explained[j] == Explained(computation.fixings[j].observation, computation.fixings[j].weight)
  {
    explained := [];
    for j := 0 to |computation.fixings|
      invariant |explained| == j
      invariant forall k :: 0 <= k < j ==>
        explained[k] == Explained(computation.fixings[k].observation, computation.fixings[k].weight)
    {
      var fixing := computation.fixings[j];
      explained := explained + [Explained(fixing.observation, fixing.weight)];
    }
    r := Rate(computation, rates);
  }

  /** The weighted sum of the fixings' rates, what a weighted average would divide. */
  function WeightedSum(fixings: seq<Fixing>, rates: IndexRates): real
    decreases |fixings|
  {
    if fixings == [] then 0.0
    else WeightedSum(fixings[..|fixings| - 1], rates) + FixingRate(fixings[|fixings| - 1], rates) * fixings[|fixings| - 1].weight
  }

  /** Multiplying by a non-negative factor keeps an inequality. */
  lemma ScaleAtLeast(a: real, b: real, c: real)
    requires a >= b && c >= 0.0
    ensures a * c >= b * c
  {
    assert a * c - b * c == (a - b) * c;
  }

  /** With non-negative weighted rates, compounding gives at least the
      weighted sum: the growth exceeds one by at least that sum. */
  lemma {:induction false} GrowthAtLeastWeightedSum(fixings: seq<Fixing>, rates: IndexRates)
    requires forall j :: 0 <= j < |fixings| ==> FixingRate(fixings[j], rates) * fixings[j].weight >= 0.0
    ensures Growth(fixings, rates) >= 1.0 + WeightedSum(fixings, rates)
    ensures WeightedSum(fixings, rates) >= 0.0
    decreases |fixings|
  {
    if fixings != [] {
      var n := |fixings| - 1;
      var init := fixings[..n];
      forall j | 0 <= j < |init| ensures FixingRate(init[j], rates) * init[j].weight >= 0.0 {
        assert init[j] == fixings[j];
      }
      GrowthAtLeastWeightedSum(init, rates);
      var g := Growth(init, rates);
      var s := WeightedSum(init, rates);
      var x := FixingRate(fixings[n], rates) * fixings[n].weight;
      assert x >= 0.0;
      ScaleAtLeast(g, 1.0 + s, 1.0 + x);
      assert g * (1.0 + x) >= (1.0 + s) * (1.0 + x);
      assert (1.0 + s) * (1.0 + x) == 1.0 + s + x + s * x;
      assert s * x >= 0.0;
    }
  }

  /** With non-negative weighted rates and a positive total weight, the
      compounded rate is at least the weighted average rate. */
  lemma RateAtLeastWeightedAverage(computation: Computation, rates: IndexRates)
    requires computation.totalWeight > 0.0
    requires forall j :: 0 <= j < |computation.fixings| ==>
      FixingRate(computation.fixings[j], rates) * computation.fixings[j].weight >= 0.0
    ensures Rate(computation, rates).Some?
    ensures Rate(computation, rates).value >= WeightedSum(computation.fixings, rates) / computation.totalWeight
  {
    GrowthAtLeastWeightedSum(computation.fixings, rates);
    var g := Growth(computation.fixings, rates);
    var s := WeightedSum(computation.fixings, rates);
    var w := computation.totalWeight;
    assert g - 1.0 >= s;
    assert (g - 1.0) / w >= s / w;
  }

  // ------------------------------------------------------------- the sensitivity

  /** `multipliedBy(factor)`. */
  function Scaled(s: seq<PointSensitivity>, factor: real): (r: seq<PointSensitivity>)
    ensures |r| == |s| && forall i :: 0 <= i < |s| ==> r[i] == PointSensitivity(s[i].observation, s[i].sensitivity * factor)
  {
    seq(|s|, i requires 0 <= i < |s| => PointSensitivity(s[i].observation, s[i].sensitivity * factor))
  }

  /** A fixing whose rate is not fixed yet. */
  predicate Unfixed(fixing: Fixing) {
    fixing.fixedRate.None?
  }

  /** The reduce of `rateSensitivity` with `combinedWith`: each fixing's
      point sensitivity scaled by its share of the total weight, in order. */
  function Combined(fixings: seq<Fixing>, rates: IndexRates, totalWeight: real): seq<PointSensitivity>
    requires totalWeight != 0.0
    decreases |fixings|
  {
    if fixings == [] then []
    else
      var last := fixings[|fixings| - 1];
      Combined(fixings[..|fixings| - 1], rates, totalWeight) + Scaled(rates.pointSensitivity(last.observation), last.weight / totalWeight)
  }

  /** `rateSensitivity`: fixed fixings are left out; `None` when an unfixed
      fixing would be divided by a total weight of zero. */
  function RateSensitivity(computation: Computation, rates: IndexRates): (r: Option<seq<PointSensitivity>>)
    ensures (forall j :: 0 <= j < |computation.fixings| ==> !Unfixed(computation.fixings[j])) ==> r == Some([])
    ensures r.None? <==> computation.totalWeight == 0.0 && exists j :: 0 <= j < |computation.fixings| && Unfixed(computation.fixings[j])
  {
    var unfixed := Filter(computation.fixings, Unfixed);
    if unfixed == [] then Some([])
    else if computation.totalWeight == 0.0 then
      assert unfixed[0] in computation.fixings;
      None
    else
      assert unfixed[0] in computation.fixings;
      Some(Combined(unfixed, rates, computation.totalWeight))
  }

  /** The contribution of one fixing: a term of its point sensitivity, scaled by its weight share. */
  ghost predicate Contributes(fixing: Fixing, rates: IndexRates, totalWeight: real, p: PointSensitivity)
    requires totalWeight != 0.0
  {
    exists t :: t in rates.pointSensitivity(fixing.observation)
      && p == PointSensitivity(t.observation, t.sensitivity * (fixing.weight / totalWeight))
  }

  /** Every term of the combined sensitivity comes from one of the fixings. */
  lemma {:induction false} CombinedFromFixings(fixings: seq<Fixing>, rates: IndexRates, totalWeight: real)
    requires totalWeight != 0.0
    ensures forall p :: p in Combined(fixings, rates, totalWeight) ==>
      exists f :: f in fixings && Contributes(f, rates, totalWeight, p)
    decreases |fixings|
  {
    if fixings != [] {
      var n := |fixings| - 1;
      var last := fixings[n];
      CombinedFromFixings(fixings[..n], rates, totalWeight);
      var scaled := Scaled(rates.pointSensitivity(last.observation), last.weight / totalWeight);
      forall p | p in Combined(fixings, rates, totalWeight) ensures exists f :: f in fixings && Contributes(f, rates, totalWeight, p) {
        if p in Combined(fixings[..n], rates, totalWeight) {
          var f :| f in fixings[..n] && Contributes(f, rates, totalWeight, p);
          assert f in fixings;
        } else {
          assert p in scaled;
          var i :| 0 <= i < |scaled| && scaled[i] == p;
          assert rates.pointSensitivity(last.observation)[i] in rates.pointSensitivity(last.observation);
          assert Contributes(last, rates, totalWeight, p);
        }
      }
    }
  }

  /** Only fixings without a fixed rate contribute to the sensitivity, each
      scaled by its weight over the total weight. */
  lemma SensitivityOnlyUnfixed(computation: Computation, rates: IndexRates)
    ensures var r := RateSensitivity(computation, rates);
      r.Some? && r.value != [] ==>
        && computation.totalWeight != 0.0
        && forall p :: p in r.value ==>
             exists f :: f in computation.fixings && Unfixed(f) && Contributes(f, rates, computation.totalWeight, p)
  {
    var unfixed := Filter(computation.fixings, Unfixed);
    if unfixed != [] && computation.totalWeight != 0.0 {
      CombinedFromFixings(unfixed, rates, computation.totalWeight);
    }
  }

  /** With unit point sensitivities, the sensitivity lists the unfixed
      fixings' observations in order, each with its weight share. */
  lemma {:induction false} CombinedOfUnitSensitivities(fixings: seq<Fixing>, rates: IndexRates, totalWeight: real)
    requires totalWeight != 0.0
    requires forall o :: rates.pointSensitivity(o) == [PointSensitivity(o, 1.0)]
    ensures Combined(fixings, rates, totalWeight) ==
      seq(|fixings|, i requires 0 <= i < |fixings| => PointSensitivity(fixings[i].observation, fixings[i].weight / totalWeight))
    decreases |fixings|
  {
    if fixings != [] {
      var n := |fixings| - 1;
      CombinedOfUnitSensitivities(fixings[..n], rates, totalWeight);
      var last := fixings[n];
      assert Scaled(rates.pointSensitivity(last.observation), last.weight / totalWeight)
        == [PointSensitivity(last.observation, last.weight / totalWeight)];
    }
  }

  /** `rateSensitivity` with unit point sensitivities. */
  lemma SensitivityOfUnitSensitivities(computation: Computation, rates: IndexRates)
    requires computation.totalWeight != 0.0
    requires forall o :: rates.pointSensitivity(o) == [PointSensitivity(o, 1.0)]
    ensures var u := Filter(computation.fixings, Unfixed);
      RateSensitivity(computation, rates) ==
        Some(seq(|u|, i requires 0 <= i < |u| => PointSensitivity(u[i].observation, u[i].weight / computation.totalWeight)))
  {
    CombinedOfUnitSensitivities(Filter(computation.fixings, Unfixed), rates, computation.totalWeight);
  }
}
