/** The curve bootstrap of `CfetsRatesCurveBootstrap`: the trades of a curve
    definition become cashflow sets (one per instrument: its payments, its spot
    date and its quoted rate), sorted; the curve starts with one node per
    instrument, at the instrument's end date and its quoted rate, and node `i`
    is then re-solved in place so that instrument `i`'s payments, discounted to
    its spot date, are worth the quantity 1. */
module RatesCurveBootstrap {
  import opened Basics
  import opened Sorting
  import opened Curves
  import opened RootFinding
  import opened Discounting

  /** The notional of every node trade, which is also the value each instrument is solved to. */
  const Quantity: real := 1.0

  /** `of(toleranceAbs, toleranceRel, stepMaximum)`: a Newton root finder; `newton` is its update. */
  function Of(toleranceAbs: real, toleranceRel: real, stepMaximum: nat, newton: (real -> real, real) -> real): RootFinder {
    RootFinder(toleranceAbs, toleranceRel, stepMaximum, newton)
  }

  /** `STANDARD`: both tolerances 1e-10 and at most 100 steps. */
  function Standard(newton: (real -> real, real) -> real): (rf: RootFinder)
    ensures rf.absoluteTolerance == 0.0000000001 && rf.relativeTolerance == 0.0000000001
    ensures rf.maxSteps == 100 && rf.step == newton
  {
    Of(0.0000000001, 0.0000000001, 100, newton)
  }

  // ------------------------------------------------------------- cashflow sets

  /** `CfetsRateCurveBootstrapCashFlow`: an amount paid on a date. */
  datatype BootstrapCashFlow = BootstrapCashFlow(paymentDate: Date, paymentAmount: real)

  /** `CfetsRateCurveBootstrapCashFlows`: an instrument's payments, the date
      they are valued at and the instrument's quoted rate. */
  datatype BootstrapCashFlows = BootstrapCashFlows(payments: seq<BootstrapCashFlow>, spotDate: Date, rate: real)

  /** The two things the bootstrap asks of a cashflow set beyond its fields,
      both defined in its own class, which is not part of this model: its end
      date (`getEndDate`) and its natural order (`compareTo`). */
  datatype CashFlowsOrder = CashFlowsOrder(
    endDate: BootstrapCashFlows -> Date,
    compare: (BootstrapCashFlows, BootstrapCashFlows) -> int)

  /** `Collections.sort(payments)`. */
  function SortPayments(payments: seq<BootstrapCashFlows>, order: CashFlowsOrder): seq<BootstrapCashFlows> {
    Sort(payments, order.compare)
  }

  /** The sorted cashflow sets are the given ones, in order. */
  lemma SortPaymentsOrdered(payments: seq<BootstrapCashFlows>, order: CashFlowsOrder)
    requires Antisymmetric(order.compare) && Transitive(order.compare)
    ensures multiset(SortPayments(payments, order)) == multiset(payments)
    ensures Sorted(SortPayments(payments, order), order.compare)
  {
    SortSorted(payments, order.compare);
  }

  /** Year fraction from the anchor to an instrument's end date: its node's x value. */
  function EndYearFraction(anchor: Date, p: BootstrapCashFlows, dc: DayCount, order: CashFlowsOrder, coll: Collaborators): real {
    coll.YearFraction(dc, anchor, order.endDate(p))
  }

  /** The payments as amounts at year fractions from the anchor. */
  function Timed(anchor: Date, dc: DayCount, cfs: seq<BootstrapCashFlow>, coll: Collaborators): (r: seq<CashFlow>)
    ensures |r| == |cfs|
    ensures forall i :: 0 <= i < |cfs| ==>
      r[i] == CashFlow(coll.YearFraction(dc, anchor, cfs[i].paymentDate), cfs[i].paymentAmount)
  {
    seq(|cfs|, i requires 0 <= i < |cfs| => CashFlow(coll.YearFraction(dc, anchor, cfs[i].paymentDate), cfs[i].paymentAmount))
  }

  // ---------------------------------------------------------------- nodes

  /** Both node arrays have a slot `i`. */
  predicate InRange(c: Curve, i: nat) {
    i < |c.xValues| && i < |c.yValues|
  }

  /** `d` is `c` with node `i` moved to x value `x` and some y value: same
      settings and sizes, and every other node as it was. */
  predicate Moved(c: Curve, d: Curve, i: nat, x: real) {
    && SameSettings(c, d)
    && |d.xValues| == |c.xValues| && |d.yValues| == |c.yValues|
    && InRange(d, i) && d.xValues[i] == x
    && (forall j :: 0 <= j < |c.xValues| && j != i ==> d.xValues[j] == c.xValues[j])
    && (forall j :: 0 <= j < |c.yValues| && j != i ==> d.yValues[j] == c.yValues[j])
  }

  /** `d` is `c` with node `i` moved to (x, y). */
  predicate Adjusted(c: Curve, d: Curve, i: nat, x: real, y: real) {
    Moved(c, d, i, x) && d.yValues[i] == y
  }

  /** `adjustNodeAt`: `DoubleArray.with` on both node arrays, keeping the
      interpolator, the extrapolators and the metadata; `with` fails on an
      index outside the array. */
  function AdjustNodeAt(c: Curve, x: real, y: real, nodeIndex: nat): (r: Result<Curve>)
    ensures r.Ok? <==> InRange(c, nodeIndex)
    ensures r.Err? ==> r.error == IndexOutOfBounds(nodeIndex)
    ensures r.Ok? ==> Adjusted(c, r.value, nodeIndex, x, y)
  {
    if InRange(c, nodeIndex) then
      Ok(c.(xValues := c.xValues[nodeIndex := x], yValues := c.yValues[nodeIndex := y]))
    else
      Err(IndexOutOfBounds(nodeIndex))
  }

  /** `Adjusted` determines the curve: there is one way to move a node. */
  lemma AdjustedUnique(c: Curve, d: Curve, e: Curve, i: nat, x: real, y: real)
    requires Adjusted(c, d, i, x, y) && Adjusted(c, e, i, x, y)
    ensures d == e
  {
    assert d.xValues == e.xValues;
    assert d.yValues == e.yValues;
  }

  /** Moving the same node twice: the second move is all that remains. */
  lemma AdjustNodeAtTwice(c: Curve, x1: real, y1: real, x2: real, y2: real, i: nat)
    requires InRange(c, i)
    ensures AdjustNodeAt(AdjustNodeAt(c, x1, y1, i).value, x2, y2, i) == AdjustNodeAt(c, x2, y2, i)
  {
    var once := AdjustNodeAt(c, x1, y1, i).value;
    AdjustedUnique(c, AdjustNodeAt(once, x2, y2, i).value, AdjustNodeAt(c, x2, y2, i).value, i, x2, y2);
  }

  /** Moving a node to where it already is gives back the curve. */
  lemma AdjustNodeAtSame(c: Curve, i: nat)
    requires InRange(c, i)
    ensures AdjustNodeAt(c, c.xValues[i], c.yValues[i], i) == Ok(c)
  {
    assert c.xValues[i := c.xValues[i]] == c.xValues;
    assert c.yValues[i := c.yValues[i]] == c.yValues;
  }

  /** Moves of different nodes do not interfere. */
  lemma AdjustNodeAtCommutes(c: Curve, x1: real, y1: real, i: nat, x2: real, y2: real, j: nat)
    requires InRange(c, i) && InRange(c, j) && i != j
    ensures AdjustNodeAt(AdjustNodeAt(c, x1, y1, i).value, x2, y2, j)
         == AdjustNodeAt(AdjustNodeAt(c, x2, y2, j).value, x1, y1, i)
  {
    var a := AdjustNodeAt(AdjustNodeAt(c, x1, y1, i).value, x2, y2, j).value;
    var b := AdjustNodeAt(AdjustNodeAt(c, x2, y2, j).value, x1, y1, i).value;
    assert a.xValues == b.xValues;
    assert a.yValues == b.yValues;
  }

  /** The node objective at a trial rate: node `nodeAt` moved to the
      instrument's end and the trial rate, the instrument's payments valued at
      its spot date on that curve, minus the quantity. */
  function NodeResidual(anchor: Date, known: Curve, payment: BootstrapCashFlows, nodeAt: nat,
                        dc: DayCount, order: CashFlowsOrder, coll: Collaborators, rate: real): real
    requires InRange(known, nodeAt)
  {
    var tempCurve := AdjustNodeAt(known, EndYearFraction(anchor, payment, dc, order, coll), rate, nodeAt).value;
    var spotDf := coll.DiscountFactor(anchor, tempCurve, coll.YearFraction(dc, anchor, payment.spotDate));
    SpotValue(anchor, Timed(anchor, dc, payment.payments, coll), tempCurve, spotDf, coll) - Quantity
  }

  /** Reordering an instrument's payments does not change its objective. */
  lemma NodeResidualIgnoresPaymentOrder(anchor: Date, known: Curve, payment: BootstrapCashFlows, reordered: seq<BootstrapCashFlow>,
                                        nodeAt: nat, dc: DayCount, order: CashFlowsOrder, coll: Collaborators, rate: real)
    requires InRange(known, nodeAt)
    requires multiset(reordered) == multiset(payment.payments)
    requires order.endDate(payment.(payments := reordered)) == order.endDate(payment)
    ensures NodeResidual(anchor, known, payment.(payments := reordered), nodeAt, dc, order, coll, rate)
         == NodeResidual(anchor, known, payment, nodeAt, dc, order, coll, rate)
  {
    var tempCurve := AdjustNodeAt(known, EndYearFraction(anchor, payment, dc, order, coll), rate, nodeAt).value;
    var spotDf := coll.DiscountFactor(anchor, tempCurve, coll.YearFraction(dc, anchor, payment.spotDate));
    TimedPermutation(anchor, dc, reordered, payment.payments, coll);
    SpotValuePermutation(anchor, Timed(anchor, dc, reordered, coll), Timed(anchor, dc, payment.payments, coll), tempCurve, spotDf, coll);
  }

  /** Timing a concatenation times each part. */
  lemma TimedConcat(anchor: Date, dc: DayCount, a: seq<BootstrapCashFlow>, b: seq<BootstrapCashFlow>, coll: Collaborators)
    ensures Timed(anchor, dc, a + b, coll) == Timed(anchor, dc, a, coll) + Timed(anchor, dc, b, coll)
  {
    var l, r := Timed(anchor, dc, a + b, coll), Timed(anchor, dc, a, coll) + Timed(anchor, dc, b, coll);
    assert |l| == |r|;
    forall i | 0 <= i < |l| ensures l[i] == r[i] {
      if i < |a| {
        assert (a + b)[i] == a[i];
      } else {
        assert (a + b)[i] == b[i - |a|];
      }
    }
  }

  /** Timing the payments commutes with reordering them. */
  lemma {:induction false} TimedPermutation(anchor: Date, dc: DayCount, a: seq<BootstrapCashFlow>, b: seq<BootstrapCashFlow>, coll: Collaborators)
    requires multiset(a) == multiset(b)
    ensures multiset(Timed(anchor, dc, a, coll)) == multiset(Timed(anchor, dc, b, coll))
    decreases |a|
  {
    if a == [] {
      assert |b| == |multiset(b)| == 0;
    } else {
      var x := a[|a| - 1];
      var a' := a[..|a| - 1];
      assert a == a' + [x];
      assert x in multiset(b);
      var k :| 0 <= k < |b| && b[k] == x;
      var b1, b2 := b[..k], b[k + 1..];
      assert b == b1 + [x] + b2;
      MultisetRemove(a', x, b1, b2);
      TimedPermutation(anchor, dc, a', b1 + b2, coll);
      TimedConcat(anchor, dc, a', [x], coll);
      TimedConcat(anchor, dc, b1, [x], coll);
      TimedConcat(anchor, dc, b1 + [x], b2, coll);
      TimedConcat(anchor, dc, b1, b2, coll);
    }
  }

  /** The objective as the function handed to the root finder. */
  function Objective(anchor: Date, known: Curve, payment: BootstrapCashFlows, nodeAt: nat,
                     dc: DayCount, order: CashFlowsOrder, coll: Collaborators): real -> real
    requires InRange(known, nodeAt)
  {
    rate => NodeResidual(anchor, known, payment, nodeAt, dc, order, coll, rate)
  }

  /** The body of the objective lambda: the spot-date value accumulated over
      the payments, less the quantity, or the failure of `adjustNodeAt`. */
  method EvaluateObjective(anchor: Date, known: Curve, payment: BootstrapCashFlows, nodeAt: nat,
                           dc: DayCount, order: CashFlowsOrder, coll: Collaborators, rate: real)
    returns (r: Result<seq<real>>)
    ensures !InRange(known, nodeAt) ==> r == Err(IndexOutOfBounds(nodeAt))
    ensures InRange(known, nodeAt) ==> r == Ok([NodeResidual(anchor, known, payment, nodeAt, dc, order, coll, rate)])
  {
    var endDateYearFraction := coll.YearFraction(dc, anchor, order.endDate(payment));
    var adjusted := AdjustNodeAt(known, endDateYearFraction, rate, nodeAt);
    if adjusted.Err? {
      return Err(adjusted.error);
    }
    var tempCurve := adjusted.value;
    var spotDatePv := 0.0;
    var spotDateDf := coll.DiscountFactor(anchor, tempCurve, coll.YearFraction(dc, anchor, payment.spotDate));
    ghost var flows := Timed(anchor, dc, payment.payments, coll);
    for k := 0 to |payment.payments|
      invariant spotDatePv == SpotValue(anchor, flows[..k], tempCurve, spotDateDf, coll)
    {
      var cashFlow := payment.payments[k];
      assert flows[..k + 1][..k] == flows[..k];
      spotDatePv := spotDatePv + cashFlow.paymentAmount
        * coll.DiscountFactor(anchor, tempCurve, coll.YearFraction(dc, anchor, cashFlow.paymentDate)) / spotDateDf;
      assert spotDatePv == SpotValue(anchor, flows[..k + 1], tempCurve, spotDateDf, coll);
    }
    assert flows[..|payment.payments|] == flows;
    r := Ok([spotDatePv - Quantity]);
  }

  /** The root the finder reaches from the quoted rate. */
  function SolvedRate(anchor: Date, known: Curve, payment: BootstrapCashFlows, nodeAt: nat,
                      dc: DayCount, order: CashFlowsOrder, coll: Collaborators, rf: RootFinder): (y: Option<real>)
    requires InRange(known, nodeAt)
    ensures y.Some? ==> Abs(NodeResidual(anchor, known, payment, nodeAt, dc, order, coll, y.value)) < rf.absoluteTolerance
  {
    Solve(rf, Objective(anchor, known, payment, nodeAt, dc, order, coll), payment.rate)
  }

  /** The bootstrap of node `nodeAt`: the node moved to the instrument's end
      date at the solved rate, or the failure of `adjustNodeAt` or of the root
      finder. */
  function NodeStep(anchor: Date, known: Curve, payment: BootstrapCashFlows, nodeAt: nat,
                    dc: DayCount, order: CashFlowsOrder, coll: Collaborators, rf: RootFinder): (r: Result<Curve>)
    ensures !InRange(known, nodeAt) ==> r == Err(IndexOutOfBounds(nodeAt))
    ensures InRange(known, nodeAt) ==>
      && (r.Err? <==> SolvedRate(anchor, known, payment, nodeAt, dc, order, coll, rf).None?)
      && (r.Err? ==> r.error == RootNotFound)
    ensures r.Ok? ==>
      && InRange(known, nodeAt)
      && Moved(known, r.value, nodeAt, EndYearFraction(anchor, payment, dc, order, coll))
      && r.value.yValues[nodeAt] == SolvedRate(anchor, known, payment, nodeAt, dc, order, coll, rf).value
      && Abs(NodeResidual(anchor, known, payment, nodeAt, dc, order, coll, r.value.yValues[nodeAt])) < rf.absoluteTolerance
  {
    if !InRange(known, nodeAt) then Err(IndexOutOfBounds(nodeAt))
    else match SolvedRate(anchor, known, payment, nodeAt, dc, order, coll, rf)
      case None => Err(RootNotFound)
      case Some(root) => AdjustNodeAt(known, EndYearFraction(anchor, payment, dc, order, coll), root, nodeAt)
  }

  /** The quoted rate is kept when it already prices the instrument within
      tolerance and the Newton step does not move it; a quote that only
      reprices within tolerance is still moved by the first step. */
  lemma NodeStepKeepsFixedPointQuote(anchor: Date, known: Curve, payment: BootstrapCashFlows, nodeAt: nat,
                                     dc: DayCount, order: CashFlowsOrder, coll: Collaborators, rf: RootFinder)
    requires InRange(known, nodeAt) && rf.relativeTolerance >= 0.0
    requires rf.step(Objective(anchor, known, payment, nodeAt, dc, order, coll), payment.rate) == payment.rate
    requires Abs(NodeResidual(anchor, known, payment, nodeAt, dc, order, coll, payment.rate)) < rf.absoluteTolerance
    ensures NodeStep(anchor, known, payment, nodeAt, dc, order, coll, rf)
         == AdjustNodeAt(known, EndYearFraction(anchor, payment, dc, order, coll), payment.rate, nodeAt)
  {
    var f := Objective(anchor, known, payment, nodeAt, dc, order, coll);
    assert f(payment.rate) == NodeResidual(anchor, known, payment, nodeAt, dc, order, coll, payment.rate);
    SolveFixedPoint(rf, f, payment.rate);
  }

  /** `bootstrap(anchorDate, quantity, payment, knownCurve, index, nodeAt)`. */
  method BootstrapNode(anchor: Date, known: Curve, payment: BootstrapCashFlows, nodeAt: nat,
                       dc: DayCount, order: CashFlowsOrder, coll: Collaborators, rf: RootFinder)
    returns (r: Result<Curve>)
    ensures r == NodeStep(anchor, known, payment, nodeAt, dc, order, coll, rf)
  {
    var endDateYearFraction := coll.YearFraction(dc, anchor, order.endDate(payment));
    if !(nodeAt < |known.xValues| && nodeAt < |known.yValues|) {
      return Err(IndexOutOfBounds(nodeAt));
    }
    var root := FindRoot(rf, Objective(anchor, known, payment, nodeAt, dc, order, coll), payment.rate);
    if root.None? {
      return Err(RootNotFound);
    }
    r := AdjustNodeAt(known, endDateYearFraction, root.value, nodeAt);
  }

  // ---------------------------------------------------------------- curves

  /** The curve before any node is solved: one node per cashflow set, at its
      end date and its quoted rate, linear with flat extrapolation. */
  function InitialCurve(anchor: Date, sorted: seq<BootstrapCashFlows>, curveName: string, dc: DayCount,
                        order: CashFlowsOrder, coll: Collaborators): (c: Curve)
    ensures SameSettings(c, LinearFlatCurve(curveName, dc, [], []))
    ensures |c.xValues| == |c.yValues| == |sorted|
    ensures forall i :: 0 <= i < |sorted| ==>
      c.xValues[i] == EndYearFraction(anchor, sorted[i], dc, order, coll) && c.yValues[i] == sorted[i].rate
  {
    LinearFlatCurve(curveName, dc,
      seq(|sorted|, i requires 0 <= i < |sorted| => EndYearFraction(anchor, sorted[i], dc, order, coll)),
      seq(|sorted|, i requires 0 <= i < |sorted| => sorted[i].rate))
  }

  /** The bootstrap of one node, as the loop body of the curve bootstrap. */
  type NodeBootstrap = (Curve, BootstrapCashFlows, nat) -> Result<Curve>

  function PricerStep(anchor: Date, dc: DayCount, order: CashFlowsOrder, coll: Collaborators, rf: RootFinder): NodeBootstrap {
    (c: Curve, p: BootstrapCashFlows, i: nat) => NodeStep(anchor, c, p, i, dc, order, coll, rf)
  }

  /** The curve bootstrap: sort, start from the initial curve, solve the nodes in order. */
  function CurveSpec(anchor: Date, payments: seq<BootstrapCashFlows>, curveName: string, dc: DayCount,
                     order: CashFlowsOrder, coll: Collaborators, rf: RootFinder): Result<Curve>
  {
    var sorted := SortPayments(payments, order);
    FoldResult(InitialCurve(anchor, sorted, curveName, dc, order, coll), sorted, PricerStep(anchor, dc, order, coll, rf))
  }

  /** `bootstrap(anchorDate, quantity, payments, curveId, index)`; `dc` is the
      index's day count and `curveName` the curve identifier's name. */
  method BootstrapCurve(anchor: Date, payments: seq<BootstrapCashFlows>, curveName: string, dc: DayCount,
                        order: CashFlowsOrder, coll: Collaborators, rf: RootFinder) returns (r: Result<Curve>)
    ensures r == CurveSpec(anchor, payments, curveName, dc, order, coll, rf)
  {
    var sorted := SortPayments(payments, order);
    var knownCurve := InitialCurve(anchor, sorted, curveName, dc, order, coll);
    r := SolveNodes(anchor, sorted, knownCurve, dc, order, coll, rf);
  }

  /** The node loop: node `i` is solved against the curve left by nodes `0..i-1`. */
  method SolveNodes(anchor: Date, payments: seq<BootstrapCashFlows>, known: Curve,
                    dc: DayCount, order: CashFlowsOrder, coll: Collaborators, rf: RootFinder) returns (r: Result<Curve>)
    ensures r == FoldResult(known, payments, PricerStep(anchor, dc, order, coll, rf))
  {
    ghost var step := PricerStep(anchor, dc, order, coll, rf);
    var knownCurve := known;
    for i := 0 to |payments|
      invariant FoldResult(known, payments[..i], step) == Ok(knownCurve)
    {
      var next := BootstrapNode(anchor, knownCurve, payments[i], i, dc, order, coll, rf);
      FoldResultSnoc(known, payments, i, step);
      assert step(knownCurve, payments[i], i) == next;
      if next.Err? {
        FoldResultErrSticks(known, payments, i + 1, step);
        return Err(next.error);
      }
      knownCurve := next.value;
    }
    assert payments[..|payments|] == payments;
    r := Ok(knownCurve);
  }

  /** What the lemmas about the node loop need of a node bootstrap: a success
      moves node `i` to the instrument's end date and changes nothing else. */
  ghost predicate MovesOwnNode(step: NodeBootstrap, anchor: Date, dc: DayCount, order: CashFlowsOrder, coll: Collaborators) {
    forall c: Curve, p: BootstrapCashFlows, i: nat :: step(c, p, i).Ok? ==>
      InRange(c, i) && Moved(c, step(c, p, i).value, i, EndYearFraction(anchor, p, dc, order, coll))
  }

  lemma PricerStepMovesOwnNode(anchor: Date, dc: DayCount, order: CashFlowsOrder, coll: Collaborators, rf: RootFinder)
    ensures MovesOwnNode(PricerStep(anchor, dc, order, coll, rf), anchor, dc, order, coll)
  {
    var step := PricerStep(anchor, dc, order, coll, rf);
    forall c: Curve, p: BootstrapCashFlows, i: nat | step(c, p, i).Ok?
      ensures InRange(c, i) && Moved(c, step(c, p, i).value, i, EndYearFraction(anchor, p, dc, order, coll))
    {
      assert step(c, p, i) == NodeStep(anchor, c, p, i, dc, order, coll, rf);
    }
  }

  /** The nodes of a curve after the first `k` cashflow sets are solved, for a
      start curve with one node per set at its end date: the sizes and the x
      values never change, and the nodes from `k` on still hold their start values. */
  predicate SolvedUpTo(anchor: Date, sorted: seq<BootstrapCashFlows>, k: nat, start: Curve, c: Curve,
                       dc: DayCount, order: CashFlowsOrder, coll: Collaborators)
  {
    && SameSettings(c, start)
    && |c.yValues| == |start.yValues|
    && c.xValues == start.xValues
    && (forall j :: k <= j < |start.yValues| ==> c.yValues[j] == start.yValues[j])
  }

  /** The start curve has one node per cashflow set, at the set's end date. */
  ghost predicate OneNodePerSet(anchor: Date, sorted: seq<BootstrapCashFlows>, start: Curve,
                                dc: DayCount, order: CashFlowsOrder, coll: Collaborators)
  {
    && |start.xValues| == |start.yValues| == |sorted|
    && forall j :: 0 <= j < |sorted| ==> start.xValues[j] == EndYearFraction(anchor, sorted[j], dc, order, coll)
  }

  /** Solving the first `k` nodes keeps the curve in the shape `SolvedUpTo` describes. */
  lemma {:induction false} SolvedPrefix(anchor: Date, sorted: seq<BootstrapCashFlows>, k: nat, start: Curve,
                                        dc: DayCount, order: CashFlowsOrder, coll: Collaborators, step: NodeBootstrap)
    requires k <= |sorted|
    requires MovesOwnNode(step, anchor, dc, order, coll)
    requires OneNodePerSet(anchor, sorted, start, dc, order, coll)
    ensures FoldResult(start, sorted[..k], step).Ok? ==>
      SolvedUpTo(anchor, sorted, k, start, FoldResult(start, sorted[..k], step).value, dc, order, coll)
  {
    if k > 0 {
      FoldResultSnoc(start, sorted, k - 1, step);
      SolvedPrefix(anchor, sorted, k - 1, start, dc, order, coll, step);
      var before := FoldResult(start, sorted[..k - 1], step);
      if before.Ok? && step(before.value, sorted[k - 1], k - 1).Ok? {
        var c := before.value;
        var d := step(c, sorted[k - 1], k - 1).value;
        assert Moved(c, d, k - 1, EndYearFraction(anchor, sorted[k - 1], dc, order, coll));
        assert d.xValues == c.xValues;
      }
    } else {
      assert sorted[..0] == [];
    }
  }

  /** A successful step leaves the other nodes as they were. */
  lemma StepKeepsOtherNodes(step: NodeBootstrap, anchor: Date, dc: DayCount, order: CashFlowsOrder, coll: Collaborators,
                            c: Curve, p: BootstrapCashFlows, i: nat, j: nat)
    requires MovesOwnNode(step, anchor, dc, order, coll)
    requires step(c, p, i).Ok? && j != i && j < |c.yValues|
    ensures |step(c, p, i).value.yValues| == |c.yValues| && step(c, p, i).value.yValues[j] == c.yValues[j]
  {
  }

  /** A node solved at step `j` is not touched by the later steps. */
  lemma {:induction false} SolvedNodeFrozen(anchor: Date, sorted: seq<BootstrapCashFlows>, j: nat, k: nat, start: Curve,
                                            dc: DayCount, order: CashFlowsOrder, coll: Collaborators, step: NodeBootstrap)
    requires j < k <= |sorted|
    requires MovesOwnNode(step, anchor, dc, order, coll)
    requires OneNodePerSet(anchor, sorted, start, dc, order, coll)
    requires FoldResult(start, sorted[..k], step).Ok?
    ensures FoldResult(start, sorted[..j + 1], step).Ok?
    ensures j < |FoldResult(start, sorted[..k], step).value.yValues|
    ensures FoldResult(start, sorted[..k], step).value.yValues[j] == FoldResult(start, sorted[..j + 1], step).value.yValues[j]
    decreases k
  {
    SolvedPrefix(anchor, sorted, k, start, dc, order, coll, step);
    if k > j + 1 {
      FoldResultSnoc(start, sorted, k - 1, step);
      var prev := FoldResult(start, sorted[..k - 1], step);
      assert prev.Ok?;
      SolvedNodeFrozen(anchor, sorted, j, k - 1, start, dc, order, coll, step);
      StepKeepsOtherNodes(step, anchor, dc, order, coll, prev.value, sorted[k - 1], k - 1, j);
    }
  }

  /** The x values of the initial curve are the sets' end dates. */
  lemma InitialCurveOneNodePerSet(anchor: Date, sorted: seq<BootstrapCashFlows>, curveName: string, dc: DayCount,
                                  order: CashFlowsOrder, coll: Collaborators)
    ensures OneNodePerSet(anchor, sorted, InitialCurve(anchor, sorted, curveName, dc, order, coll), dc, order, coll)
  {
  }

  /** The bootstrapped curve has the initial curve's settings (the curve name,
      linear, flat on both sides, the index's day count), one node per cashflow
      set, at the sets' end dates in sorted order. */
  lemma CurveNodes(anchor: Date, payments: seq<BootstrapCashFlows>, curveName: string, dc: DayCount,
                   order: CashFlowsOrder, coll: Collaborators, rf: RootFinder)
    ensures var r := CurveSpec(anchor, payments, curveName, dc, order, coll, rf);
      var sorted := SortPayments(payments, order);
      r.Ok? ==>
        && SameSettings(r.value, LinearFlatCurve(curveName, dc, [], []))
        && |r.value.xValues| == |r.value.yValues| == |payments|
        && forall j :: 0 <= j < |payments| ==> r.value.xValues[j] == EndYearFraction(anchor, sorted[j], dc, order, coll)
  {
    var sorted := SortPayments(payments, order);
    var step := PricerStep(anchor, dc, order, coll, rf);
    var start := InitialCurve(anchor, sorted, curveName, dc, order, coll);
    PricerStepMovesOwnNode(anchor, dc, order, coll, rf);
    SolvedPrefix(anchor, sorted, |sorted|, start, dc, order, coll, step);
    assert sorted[..|sorted|] == sorted;
  }

  /** After the first `k` nodes are solved, the nodes from `k` on still hold
      their quoted rates. */
  lemma UnsolvedNodesKeepQuotes(anchor: Date, payments: seq<BootstrapCashFlows>, k: nat, curveName: string, dc: DayCount,
                                order: CashFlowsOrder, coll: Collaborators, rf: RootFinder)
    requires k <= |payments|
    ensures var sorted := SortPayments(payments, order);
      var r := FoldResult(InitialCurve(anchor, sorted, curveName, dc, order, coll), sorted[..k], PricerStep(anchor, dc, order, coll, rf));
      r.Ok? ==>
        && |r.value.yValues| == |payments|
        && forall j :: k <= j < |payments| ==> r.value.yValues[j] == sorted[j].rate
  {
    var sorted := SortPayments(payments, order);
    PricerStepMovesOwnNode(anchor, dc, order, coll, rf);
    SolvedPrefix(anchor, sorted, k, InitialCurve(anchor, sorted, curveName, dc, order, coll), dc, order, coll, PricerStep(anchor, dc, order, coll, rf));
  }

  /** Every node of the bootstrapped curve holds the rate the root finder
      solved for it against the curve left by the nodes before it, and that
      rate prices its instrument within tolerance there. */
  lemma EachNodeSolved(anchor: Date, payments: seq<BootstrapCashFlows>, j: nat, curveName: string, dc: DayCount,
                       order: CashFlowsOrder, coll: Collaborators, rf: RootFinder)
    requires j < |payments|
    requires CurveSpec(anchor, payments, curveName, dc, order, coll, rf).Ok?
    ensures var sorted := SortPayments(payments, order);
      var step := PricerStep(anchor, dc, order, coll, rf);
      var before := FoldResult(InitialCurve(anchor, sorted, curveName, dc, order, coll), sorted[..j], step);
      var y := CurveSpec(anchor, payments, curveName, dc, order, coll, rf).value.yValues[j];
      && before.Ok? && InRange(before.value, j)
      && SolvedRate(anchor, before.value, sorted[j], j, dc, order, coll, rf) == Some(y)
      && Abs(NodeResidual(anchor, before.value, sorted[j], j, dc, order, coll, y)) < rf.absoluteTolerance
  {
    var sorted := SortPayments(payments, order);
    var step := PricerStep(anchor, dc, order, coll, rf);
    var start := InitialCurve(anchor, sorted, curveName, dc, order, coll);
    PricerStepMovesOwnNode(anchor, dc, order, coll, rf);
    assert sorted[..|sorted|] == sorted;
    SolvedNodeFrozen(anchor, sorted, j, |sorted|, start, dc, order, coll, step);
    FoldResultOkPrefix(start, sorted, j, step);
    FoldResultSnoc(start, sorted, j, step);
    var before := FoldResult(start, sorted[..j], step).value;
    assert step(before, sorted[j], j) == NodeStep(anchor, before, sorted[j], j, dc, order, coll, rf);
  }

  // ------------------------------------------------------------- trades

  datatype PayReceive = Pay | Receive
  datatype SwapLegType = FixedLeg | IborLeg | OtherLegType(name: string)

  /** A payment period of a resolved swap leg: a `RatePaymentPeriod`, with the
      value the swap payment period pricer forecasts for it (that pricer is not
      part of this model), or a period of another kind. */
  datatype PaymentPeriod =
    | RatePaymentPeriod(paymentDate: Date, endDate: Date, notional: real, dayCount: DayCount, forecastValue: real)
    | OtherPaymentPeriod

  /** A leg of the resolved swap. */
  datatype ResolvedSwapLeg = ResolvedSwapLeg(
    legType: SwapLegType, payReceive: PayReceive, startDate: Date, endDate: Date, paymentPeriods: seq<PaymentPeriod>)

  /** The calculation of an unresolved leg: fixed with the initial value of its rate schedule, or another one. */
  datatype RateCalculation = FixedRateCalculation(initialRate: real) | OtherCalculation

  /** A leg of the swap product before resolution. */
  datatype SwapLeg =
    | RateCalculationSwapLeg(payReceive: PayReceive, calculation: RateCalculation)
    | OtherSwapLeg(payReceive: PayReceive)

  /** The trade of a curve node, with what the extraction reads of it: a swap
      (its product's legs and its resolved legs), a term deposit (resolved), or
      a trade of any other class. */
  datatype Trade =
    | SwapTrade(legs: seq<SwapLeg>, resolvedLegs: seq<ResolvedSwapLeg>)
    | TermDepositTrade(startDate: Date, endDate: Date, notional: real, interest: real, rate: real)
    | OtherTrade

  /** The rate a swap is bootstrapped from when its product has no leg in the fixed leg's direction. */
  const DefaultRate: real := 0.02

  /** `swap.getLegs(SwapLegType.FIXED)`. */
  function FixedLegs(legs: seq<ResolvedSwapLeg>): seq<ResolvedSwapLeg> {
    Filter(legs, (l: ResolvedSwapLeg) => l.legType == FixedLeg)
  }

  /** `getProduct().getLeg(payReceive)`: the first leg in that direction. */
  function GetLeg(legs: seq<SwapLeg>, payReceive: PayReceive): Option<SwapLeg> {
    FindFirst(legs, (l: SwapLeg) => l.payReceive == payReceive)
  }

  /** The payment periods that are rate payment periods, in order. */
  function RatePeriods(periods: seq<PaymentPeriod>): (r: seq<PaymentPeriod>)
    ensures forall i :: 0 <= i < |r| ==> r[i].RatePaymentPeriod?
  {
    var r := Filter(periods, (p: PaymentPeriod) => p.RatePaymentPeriod?);
    assert forall i :: 0 <= i < |r| ==> r[i] in r;
    r
  }

  /** The fixed leg's cashflows: one per rate payment period, paid on its
      payment date, of its forecast value, plus its notional exactly when the
      period ends on the leg's end date. */
  function LegCashFlows(periods: seq<PaymentPeriod>, legEnd: Date): (r: seq<BootstrapCashFlow>)
    ensures var rp := RatePeriods(periods);
      && |r| == |rp|
      && forall i :: 0 <= i < |rp| ==>
        && r[i].paymentDate == rp[i].paymentDate
        && r[i].paymentAmount == rp[i].forecastValue + (if rp[i].endDate == legEnd then rp[i].notional else 0.0)
  {
    var rp := RatePeriods(periods);
    seq(|rp|, i requires 0 <= i < |rp| =>
      if rp[i].endDate == legEnd then BootstrapCashFlow(rp[i].paymentDate, rp[i].forecastValue + rp[i].notional)
      else BootstrapCashFlow(rp[i].paymentDate, rp[i].forecastValue))
  }

  /** The rate found by the leg lookup: the default when there is no leg in
      that direction, and otherwise the initial rate of the leg's fixed-rate
      calculation; a leg that is not a rate-calculation leg, or does not
      calculate a fixed rate, fails the cast. */
  function LegRate(leg: Option<SwapLeg>): (r: Result<real>)
    ensures leg.None? ==> r == Ok(DefaultRate)
    ensures leg.Some? ==>
      && (r.Ok? <==> leg.value.RateCalculationSwapLeg? && leg.value.calculation.FixedRateCalculation?)
      && (r.Ok? ==> r.value == leg.value.calculation.initialRate)
    ensures r.Err? ==> r.error == ClassCast
  {
    match leg
    case None => Ok(DefaultRate)
    case Some(l) =>
      if l.RateCalculationSwapLeg? && l.calculation.FixedRateCalculation? then Ok(l.calculation.initialRate)
      else Err(ClassCast)
  }

  /** A swap is kept exactly when it has one fixed leg. */
  predicate Supported(t: Trade) {
    || (t.SwapTrade? && |FixedLegs(t.resolvedLegs)| == 1)
    || t.TermDepositTrade?
  }

  /** The cashflow set of a swap with one fixed leg: its rate payment
      periods' cashflows, valued at the leg's start date, with the rate of the
      leg lookup; reading the day count of the leg's first payment period
      fails on a leg without periods and on a first period of another kind. */
  function SwapCashFlows(legs: seq<SwapLeg>, fixedLeg: ResolvedSwapLeg): (r: Result<BootstrapCashFlows>)
    ensures r.Ok? <==>
      && LegRate(GetLeg(legs, fixedLeg.payReceive)).Ok?
      && |fixedLeg.paymentPeriods| > 0 && fixedLeg.paymentPeriods[0].RatePaymentPeriod?
    ensures r.Err? ==> r.error == (if LegRate(GetLeg(legs, fixedLeg.payReceive)).Err? then ClassCast
                                   else if |fixedLeg.paymentPeriods| == 0 then IndexOutOfBounds(0)
                                   else ClassCast)
    ensures r.Ok? ==> r.value == BootstrapCashFlows(LegCashFlows(fixedLeg.paymentPeriods, fixedLeg.endDate),
                                                    fixedLeg.startDate, LegRate(GetLeg(legs, fixedLeg.payReceive)).value)
  {
    var payments := LegCashFlows(fixedLeg.paymentPeriods, fixedLeg.endDate);
    var rate :- LegRate(GetLeg(legs, fixedLeg.payReceive));
    if |fixedLeg.paymentPeriods| == 0 then Err(IndexOutOfBounds(0))
    else if !fixedLeg.paymentPeriods[0].RatePaymentPeriod? then Err(ClassCast)
    else Ok(BootstrapCashFlows(payments, fixedLeg.startDate, rate))
  }

  /** What one trade contributes: a swap with one fixed leg its cashflow set,
      a deposit one cashflow of interest plus notional at its end date valued
      at its start date, and nothing for anything else. */
  function TradeCashFlows(t: Trade): (r: Result<Option<BootstrapCashFlows>>)
    ensures r.Ok? ==> (r.value.Some? <==> Supported(t))
    ensures !Supported(t) ==> r == Ok(None)
  {
    match t
    case SwapTrade(legs, resolvedLegs) =>
      var fixedLegs := FixedLegs(resolvedLegs);
      if |fixedLegs| != 1 then Ok(None)
      else
        var p :- SwapCashFlows(legs, fixedLegs[0]);
        Ok(Some(p))
    case TermDepositTrade(startDate, endDate, notional, interest, rate) =>
      Ok(Some(BootstrapCashFlows([BootstrapCashFlow(endDate, interest + notional)], startDate, rate)))
    case OtherTrade => Ok(None)
  }

  /** A deposit gives one cashflow of interest plus notional at its end date,
      valued at its start date, at the deposit rate; a swap with one fixed leg
      gives that leg's cashflow set or the failure of building it. */
  lemma TradeCashFlowsCases(t: Trade)
    ensures t.TermDepositTrade? ==>
      TradeCashFlows(t) == Ok(Some(BootstrapCashFlows([BootstrapCashFlow(t.endDate, t.interest + t.notional)], t.startDate, t.rate)))
    ensures Supported(t) && t.SwapTrade? ==>
      match SwapCashFlows(t.legs, FixedLegs(t.resolvedLegs)[0])
      case Err(e) => TradeCashFlows(t) == Err(e)
      case Ok(p) => TradeCashFlows(t) == Ok(Some(p))
  {
  }

  /** The loop body of `extractedPayments`: add the trade's cashflow set, if it has one. */
  function AddTrade(acc: seq<BootstrapCashFlows>, t: Trade, i: nat): Result<seq<BootstrapCashFlows>> {
    match TradeCashFlows(t)
    case Err(e) => Err(e)
    case Ok(None) => Ok(acc)
    case Ok(Some(p)) => Ok(acc + [p])
  }

  /** `extractedPayments` over the node trades (built from the quotes at quantity 1, which is not part of this model). */
  function Extracted(trades: seq<Trade>): Result<seq<BootstrapCashFlows>> {
    FoldResult([], trades, AddTrade)
  }

  method ExtractedPayments(trades: seq<Trade>) returns (r: Result<seq<BootstrapCashFlows>>)
    ensures r == Extracted(trades)
  {
    var productCashFlows: seq<BootstrapCashFlows> := [];
    for k := 0 to |trades|
      invariant FoldResult([], trades[..k], AddTrade) == Ok(productCashFlows)
    {
      FoldResultSnoc([], trades, k, AddTrade);
      var trade := trades[k];
      if trade.SwapTrade? {
        var legs := FixedLegs(trade.resolvedLegs);
        if |legs| != 1 {
          continue;
        }
        var fixedLeg := legs[0];
        var spotDate := fixedLeg.startDate;
        var rate := DefaultRate;
        var payments := LegCashFlows(fixedLeg.paymentPeriods, fixedLeg.endDate);
        var leg := GetLeg(trade.legs, fixedLeg.payReceive);
        if leg.Some? {
          if !(leg.value.RateCalculationSwapLeg? && leg.value.calculation.FixedRateCalculation?) {
            FoldResultErrSticks([], trades, k + 1, AddTrade);
            return Err(ClassCast);
          }
          rate := leg.value.calculation.initialRate;
        }
        if |fixedLeg.paymentPeriods| == 0 {
          FoldResultErrSticks([], trades, k + 1, AddTrade);
          return Err(IndexOutOfBounds(0));
        }
        if !fixedLeg.paymentPeriods[0].RatePaymentPeriod? {
          FoldResultErrSticks([], trades, k + 1, AddTrade);
          return Err(ClassCast);
        }
        productCashFlows := productCashFlows + [BootstrapCashFlows(payments, spotDate, rate)];
      } else if trade.TermDepositTrade? {
        productCashFlows := productCashFlows + [BootstrapCashFlows(
          [BootstrapCashFlow(trade.endDate, trade.interest + trade.notional)], trade.startDate, trade.rate)];
      } else {
        continue;
      }
    }
    assert trades[..|trades|] == trades;
    r := Ok(productCashFlows);
  }

  /** The extraction of the first `k` trades succeeds exactly when each of theirs does. */
  lemma {:induction false} ExtractedPrefixOk(trades: seq<Trade>, k: nat)
    requires k <= |trades|
    ensures Extracted(trades[..k]).Ok? <==> forall i :: 0 <= i < k ==> TradeCashFlows(trades[i]).Ok?
  {
    if k > 0 {
      ExtractedPrefixOk(trades, k - 1);
      FoldResultSnoc([], trades, k - 1, AddTrade);
      if Extracted(trades[..k]).Ok? {
        forall i | 0 <= i < k ensures TradeCashFlows(trades[i]).Ok? {
          if i == k - 1 {
            assert Extracted(trades[..k - 1]).Ok?;
          }
        }
      }
    } else {
      assert trades[..0] == [];
    }
  }

  /** A successful extraction of the first `k` trades yields one cashflow set
      per supported trade, in order. */
  lemma {:induction false} ExtractedPrefixKept(trades: seq<Trade>, k: nat)
    requires k <= |trades|
    requires Extracted(trades[..k]).Ok?
    ensures var r := Extracted(trades[..k]).value;
      var kept := Filter(trades[..k], Supported);
      && |r| == |kept|
      && forall i :: 0 <= i < |kept| ==> TradeCashFlows(kept[i]) == Ok(Some(r[i]))
  {
    if k > 0 {
      FoldResultSnoc([], trades, k - 1, AddTrade);
      FilterSnoc(trades, k - 1, Supported);
      var prev := Extracted(trades[..k - 1]);
      assert prev.Ok?;
      ExtractedPrefixKept(trades, k - 1);
      var acc, t := prev.value, trades[k - 1];
      var r := Extracted(trades[..k]).value;
      var kept := Filter(trades[..k], Supported);
      var keptPrev := Filter(trades[..k - 1], Supported);
      assert Extracted(trades[..k]) == AddTrade(acc, t, k - 1);
      if Supported(t) {
        var p := TradeCashFlows(t).value.value;
        assert r == acc + [p];
        assert kept == keptPrev + [t];
        forall i | 0 <= i < |kept| ensures TradeCashFlows(kept[i]) == Ok(Some(r[i])) {
          if i < |keptPrev| {
            assert kept[i] == keptPrev[i] && r[i] == acc[i];
          }
        }
      } else {
        assert r == acc && kept == keptPrev;
      }
    } else {
      assert trades[..0] == [];
    }
  }

  /** `extractedPayments` over all trades. */
  lemma ExtractedKeepsSupportedTrades(trades: seq<Trade>)
    ensures var r := Extracted(trades);
      var kept := Filter(trades, Supported);
      && (r.Ok? <==> forall i :: 0 <= i < |trades| ==> TradeCashFlows(trades[i]).Ok?)
      && (r.Ok? ==>
            && |r.value| == |kept|
            && forall i :: 0 <= i < |kept| ==> TradeCashFlows(kept[i]) == Ok(Some(r.value[i])))
  {
    assert trades[..|trades|] == trades;
    ExtractedPrefixOk(trades, |trades|);
    if Extracted(trades).Ok? {
      ExtractedPrefixKept(trades, |trades|);
    }
  }

  // ------------------------------------------------------------- failures

  /** The exceptions a curve bootstrap can raise: a failed cast or an index
      outside a list during the extraction, an index outside the curve, or a
      root that was not found. */
  predicate CurveFailure(e: Error) {
    e.ClassCast? || e.IndexOutOfBounds? || e.RootNotFound?
  }

  /** The extraction fails only with a failed cast or an index outside a list. */
  lemma ExtractedFailures(trades: seq<Trade>)
    ensures Extracted(trades).Err? ==> Extracted(trades).error.ClassCast? || Extracted(trades).error.IndexOutOfBounds?
  {
    FoldResultErrors([], trades, AddTrade, (e: Error) => e.ClassCast? || e.IndexOutOfBounds?);
  }

  /** The node loop fails only with an index outside the curve or a root that was not found. */
  lemma CurveSpecFailures(anchor: Date, payments: seq<BootstrapCashFlows>, curveName: string, dc: DayCount,
                          order: CashFlowsOrder, coll: Collaborators, rf: RootFinder)
    ensures CurveSpec(anchor, payments, curveName, dc, order, coll, rf).Err? ==>
      CurveSpec(anchor, payments, curveName, dc, order, coll, rf).error.IndexOutOfBounds?
      || CurveSpec(anchor, payments, curveName, dc, order, coll, rf).error.RootNotFound?
  {
    var sorted := SortPayments(payments, order);
    var step := PricerStep(anchor, dc, order, coll, rf);
    var raised := (e: Error) => e.IndexOutOfBounds? || e.RootNotFound?;
    forall a, x, i | step(a, x, i).Err? ensures raised(step(a, x, i).error) {
      assert step(a, x, i) == NodeStep(anchor, a, x, i, dc, order, coll, rf);
    }
    FoldResultErrors(InitialCurve(anchor, sorted, curveName, dc, order, coll), sorted, step, raised);
  }
}
