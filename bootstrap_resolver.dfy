/** The FR007 bootstrap of `CfetsBootStrapResolver`: nodes (spot lag, tenor,
    business-day convention, payment frequency, market rate) are sorted by
    maturity, and each node adds one point to a zero-rate curve. The point's
    rate is solved so that the node's fixed-leg cashflows, discounted to the
    spot date on the curve extended by that point, are worth par. */
module BootStrapResolver {
  import opened Basics
  import opened Periods
  import opened Sorting
  import opened Curves
  import opened RootFinding
  import opened Discounting

  /** `EPS`, declared by the resolver and not used by it. */
  const Eps: real := 0.000001
  /** Absolute and relative tolerance of the resolver's Newton root finder. */
  const Tolerance: real := 0.0000000001
  const MaxSteps: nat := 100

  /** The resolver's root finder: Newton with the tolerances and the step budget above. */
  function ResolverRootFinder(step: (real -> real, real) -> real): (rf: RootFinder)
    ensures rf.absoluteTolerance == rf.relativeTolerance == Tolerance && rf.maxSteps == MaxSteps
  {
    RootFinder(Tolerance, Tolerance, MaxSteps, step)
  }

  // ---------------------------------------------------------------- nodes

  datatype Node = Node(
    spotPeriod: Period,
    spotToMature: Period,
    bdc: BusinessDayConvention,
    frequency: Frequency,
    rate: real)

  /** `getMaturePeriod`: spot lag plus tenor, normalized. */
  function MaturePeriod(n: Node): Period {
    Normalized(Plus(n.spotPeriod, n.spotToMature))
  }

  /** The first non-zero field of a period: years, then months, then days. */
  function FirstNonZero(p: Period): int {
    if p.years != 0 then p.years
    else if p.months != 0 then p.months
    else p.days
  }

  /** After normalization the first non-zero field has the sign of the month
      total, or of the days when there are no months. */
  lemma FirstNonZeroSign(p: Period)
    ensures var c := FirstNonZero(Normalized(p));
      && (c < 0 <==> TotalMonths(p) < 0 || (TotalMonths(p) == 0 && p.days < 0))
      && (c == 0 <==> TotalMonths(p) == 0 && p.days == 0)
  {
    NormalizedSign(p);
  }

  /** `Node.compareTo`: the first non-zero field of the normalized difference of
      the mature periods. */
  function CompareNodes(a: Node, b: Node): int {
    FirstNonZero(Normalized(Minus(MaturePeriod(a), MaturePeriod(b))))
  }

  /** What nodes are ordered by: the months of spot lag plus tenor, then its days. */
  function MatureKey(n: Node): (int, int) {
    (TotalMonths(n.spotPeriod) + TotalMonths(n.spotToMature), n.spotPeriod.days + n.spotToMature.days)
  }

  predicate KeyBelow(a: (int, int), b: (int, int)) {
    a.0 < b.0 || (a.0 == b.0 && a.1 < b.1)
  }

  predicate KeyAtMost(a: (int, int), b: (int, int)) {
    a.0 < b.0 || (a.0 == b.0 && a.1 <= b.1)
  }

  /** Nodes compare by the lexicographic order of their keys: months first, then days. */
  lemma CompareNodesByKey(a: Node, b: Node)
    ensures CompareNodes(a, b) < 0 <==> KeyBelow(MatureKey(a), MatureKey(b))
    ensures CompareNodes(a, b) == 0 <==> MatureKey(a) == MatureKey(b)
    ensures CompareNodes(a, b) <= 0 <==> KeyAtMost(MatureKey(a), MatureKey(b))
  {
    var minus := Minus(MaturePeriod(a), MaturePeriod(b));
    assert TotalMonths(minus) == MatureKey(a).0 - MatureKey(b).0;
    assert minus.days == MatureKey(a).1 - MatureKey(b).1;
    FirstNonZeroSign(minus);
  }

  lemma CompareNodesAntisymmetric()
    ensures Antisymmetric(CompareNodes)
  {
    forall a: Node, b: Node ensures CompareNodes(a, b) == -CompareNodes(b, a) {
      var m := Normalized(Minus(MaturePeriod(a), MaturePeriod(b)));
      var m' := Normalized(Minus(MaturePeriod(b), MaturePeriod(a)));
      assert TotalMonths(m') == -TotalMonths(m) && m'.days == -m.days;
      NormalizedUnique(Minus(MaturePeriod(b), MaturePeriod(a)), Period(-m.years, -m.months, -m.days));
    }
  }

  lemma CompareNodesTransitiveAt(a: Node, b: Node, c: Node)
    requires CompareNodes(a, b) <= 0 && CompareNodes(b, c) <= 0
    ensures CompareNodes(a, c) <= 0
  {
    CompareNodesByKey(a, b);
    CompareNodesByKey(b, c);
    CompareNodesByKey(a, c);
  }

  lemma CompareNodesTransitive()
    ensures forall a, b, c :: CompareNodes(a, b) <= 0 && CompareNodes(b, c) <= 0 ==> CompareNodes(a, c) <= 0
  {
    forall a: Node, b: Node, c: Node | CompareNodes(a, b) <= 0 && CompareNodes(b, c) <= 0
      ensures CompareNodes(a, c) <= 0
    {
      CompareNodesTransitiveAt(a, b, c);
    }
  }

  lemma CompareNodesTransitivePredicate()
    ensures Transitive(CompareNodes)
  {
    CompareNodesTransitive();
  }

  /** `Collections.sort(curveNodes)` on a copy of the nodes. */
  function SortNodes(nodes: seq<Node>): seq<Node> {
    Sort(nodes, CompareNodes)
  }

  /** The sorted nodes are in order between all pairs. */
  lemma SortNodesSorted(nodes: seq<Node>)
    ensures Sorted(SortNodes(nodes), CompareNodes)
  {
    CompareNodesAntisymmetric();
    CompareNodesTransitivePredicate();
    SortSorted(nodes, CompareNodes);
  }

  /** The sorted nodes are the given ones, in non-decreasing order of maturity keys. */
  lemma SortNodesOrdered(nodes: seq<Node>)
    ensures multiset(SortNodes(nodes)) == multiset(nodes)
    ensures var s := SortNodes(nodes);
      forall i, j :: 0 <= i < j < |s| ==> KeyAtMost(MatureKey(s[i]), MatureKey(s[j]))
  {
    var s := SortNodes(nodes);
    SortNodesSorted(nodes);
    forall i, j | 0 <= i < j < |s| ensures KeyAtMost(MatureKey(s[i]), MatureKey(s[j])) {
      assert CompareNodes(s[i], s[j]) <= 0;
      CompareNodesByKey(s[i], s[j]);
    }
  }

  /** No two different nodes have the same spot lag plus tenor. */
  ghost predicate DistinctMaturities(nodes: seq<Node>) {
    forall a, b :: a in nodes && b in nodes && MatureKey(a) == MatureKey(b) ==> a == b
  }

  /** Sorting makes the order of nodes with distinct maturities irrelevant. */
  lemma SortedNodesUnique(s: seq<Node>, t: seq<Node>)
    requires multiset(s) == multiset(t)
    requires DistinctMaturities(s)
    ensures SortNodes(s) == SortNodes(t)
  {
    var ss, st := SortNodes(s), SortNodes(t);
    SortNodesSorted(s);
    SortNodesSorted(t);
    assert Discriminating(ss, CompareNodes) by {
      forall a, b | a in ss && b in ss && CompareNodes(a, b) == 0 ensures a == b {
        assert a in multiset(ss) && b in multiset(ss);
        assert a in s && b in s;
        CompareNodesByKey(a, b);
      }
    }
    CompareNodesAntisymmetric();
    SortedPermutationsEqual(ss, st, CompareNodes);
  }

  // ------------------------------------------------------------ cashflows

  /** Java's `(int)` cast of a `double`: truncation toward zero. */
  function TruncateToInt(r: real): (n: int)
    ensures r >= 0.0 ==> n as real <= r < n as real + 1.0
    ensures r <= 0.0 ==> n as real - 1.0 < r <= n as real
  {
    if r >= 0.0 then r.Floor else -((-r).Floor)
  }

  /** `CashFlow.compareTo`: the difference of payment year fractions, in
      hundredths, truncated toward zero. */
  function CompareCashFlows(a: CashFlow, b: CashFlow): int {
    TruncateToInt((a.paymentDateYearFraction - b.paymentDateYearFraction) * 100.0)
  }

  /** A cashflow sorts after another only when it pays at least a hundredth of a year later. */
  lemma CompareCashFlowsMeaning(a: CashFlow, b: CashFlow)
    ensures CompareCashFlows(a, b) > 0 <==> a.paymentDateYearFraction - b.paymentDateYearFraction >= 0.01
    ensures CompareCashFlows(a, b) < 0 <==> b.paymentDateYearFraction - a.paymentDateYearFraction >= 0.01
    ensures CompareCashFlows(a, b) == -CompareCashFlows(b, a)
  {
  }

  lemma CompareCashFlowsAntisymmetric()
    ensures Antisymmetric(CompareCashFlows)
  {
    forall a: CashFlow, b: CashFlow ensures CompareCashFlows(a, b) == -CompareCashFlows(b, a) {
      CompareCashFlowsMeaning(a, b);
    }
  }

  /** The cashflow order is coarse: payments less than a hundredth of a year
      apart compare equal, so "compares at most zero" is not transitive. */
  lemma CompareCashFlowsNotTransitive()
    ensures !Transitive(CompareCashFlows)
  {
    var a, b, c := CashFlow(0.018, 1.0), CashFlow(0.009, 1.0), CashFlow(0.0, 1.0);
    assert CompareCashFlows(a, b) == 0 && CompareCashFlows(b, c) == 0;
    assert CompareCashFlows(a, c) == 1;
  }

  /** `CashFlows`: the spot year fraction and a sorted private copy of the
      cashflows; a null or empty list becomes an empty one. */
  datatype CashFlows = CashFlows(spotDateYearFraction: real, cashFlows: seq<CashFlow>)

  function NewCashFlows(spotDateYearFraction: real, cashFlows: Option<seq<CashFlow>>): CashFlows {
    var copy := if cashFlows.None? || cashFlows.value == [] then [] else cashFlows.value;
    CashFlows(spotDateYearFraction, Sort(copy, CompareCashFlows))
  }

  /** The stored list holds exactly the given cashflows, neighbours in order,
      and a list already in order is kept as it is. */
  lemma NewCashFlowsSortedCopy(spotDateYearFraction: real, cashFlows: Option<seq<CashFlow>>)
    ensures var r := NewCashFlows(spotDateYearFraction, cashFlows);
      && r.spotDateYearFraction == spotDateYearFraction
      && multiset(r.cashFlows) == (if cashFlows.Some? then multiset(cashFlows.value) else multiset{})
      && AdjacentSorted(r.cashFlows, CompareCashFlows)
      && (cashFlows.Some? && AdjacentSorted(cashFlows.value, CompareCashFlows) ==> r.cashFlows == cashFlows.value)
  {
    var copy := if cashFlows.None? || cashFlows.value == [] then [] else cashFlows.value;
    CompareCashFlowsAntisymmetric();
    SortAdjacentSorted(copy, CompareCashFlows);
    if cashFlows.Some? && AdjacentSorted(cashFlows.value, CompareCashFlows) {
      SortKeepsSorted(copy, CompareCashFlows);
    }
  }

  // ------------------------------------------------------------- schedule

  /** The spot date: the spot lag added to the anchor, rolled FOLLOWING. */
  function SpotDate(anchor: Date, node: Node, coll: Collaborators): Date {
    coll.Adjust(anchor, node.spotPeriod, Following, NoAddition)
  }

  /** Payment dates roll month-end to month-end when the tenor has whole months. */
  function PaymentAddition(node: Node): AdditionConvention {
    if TotalMonths(node.spotToMature) > 0 then LastBusinessDay else NoAddition
  }

  function MatureDate(anchor: Date, node: Node, coll: Collaborators): Date {
    coll.Adjust(SpotDate(anchor, node, coll), node.spotToMature, node.bdc, PaymentAddition(node))
  }

  function MatureYearFraction(anchor: Date, node: Node, dc: DayCount, coll: Collaborators): real {
    coll.YearFraction(dc, anchor, MatureDate(anchor, node, coll))
  }

  /** The end of the accrual period that starts at `start`: one frequency later, adjusted. */
  function AccrualEnd(node: Node, coll: Collaborators, start: Date): Date {
    coll.Adjust(start, node.frequency, node.bdc, PaymentAddition(node))
  }

  /** The interest accrued over a year fraction at a simple rate. */
  function Interest(accrualYearFraction: real, rate: real): real {
    accrualYearFraction * rate
  }

  /** The coupon paid at the end of the accrual period that starts at `start`. */
  function Coupon(anchor: Date, node: Node, dc: DayCount, coll: Collaborators, start: Date): CashFlow {
    var end := AccrualEnd(node, coll, start);
    CashFlow(coll.YearFraction(dc, anchor, end), Interest(coll.YearFraction(dc, start, end), node.rate))
  }

  /** The date reached from `start` after `k` accrual periods. */
  function AccrualDate(node: Node, coll: Collaborators, start: Date, k: nat): Date
    decreases k
  {
    if k == 0 then start else AccrualDate(node, coll, AccrualEnd(node, coll, start), k - 1)
  }

  /** The coupon cashflows of the multi-payment branch, and where the last accrual starts. */
  datatype CouponRun = CouponRun(coupons: seq<CashFlow>, lastStart: Date)

  /** A measure that drops while the remaining period is neither negative nor zero. */
  function LeftMeasure(left: Period): nat {
    if IsNegative(left) || IsZero(left) then 0 else TotalMonths(left) + left.days
  }

  /** `coupons` paid before the run. */
  function Concat(coupons: seq<CashFlow>, run: CouponRun): CouponRun {
    CouponRun(coupons + run.coupons, run.lastStart)
  }

  /** One coupon per accrual period while the remaining period is positive. */
  function Coupons(anchor: Date, node: Node, dc: DayCount, coll: Collaborators, left: Period, start: Date): CouponRun
    decreases LeftMeasure(left)
  {
    if IsNegative(left) || IsZero(left) then CouponRun([], start)
    else Concat([Coupon(anchor, node, dc, coll, start)],
                Coupons(anchor, node, dc, coll, Normalized(Minus(left, node.frequency)), AccrualEnd(node, coll, start)))
  }

  lemma ConcatAssociative(a: seq<CashFlow>, b: seq<CashFlow>, run: CouponRun)
    ensures Concat(a, Concat(b, run)) == Concat(a + b, run)
  {
    assert a + (b + run.coupons) == (a + b) + run.coupons;
  }

  datatype Schedule = Schedule(spotDateYearFraction: real, matureYearFraction: real, cashFlows: seq<CashFlow>)

  /** The coupons of the multi-payment branch: accrual periods step from the
      spot date while the tenor less one frequency has something left. */
  function CouponsFromSpot(anchor: Date, node: Node, dc: DayCount, coll: Collaborators): CouponRun {
    Coupons(anchor, node, dc, coll, Normalized(Minus(node.spotToMature, node.frequency)), SpotDate(anchor, node, coll))
  }

  /** The final cashflow: paid at maturity, the notional plus the coupon
      accrued from `lastStart` to the maturity date. */
  function FinalCashFlow(anchor: Date, node: Node, dc: DayCount, coll: Collaborators, lastStart: Date): CashFlow {
    CashFlow(MatureYearFraction(anchor, node, dc, coll),
      1.0 + Interest(coll.YearFraction(dc, lastStart, MatureDate(anchor, node, coll)), node.rate))
  }

  /** The node's cashflows: one payment of notional plus interest when the
      frequency is the tenor, otherwise coupons and a final notional plus coupon. */
  function ScheduleOf(anchor: Date, node: Node, dc: DayCount, coll: Collaborators): Schedule {
    Schedule(
      coll.YearFraction(dc, anchor, SpotDate(anchor, node, coll)),
      MatureYearFraction(anchor, node, dc, coll),
      if node.frequency == node.spotToMature then [FinalCashFlow(anchor, node, dc, coll, SpotDate(anchor, node, coll))]
      else (CouponsFromSpot(anchor, node, dc, coll).coupons
        + [FinalCashFlow(anchor, node, dc, coll, CouponsFromSpot(anchor, node, dc, coll).lastStart)]))
  }

  /** The coupon loop of `bootstrap`'s multi-payment branch: the coupons, and
      the start of the final accrual period. */
  method PayCoupons(anchor: Date, node: Node, dc: DayCount, coll: Collaborators, spotDate: Date)
    returns (cashFlows: seq<CashFlow>, accrualStartDate: Date)
    ensures CouponRun(cashFlows, accrualStartDate)
         == Coupons(anchor, node, dc, coll, Normalized(Minus(node.spotToMature, node.frequency)), spotDate)
  {
    cashFlows := [];
    var leftPeriod := Normalized(Minus(node.spotToMature, node.frequency));
    accrualStartDate := spotDate;
    ghost var all := Coupons(anchor, node, dc, coll, leftPeriod, accrualStartDate);
    while !(IsNegative(leftPeriod) || IsZero(leftPeriod))
      invariant Concat(cashFlows, Coupons(anchor, node, dc, coll, leftPeriod, accrualStartDate)) == all
      decreases LeftMeasure(leftPeriod)
    {
      var accrualEndDate := coll.Adjust(accrualStartDate, node.frequency, node.bdc, PaymentAddition(node));
      var accrualYearFraction := coll.YearFraction(dc, accrualStartDate, accrualEndDate);
      var paymentDateYearFraction := coll.YearFraction(dc, anchor, accrualEndDate);
      CouponsStep(anchor, node, dc, coll, leftPeriod, accrualStartDate, cashFlows);
      LeftMeasureDecreases(leftPeriod, node.frequency);
      assert CashFlow(paymentDateYearFraction, Interest(accrualYearFraction, node.rate))
          == Coupon(anchor, node, dc, coll, accrualStartDate);
      cashFlows := cashFlows + [CashFlow(paymentDateYearFraction, Interest(accrualYearFraction, node.rate))];
      accrualStartDate := accrualEndDate;
      leftPeriod := Normalized(Minus(leftPeriod, node.frequency));
    }
    CouponsDone(anchor, node, dc, coll, leftPeriod, accrualStartDate, cashFlows);
  }

  /** The coupon loop stops once nothing positive is left: the run still to come is empty. */
  lemma CouponsDone(anchor: Date, node: Node, dc: DayCount, coll: Collaborators, left: Period, start: Date, paid: seq<CashFlow>)
    requires IsNegative(left) || IsZero(left)
    ensures Concat(paid, Coupons(anchor, node, dc, coll, left, start)) == CouponRun(paid, start)
  {
    assert paid + [] == paid;
  }

  /** Taking one frequency off a remaining period that is neither negative nor zero lowers its measure. */
  lemma LeftMeasureDecreases(left: Period, f: Frequency)
    requires !(IsNegative(left) || IsZero(left))
    ensures LeftMeasure(Normalized(Minus(left, f))) < LeftMeasure(left)
  {
  }

  /** One turn of the coupon loop: the coupon of the period starting at `start`
      moves from the run still to come to the coupons paid so far. */
  lemma CouponsStep(anchor: Date, node: Node, dc: DayCount, coll: Collaborators, left: Period, start: Date, paid: seq<CashFlow>)
    requires !(IsNegative(left) || IsZero(left))
    ensures Concat(paid, Coupons(anchor, node, dc, coll, left, start))
         == Concat(paid + [Coupon(anchor, node, dc, coll, start)],
                   Coupons(anchor, node, dc, coll, Normalized(Minus(left, node.frequency)), AccrualEnd(node, coll, start)))
  {
    ConcatAssociative(paid, [Coupon(anchor, node, dc, coll, start)],
      Coupons(anchor, node, dc, coll, Normalized(Minus(left, node.frequency)), AccrualEnd(node, coll, start)));
  }

  /** The cashflow block of `bootstrap`. */
  method BuildSchedule(anchor: Date, node: Node, dc: DayCount, coll: Collaborators) returns (s: Schedule)
    ensures s == ScheduleOf(anchor, node, dc, coll)
  {
    var spotDate := coll.Adjust(anchor, node.spotPeriod, Following, NoAddition);
    var matureDate := coll.Adjust(spotDate, node.spotToMature, node.bdc, PaymentAddition(node));
    var spotDateYearFraction := coll.YearFraction(dc, anchor, spotDate);
    var matureYearFraction := coll.YearFraction(dc, anchor, matureDate);
    assert spotDate == SpotDate(anchor, node, coll) && matureDate == MatureDate(anchor, node, coll);
    var cashFlows: seq<CashFlow> := [];
    if node.frequency == node.spotToMature {
      var accrualYearFraction := coll.YearFraction(dc, spotDate, matureDate);
      var payment := 1.0 + node.rate * accrualYearFraction;
      assert CashFlow(matureYearFraction, payment) == FinalCashFlow(anchor, node, dc, coll, spotDate);
      cashFlows := cashFlows + [CashFlow(matureYearFraction, payment)];
    } else {
      var accrualStartDate;
      cashFlows, accrualStartDate := PayCoupons(anchor, node, dc, coll, spotDate);
      var accrualYearFraction := coll.YearFraction(dc, accrualStartDate, matureDate);
      var paymentDateYearFraction := coll.YearFraction(dc, anchor, matureDate);
      assert CashFlow(paymentDateYearFraction, 1.0 + Interest(accrualYearFraction, node.rate))
          == FinalCashFlow(anchor, node, dc, coll, accrualStartDate);
      cashFlows := cashFlows + [CashFlow(paymentDateYearFraction, 1.0 + Interest(accrualYearFraction, node.rate))];
    }
    ScheduleOfParts(anchor, node, dc, coll);
    s := Schedule(spotDateYearFraction, matureYearFraction, cashFlows);
  }

  /** The parts of a schedule, one branch at a time. */
  lemma ScheduleOfParts(anchor: Date, node: Node, dc: DayCount, coll: Collaborators)
    ensures var s := ScheduleOf(anchor, node, dc, coll);
      && s.spotDateYearFraction == coll.YearFraction(dc, anchor, SpotDate(anchor, node, coll))
      && s.matureYearFraction == MatureYearFraction(anchor, node, dc, coll)
      && (node.frequency == node.spotToMature ==>
            s.cashFlows == [FinalCashFlow(anchor, node, dc, coll, SpotDate(anchor, node, coll))])
      && (node.frequency != node.spotToMature ==>
            s.cashFlows == CouponsFromSpot(anchor, node, dc, coll).coupons
                           + [FinalCashFlow(anchor, node, dc, coll, CouponsFromSpot(anchor, node, dc, coll).lastStart)])
  {
  }

  /** The k-th coupon is the coupon of the k-th accrual period from the start,
      and the final accrual period starts where the coupons stop. */
  lemma {:induction false} CouponsAccrue(anchor: Date, node: Node, dc: DayCount, coll: Collaborators, left: Period, start: Date)
    ensures var r := Coupons(anchor, node, dc, coll, left, start);
      && r.lastStart == AccrualDate(node, coll, start, |r.coupons|)
      && forall k :: 0 <= k < |r.coupons| ==>
           r.coupons[k] == Coupon(anchor, node, dc, coll, AccrualDate(node, coll, start, k))
    decreases LeftMeasure(left)
  {
    if !(IsNegative(left) || IsZero(left)) {
      var end := AccrualEnd(node, coll, start);
      var left' := Normalized(Minus(left, node.frequency));
      CouponsAccrue(anchor, node, dc, coll, left', end);
      var r := Coupons(anchor, node, dc, coll, left, start);
      var rest := Coupons(anchor, node, dc, coll, left', end);
      assert r.coupons == [Coupon(anchor, node, dc, coll, start)] + rest.coupons;
      forall k | 0 <= k < |r.coupons|
        ensures r.coupons[k] == Coupon(anchor, node, dc, coll, AccrualDate(node, coll, start, k))
      {
        if k > 0 {
          assert r.coupons[k] == rest.coupons[k - 1];
          assert AccrualDate(node, coll, start, k) == AccrualDate(node, coll, end, k - 1);
        }
      }
    }
  }

  /** Every cashflow but the last is the coupon of one accrual period, the
      periods following each other from the spot date; the last cashflow pays,
      at maturity, the notional plus the coupon from the end of those periods
      to the maturity date. */
  lemma ScheduleShape(anchor: Date, node: Node, dc: DayCount, coll: Collaborators)
    ensures var s := ScheduleOf(anchor, node, dc, coll);
      var n := |s.cashFlows| - 1;
      var spot := SpotDate(anchor, node, coll);
      && n >= 0
      && (node.frequency == node.spotToMature ==> n == 0)
      && s.spotDateYearFraction == coll.YearFraction(dc, anchor, spot)
      && s.matureYearFraction == MatureYearFraction(anchor, node, dc, coll)
      && (forall k :: 0 <= k < n ==> s.cashFlows[k] == Coupon(anchor, node, dc, coll, AccrualDate(node, coll, spot, k)))
      && s.cashFlows[n] == CashFlow(s.matureYearFraction,
           1.0 + Interest(coll.YearFraction(dc, AccrualDate(node, coll, spot, n), MatureDate(anchor, node, coll)), node.rate))
  {
    var spot := SpotDate(anchor, node, coll);
    if node.frequency != node.spotToMature {
      CouponsAccrue(anchor, node, dc, coll, Normalized(Minus(node.spotToMature, node.frequency)), spot);
    }
  }

  /** Starting from a remaining period worth `j` frequencies, exactly `j` coupons are paid. */
  lemma {:induction false} CouponCount(anchor: Date, node: Node, dc: DayCount, coll: Collaborators, x: Period, start: Date, j: nat)
    requires TotalMonths(x) == j * TotalMonths(node.frequency) && x.days == j * node.frequency.days
    ensures |Coupons(anchor, node, dc, coll, Normalized(x), start).coupons| == j
    decreases j
  {
    NormalizedMultiple(node.frequency, x, j);
    if j > 0 {
      var left := Normalized(x);
      var x' := Minus(left, node.frequency);
      assert TotalMonths(x') == (j - 1) * TotalMonths(node.frequency);
      assert x'.days == (j - 1) * node.frequency.days;
      CouponCount(anchor, node, dc, coll, x', AccrualEnd(node, coll, start), j - 1);
    }
  }

  /** A tenor of `k` whole frequencies gives `k` cashflows (`k - 1` coupons and a final one). */
  lemma ScheduleCountForMultiple(anchor: Date, node: Node, dc: DayCount, coll: Collaborators, k: nat)
    requires k > 0 && node.spotToMature == Times(node.frequency, k)
    ensures |ScheduleOf(anchor, node, dc, coll).cashFlows| == k
  {
    var f := node.frequency;
    if node.frequency == node.spotToMature {
      TimesIdentity(f, k);
    } else {
      var x := Minus(node.spotToMature, f);
      assert TotalMonths(x) == (k - 1) * TotalMonths(f) by {
        assert TotalMonths(x) == k * TotalMonths(f) - TotalMonths(f);
      }
      assert x.days == (k - 1) * f.days;
      CouponCount(anchor, node, dc, coll, x, SpotDate(anchor, node, coll), k - 1);
    }
  }

  /** A tenor shorter than the frequency in months or in days (a one-month
      deposit quoted with weekly frequency, say) pays a single cashflow. */
  lemma ScheduleShortTenor(anchor: Date, node: Node, dc: DayCount, coll: Collaborators)
    requires node.frequency != node.spotToMature
    requires TotalMonths(node.spotToMature) < TotalMonths(node.frequency) || node.spotToMature.days < node.frequency.days
    ensures |ScheduleOf(anchor, node, dc, coll).cashFlows| == 1
  {
    NormalizedSign(Minus(node.spotToMature, node.frequency));
  }

  // ----------------------------------------------------------- curve nodes

  /** `appendNode`: the curve with one more point at the end. */
  function AppendNode(c: Curve, x: real, y: real): (r: Curve)
    ensures SameSettings(r, c)
    ensures |r.xValues| == |c.xValues| + 1 && r.xValues[..|c.xValues|] == c.xValues && r.xValues[|c.xValues|] == x
    ensures |r.yValues| == |c.yValues| + 1 && r.yValues[..|c.yValues|] == c.yValues && r.yValues[|c.yValues|] == y
  {
    Curve(c.interpolator, c.extrapolatorLeft, c.extrapolatorRight, c.metadata, c.xValues + [x], c.yValues + [y])
  }

  /** `appendNodeAt`: the first node replaces the placeholder curve by a flat
      two-point curve, the second replaces that curve's artificial second point,
      later nodes are appended. */
  function AppendNodeAt(c: Curve, x: real, y: real, currentIndex: nat): (r: Curve)
    requires currentIndex == 1 ==> NonEmpty(c)
    ensures SameSettings(r, c)
    ensures currentIndex == 0 ==> r.xValues == [x, x + 1.0] && r.yValues == [y, y]
    ensures currentIndex == 1 ==> r.xValues == [c.xValues[0], x] && r.yValues == [c.yValues[0], y]
    ensures currentIndex >= 2 ==> r == AppendNode(c, x, y)
    ensures currentIndex <= 1 ==> |r.xValues| == |r.yValues| == 2
  {
    if currentIndex == 0 then
      Curve(c.interpolator, c.extrapolatorLeft, c.extrapolatorRight, c.metadata, [x, x + 1.0], [y, y])
    else if currentIndex == 1 then
      Curve(c.interpolator, c.extrapolatorLeft, c.extrapolatorRight, c.metadata, [c.xValues[0], x], [c.yValues[0], y])
    else AppendNode(c, x, y)
  }

  /** What `appendNodeAt` does to the points, without the solved rate: position
      0 gives two points, `x` and one year later, at one rate; position 1 keeps
      the first point and puts `x` second; later positions append `x`. */
  predicate Extends(known: Curve, next: Curve, x: real, currentIndex: nat) {
    && SameSettings(next, known)
    && (currentIndex == 0 ==>
          && next.xValues == [x, x + 1.0]
          && |next.yValues| == 2 && next.yValues[1] == next.yValues[0])
    && (currentIndex == 1 ==>
          && |known.xValues| > 0 && |known.yValues| > 0
          && next.xValues == [known.xValues[0], x]
          && |next.yValues| == 2 && next.yValues[0] == known.yValues[0])
    && (currentIndex >= 2 ==>
          && next.xValues == known.xValues + [x]
          && |next.yValues| == |known.yValues| + 1
          && next.yValues[..|known.yValues|] == known.yValues)
  }

  lemma AppendNodeAtExtends(c: Curve, x: real, y: real, currentIndex: nat)
    requires currentIndex == 1 ==> NonEmpty(c)
    ensures Extends(c, AppendNodeAt(c, x, y, currentIndex), x, currentIndex)
  {
  }

  // ------------------------------------------------------------ calibration

  datatype CalibrationFun = CalibrationFun(
    anchor: Date,
    knownCurve: Curve,
    payments: CashFlows,
    targetPointYearFraction: real,
    currentIndex: nat)

  predicate CanAppend(fun: CalibrationFun) {
    fun.currentIndex == 1 ==> NonEmpty(fun.knownCurve)
  }

  /** `CalibrationFun.apply` at a guess: the spot value, on the curve with the
      guessed point added, of the node's cashflows, minus par. */
  function Residual(fun: CalibrationFun, guess: real, coll: Collaborators): real
    requires CanAppend(fun)
  {
    var target := AppendNodeAt(fun.knownCurve, fun.targetPointYearFraction, guess, fun.currentIndex);
    var spotDf := coll.DiscountFactor(fun.anchor, target, fun.payments.spotDateYearFraction);
    SpotValue(fun.anchor, fun.payments.cashFlows, target, spotDf, coll) - 1.0
  }

  /** Reordering the cashflows leaves the residual unchanged. */
  lemma ResidualIgnoresCashFlowOrder(fun: CalibrationFun, cfs: seq<CashFlow>, guess: real, coll: Collaborators)
    requires CanAppend(fun)
    requires multiset(cfs) == multiset(fun.payments.cashFlows)
    ensures Residual(fun.(payments := fun.payments.(cashFlows := cfs)), guess, coll) == Residual(fun, guess, coll)
  {
    var target := AppendNodeAt(fun.knownCurve, fun.targetPointYearFraction, guess, fun.currentIndex);
    var spotDf := coll.DiscountFactor(fun.anchor, target, fun.payments.spotDateYearFraction);
    SpotValuePermutation(fun.anchor, cfs, fun.payments.cashFlows, target, spotDf, coll);
  }

  /** The residual as the one-dimensional function handed to the root finder. */
  function Objective(fun: CalibrationFun, coll: Collaborators): real -> real
    requires CanAppend(fun)
  {
    guess => Residual(fun, guess, coll)
  }

  method Apply(fun: CalibrationFun, guess: real, coll: Collaborators) returns (r: seq<real>)
    requires CanAppend(fun)
    ensures r == [Residual(fun, guess, coll)]
  {
    var target := AppendNodeAt(fun.knownCurve, fun.targetPointYearFraction, guess, fun.currentIndex);
    var spotDatePv := 0.0;
    var spotDateDf := coll.DiscountFactor(fun.anchor, target, fun.payments.spotDateYearFraction);
    var cashFlows := fun.payments.cashFlows;
    for k := 0 to |cashFlows|
      invariant spotDatePv == SpotValue(fun.anchor, cashFlows[..k], target, spotDateDf, coll)
    {
      var cf := cashFlows[k];
      assert cashFlows[..k + 1][..k] == cashFlows[..k];
      spotDatePv := spotDatePv + cf.amount * coll.DiscountFactor(fun.anchor, target, cf.paymentDateYearFraction) / spotDateDf;
      assert spotDatePv == SpotValue(fun.anchor, cashFlows[..k + 1], target, spotDateDf, coll);
    }
    assert cashFlows[..|cashFlows|] == cashFlows;
    r := [spotDatePv - 1.0];
  }

  // ------------------------------------------------------------- bootstrap

  /** The calibration problem of node `node` at position `i`. */
  function CalibrationOf(anchor: Date, known: Curve, node: Node, i: nat, coll: Collaborators): (fun: CalibrationFun)
    ensures fun.knownCurve == known && fun.currentIndex == i
  {
    var s := ScheduleOf(anchor, node, known.metadata.dayCount, coll);
    CalibrationFun(anchor, known, NewCashFlows(s.spotDateYearFraction, Some(s.cashFlows)), s.matureYearFraction, i)
  }

  /** The zero rate the root finder solves for node `node` at position `i`,
      starting from the node's market rate: the residual there is within tolerance. */
  function SolvedRate(anchor: Date, known: Curve, node: Node, i: nat, coll: Collaborators, rf: RootFinder): (y: Option<real>)
    requires i == 1 ==> NonEmpty(known)
    ensures y.Some? ==> Abs(Residual(CalibrationOf(anchor, known, node, i, coll), y.value, coll)) < rf.absoluteTolerance
  {
    Solve(rf, Objective(CalibrationOf(anchor, known, node, i, coll), coll), node.rate)
  }

  /** The second node reads the first point of the curve so far: on a curve
      without points that read fails. */
  predicate MissingFirstPoint(known: Curve, i: nat) {
    i == 1 && !NonEmpty(known)
  }

  /** `bootstrap` of one node: the curve with the solved point added at the
      node's maturity, or the failure of the root finder (or of reading the
      first point of an empty curve, which `appendNodeAt` does for the second node). */
  function NodeStep(anchor: Date, known: Curve, node: Node, i: nat, coll: Collaborators, rf: RootFinder): (r: Result<Curve>)
    ensures MissingFirstPoint(known, i) ==> r == Err(IndexOutOfBounds(0))
    ensures r.Ok? ==> Extends(known, r.value, MatureYearFraction(anchor, node, known.metadata.dayCount, coll), i)
    ensures !MissingFirstPoint(known, i) ==>
      && (r.Err? <==> SolvedRate(anchor, known, node, i, coll, rf).None?)
      && (r.Err? ==> r.error == RootNotFound)
      && (r.Ok? ==> r.value.yValues[|r.value.yValues| - 1] == SolvedRate(anchor, known, node, i, coll, rf).value)
  {
    if MissingFirstPoint(known, i) then Err(IndexOutOfBounds(0))
    else
      var x := MatureYearFraction(anchor, node, known.metadata.dayCount, coll);
      match SolvedRate(anchor, known, node, i, coll, rf)
      case None => Err(RootNotFound)
      case Some(y) =>
        AppendNodeAtExtends(known, x, y, i);
        Ok(AppendNodeAt(known, x, y, i))
  }

  method BootstrapNode(anchor: Date, known: Curve, node: Node, coll: Collaborators, rf: RootFinder, currentIndex: nat)
    returns (r: Result<Curve>)
    ensures r == NodeStep(anchor, known, node, currentIndex, coll, rf)
  {
    var schedule := BuildSchedule(anchor, node, known.metadata.dayCount, coll);
    if currentIndex == 1 && !(|known.xValues| > 0 && |known.yValues| > 0) {
      return Err(IndexOutOfBounds(0));
    }
    var calibrationFun := CalibrationFun(anchor, known,
      NewCashFlows(schedule.spotDateYearFraction, Some(schedule.cashFlows)), schedule.matureYearFraction, currentIndex);
    var root := FindRoot(rf, Objective(calibrationFun, coll), node.rate);
    assert root == SolvedRate(anchor, known, node, currentIndex, coll, rf);
    if root.None? {
      return Err(RootNotFound);
    }
    r := Ok(AppendNodeAt(known, schedule.matureYearFraction, root.value, currentIndex));
  }

  // ---------------------------------------------------------------- resolve

  /** The curve `resolve` starts from: points (1, 0.05) and (2, 0.05). */
  function Placeholder(curveName: string, dayCount: DayCount): (c: Curve)
    ensures WellFormed(c) && c.metadata.dayCount == dayCount
  {
    LinearFlatCurve(curveName, dayCount, [1.0, 2.0], [0.05, 0.05])
  }

  /** The bootstrap of one node as a value: from the curve so far, the node
      and its position to the extended curve or a failure. */
  type NodeBootstrap = (Curve, Node, nat) -> Result<Curve>

  /** The resolver's per-node bootstrap. */
  function ResolverStep(anchor: Date, coll: Collaborators, rf: RootFinder): NodeBootstrap {
    (c: Curve, n: Node, i: nat) => NodeStep(anchor, c, n, i, coll, rf)
  }

  lemma ResolverStepIsNodeStep(anchor: Date, coll: Collaborators, rf: RootFinder, c: Curve, n: Node, i: nat)
    ensures ResolverStep(anchor, coll, rf)(c, n, i) == NodeStep(anchor, c, n, i, coll, rf)
  {
  }

  /** What the lemmas about the node loop need from a per-node bootstrap: a
      success adds the node's maturity to the curve as `appendNodeAt` does. */
  ghost predicate AppendsMaturities(step: NodeBootstrap, anchor: Date, coll: Collaborators) {
    forall c: Curve, n: Node, i: nat :: step(c, n, i).Ok? ==>
      Extends(c, step(c, n, i).value, MatureYearFraction(anchor, n, c.metadata.dayCount, coll), i)
  }

  lemma ResolverStepAppendsMaturities(anchor: Date, coll: Collaborators, rf: RootFinder)
    ensures AppendsMaturities(ResolverStep(anchor, coll, rf), anchor, coll)
  {
    forall c: Curve, n: Node, i: nat | ResolverStep(anchor, coll, rf)(c, n, i).Ok?
      ensures Extends(c, ResolverStep(anchor, coll, rf)(c, n, i).value, MatureYearFraction(anchor, n, c.metadata.dayCount, coll), i)
    {
      assert ResolverStep(anchor, coll, rf)(c, n, i) == NodeStep(anchor, c, n, i, coll, rf);
    }
  }

  /** The node loop of `resolve` from node `i` on: the first failure ends it. */
  function ResolveFrom(nodes: seq<Node>, i: nat, curve: Curve, step: NodeBootstrap): Result<Curve>
    requires i <= |nodes|
    decreases |nodes| - i
  {
    if i == |nodes| then Ok(curve)
    else match step(curve, nodes[i], i)
      case Err(e) => Err(e)
      case Ok(next) => ResolveFrom(nodes, i + 1, next, step)
  }

  /** A node loop that fails reports the failure of the first node that fails. */
  lemma {:induction false} ResolveFromFirstFailure(nodes: seq<Node>, i: nat, curve: Curve, step: NodeBootstrap)
    requires i <= |nodes|
    ensures ResolveFrom(nodes, i, curve, step).Err? ==>
      exists j, c :: i <= j < |nodes| && step(c, nodes[j], j).Err?
        && ResolveFrom(nodes, i, curve, step).error == step(c, nodes[j], j).error
    decreases |nodes| - i
  {
    if i < |nodes| {
      var next := step(curve, nodes[i], i);
      if next.Ok? {
        ResolveFromFirstFailure(nodes, i + 1, next.value, step);
      } else {
        assert step(curve, nodes[i], i).Err?;
      }
    }
  }

  function ResolveSpec(anchor: Date, nodes: seq<Node>, dayCount: DayCount, curveName: string,
                       coll: Collaborators, newton: (real -> real, real) -> real): Result<Curve>
  {
    ResolveFrom(SortNodes(nodes), 0, Placeholder(curveName, dayCount), ResolverStep(anchor, coll, ResolverRootFinder(newton)))
  }

  /** `resolve`: sorts a copy of the nodes and bootstraps them in order. The
      holiday calendar and the reference data are inside `coll.adjust`, the curve
      identifier is its name, and `newton` is the Newton update. */
  method Resolve(anchor: Date, nodes: seq<Node>, dayCount: DayCount, curveName: string,
                 coll: Collaborators, newton: (real -> real, real) -> real) returns (r: Result<Curve>)
    ensures r == ResolveSpec(anchor, nodes, dayCount, curveName, coll, newton)
  {
    var rootFinder := ResolverRootFinder(newton);
    var curveNodes := SortNodes(nodes);
    var knownCurve := Placeholder(curveName, dayCount);
    r := BootstrapNodes(anchor, curveNodes, knownCurve, coll, rootFinder);
  }

  method BootstrapNodes(anchor: Date, nodes: seq<Node>, known: Curve, coll: Collaborators, rf: RootFinder) returns (r: Result<Curve>)
    ensures r == ResolveFrom(nodes, 0, known, ResolverStep(anchor, coll, rf))
  {
    ghost var step := ResolverStep(anchor, coll, rf);
    var knownCurve := known;
    var i := 0;
    while i < |nodes|
      invariant 0 <= i <= |nodes|
      invariant ResolveFrom(nodes, i, knownCurve, step) == ResolveFrom(nodes, 0, known, step)
    {
      var next := BootstrapNode(anchor, knownCurve, nodes[i], coll, rf, i);
      ResolverStepIsNodeStep(anchor, coll, rf, knownCurve, nodes[i], i);
      if next.Err? {
        return Err(next.error);
      }
      knownCurve := next.value;
      i := i + 1;
    }
    r := Ok(knownCurve);
  }

  /** The maturities of the nodes, as year fractions from the anchor. */
  function Maturities(anchor: Date, nodes: seq<Node>, dc: DayCount, coll: Collaborators): (r: seq<real>)
    ensures |r| == |nodes|
    decreases |nodes|
  {
    if nodes == [] then []
    else Maturities(anchor, nodes[..|nodes| - 1], dc, coll) + [MatureYearFraction(anchor, nodes[|nodes| - 1], dc, coll)]
  }

  lemma {:induction false} MaturitiesAt(anchor: Date, nodes: seq<Node>, dc: DayCount, coll: Collaborators)
    ensures forall j :: 0 <= j < |nodes| ==>
      Maturities(anchor, nodes, dc, coll)[j] == MatureYearFraction(anchor, nodes[j], dc, coll)
    decreases |nodes|
  {
    if nodes != [] {
      var init := nodes[..|nodes| - 1];
      MaturitiesAt(anchor, init, dc, coll);
      forall j | 0 <= j < |nodes|
        ensures Maturities(anchor, nodes, dc, coll)[j] == MatureYearFraction(anchor, nodes[j], dc, coll)
      {
        if j < |init| {
          assert nodes[j] == init[j];
        }
      }
    }
  }

  /** The points a curve holds after the first `i` nodes: after one node, that
      node's maturity and one year later at the same rate; after `i >= 2` nodes,
      exactly their maturities, in order. */
  predicate PointsAfter(anchor: Date, nodes: seq<Node>, i: nat, c: Curve, coll: Collaborators)
    requires i <= |nodes|
  {
    var dc := c.metadata.dayCount;
    && (i == 1 ==>
          && |c.xValues| == |c.yValues| == 2
          && c.xValues[0] == MatureYearFraction(anchor, nodes[0], dc, coll)
          && c.xValues[1] == c.xValues[0] + 1.0
          && c.yValues[1] == c.yValues[0])
    && (i >= 2 ==> |c.yValues| == i && c.xValues == Maturities(anchor, nodes[..i], dc, coll))
  }

  /** Adding node `i`'s point keeps the points in step with the nodes. */
  lemma PointsAfterStep(anchor: Date, nodes: seq<Node>, i: nat, curve: Curve, next: Curve, coll: Collaborators)
    requires i < |nodes|
    requires PointsAfter(anchor, nodes, i, curve, coll)
    requires Extends(curve, next, MatureYearFraction(anchor, nodes[i], curve.metadata.dayCount, coll), i)
    ensures PointsAfter(anchor, nodes, i + 1, next, coll)
  {
    assert nodes[..i + 1][..i] == nodes[..i];
    if i == 1 {
      assert nodes[..1][..0] == [];
    }
  }

  /** From node `i` on, the curve keeps its settings and its points stay in step with the nodes. */
  lemma {:induction false} ResolveFromPoints(anchor: Date, nodes: seq<Node>, i: nat, curve: Curve, coll: Collaborators, step: NodeBootstrap)
    requires i <= |nodes|
    requires AppendsMaturities(step, anchor, coll)
    requires PointsAfter(anchor, nodes, i, curve, coll)
    ensures ResolveFrom(nodes, i, curve, step).Ok? ==>
      && SameSettings(ResolveFrom(nodes, i, curve, step).value, curve)
      && PointsAfter(anchor, nodes, |nodes|, ResolveFrom(nodes, i, curve, step).value, coll)
    decreases |nodes| - i
  {
    if i < |nodes| {
      var next := step(curve, nodes[i], i);
      if next.Ok? {
        PointsAfterStep(anchor, nodes, i, curve, next.value, coll);
        ResolveFromPoints(anchor, nodes, i + 1, next.value, coll, step);
      }
    }
  }

  /** Points already solved are never changed by later nodes. */
  lemma {:induction false} ResolveFromKeepsSolvedPoints(anchor: Date, nodes: seq<Node>, i: nat, curve: Curve, coll: Collaborators, step: NodeBootstrap)
    requires 2 <= i <= |nodes|
    requires AppendsMaturities(step, anchor, coll)
    requires |curve.xValues| == |curve.yValues| == i
    ensures ResolveFrom(nodes, i, curve, step).Ok? ==>
      && |ResolveFrom(nodes, i, curve, step).value.xValues| == |nodes|
      && |ResolveFrom(nodes, i, curve, step).value.yValues| == |nodes|
      && ResolveFrom(nodes, i, curve, step).value.xValues[..i] == curve.xValues
      && ResolveFrom(nodes, i, curve, step).value.yValues[..i] == curve.yValues
    decreases |nodes| - i
  {
    if i < |nodes| {
      var next := step(curve, nodes[i], i);
      if next.Ok? {
        ResolveFromKeepsSolvedPoints(anchor, nodes, i + 1, next.value, coll, step);
        var r := ResolveFrom(nodes, i + 1, next.value, step);
        if r.Ok? {
          assert r.value.xValues[..i] == r.value.xValues[..i + 1][..i];
          assert r.value.yValues[..i] == r.value.yValues[..i + 1][..i];
        }
      }
    }
  }

  /** What the node loop started from the placeholder yields, for any per-node
      bootstrap that appends the node maturities. */
  lemma PlaceholderLoopPoints(anchor: Date, nodes: seq<Node>, dayCount: DayCount, curveName: string,
                              coll: Collaborators, step: NodeBootstrap)
    requires AppendsMaturities(step, anchor, coll)
    ensures var r := ResolveFrom(nodes, 0, Placeholder(curveName, dayCount), step);
      r.Ok? ==>
        && SameSettings(r.value, Placeholder(curveName, dayCount))
        && (|nodes| == 0 ==> r.value == Placeholder(curveName, dayCount))
        && (|nodes| == 1 ==>
              && |r.value.xValues| == |r.value.yValues| == 2
              && r.value.xValues == [MatureYearFraction(anchor, nodes[0], dayCount, coll),
                                     MatureYearFraction(anchor, nodes[0], dayCount, coll) + 1.0])
        && (|nodes| >= 2 ==>
              && |r.value.xValues| == |r.value.yValues| == |nodes|
              && forall j :: 0 <= j < |nodes| ==>
                   r.value.xValues[j] == MatureYearFraction(anchor, nodes[j], dayCount, coll))
  {
    ResolveFromPoints(anchor, nodes, 0, Placeholder(curveName, dayCount), coll, step);
    assert nodes[..|nodes|] == nodes;
    MaturitiesAt(anchor, nodes, dayCount, coll);
  }

  /** The resolved curve keeps the placeholder's settings (linear, flat-flat,
      the given name and day count) and holds one point per node at the node's
      maturity, in maturity order; a single node yields two points and no node
      leaves the placeholder. */
  lemma ResolvePoints(anchor: Date, nodes: seq<Node>, dayCount: DayCount, curveName: string,
                      coll: Collaborators, newton: (real -> real, real) -> real)
    ensures var r := ResolveSpec(anchor, nodes, dayCount, curveName, coll, newton);
      var sorted := SortNodes(nodes);
      r.Ok? ==>
        && SameSettings(r.value, Placeholder(curveName, dayCount))
        && (|nodes| == 0 ==> r.value == Placeholder(curveName, dayCount))
        && (|nodes| == 1 ==>
              && |r.value.xValues| == |r.value.yValues| == 2
              && r.value.xValues == [MatureYearFraction(anchor, sorted[0], dayCount, coll),
                                     MatureYearFraction(anchor, sorted[0], dayCount, coll) + 1.0])
        && (|nodes| >= 2 ==>
              && |r.value.xValues| == |r.value.yValues| == |nodes|
              && forall j :: 0 <= j < |nodes| ==>
                   r.value.xValues[j] == MatureYearFraction(anchor, sorted[j], dayCount, coll))
  {
    var rf := ResolverRootFinder(newton);
    ResolverStepAppendsMaturities(anchor, coll, rf);
    PlaceholderLoopPoints(anchor, SortNodes(nodes), dayCount, curveName, coll, ResolverStep(anchor, coll, rf));
  }

  /** When the sorted nodes mature at strictly increasing year fractions, the
      resolved curve is a valid interpolated curve. */
  lemma ResolveWellFormed(anchor: Date, nodes: seq<Node>, dayCount: DayCount, curveName: string,
                          coll: Collaborators, newton: (real -> real, real) -> real)
    requires var sorted := SortNodes(nodes);
      forall j :: 0 < j < |sorted| ==>
        MatureYearFraction(anchor, sorted[j - 1], dayCount, coll) < MatureYearFraction(anchor, sorted[j], dayCount, coll)
    ensures var r := ResolveSpec(anchor, nodes, dayCount, curveName, coll, newton);
      r.Ok? ==> WellFormed(r.value)
  {
    ResolvePoints(anchor, nodes, dayCount, curveName, coll, newton);
  }

  /** The order in which nodes are given does not matter when no two of them
      share a maturity. */
  lemma ResolveOrderInvariant(anchor: Date, nodes: seq<Node>, reordered: seq<Node>, dayCount: DayCount, curveName: string,
                              coll: Collaborators, newton: (real -> real, real) -> real)
    requires multiset(reordered) == multiset(nodes)
    requires DistinctMaturities(nodes)
    ensures ResolveSpec(anchor, reordered, dayCount, curveName, coll, newton)
         == ResolveSpec(anchor, nodes, dayCount, curveName, coll, newton)
  {
    SortedNodesUnique(nodes, reordered);
  }
}
