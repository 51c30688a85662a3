# CFETS FR007 curve bootstrap, modelled in Dafny

This project models the part of the Strata fork that bootstraps the CFETS
FR007 repo curve, a single-currency zero-rate curve. It has four parts:

- **The example resolver** (`CfetsBootStrapResolver`).
  - It sorts the curve nodes by their maturity period.
  - It builds a cash-flow schedule for each node: a single payment, or a
    frequency-step coupon loop closed by a final cash flow that carries the
    notional.
  - It solves each node's zero rate against a par residual.
  - It grows the curve under a special policy:
    - node 0 replaces the placeholder curve by `[x, x+1]`;
    - node 1 replaces the synthetic second point;
    - every later node appends a point.
- **The pricer bootstrap** (`CfetsRatesCurveBootstrap`).
  - Trades are classified into cash-flow sets:
    - a swap with exactly one fixed leg is kept;
    - a term deposit becomes one cash flow;
    - any other trade is skipped.
  - The curve is pre-sized with one node per set. Each step overwrites only
    its own node.
  - At group level it builds index curves and maps the discount currencies
    to the built curves by name.
- **The market-data function** (`CfetsRatesCurveGroupMarketDataFunction`).
  - It lists the market data a curve group requires.
  - It finds each curve's input box.
  - It counts the scenarios consistently.
  - It merges the per-curve quotes, failing on conflicting values.
  - It chooses between building one group and one group per scenario.
- **The CFETS averaged rate** (`CfetsForwardIborAveragedRateComputationFn`).
  - The rate is compounded, `(Π(1 + rᵢ·wᵢ) − 1) / totalWeight`. A fixed rate
    takes precedence over the forecast rate.
  - Its sensitivity covers only the unfixed fixings.

**State.** Curves are immutable values, as `InterpolatedNodalCurve` is in the
source. The loops that update state are Dafny methods, each proved equal to a
specification function:
- the loops that reassign `knownCurve`;
- the coupon loop;
- the present-value accumulation;
- the quote merging;
- the scenario count;
- the per-scenario group loop;
- the HashMap updates of the group bootstrap.

The properties the source promises are then proved about those functions.

**Exceptions and collaborators.**
- The exceptions the code raises are the `Err` cases of a `Result`.
- Java `null` is `Option.None`.
- The collaborators are function-valued parameters (the `Collaborators`,
  `Environment` and `Context` datatypes and the Newton step of the root
  finder):
  - day-count year fractions;
  - business-day period adjustment;
  - discount factors;
  - the Newton step;
  - trade resolution results;
  - the order of `CfetsRateCurveBootstrapCashFlows`;
  - `RatesCurveGroupDefinition.filtered`.

**Modules**, one per file:

| file | module | models |
|---|---|---|
| `basics.dfy` | `Basics` | dates, day counts, `Option`, `Result`, the exceptions, left folds over results |
| `periods.dfy` | `Periods` | the part of `java.time.Period` used: plus, minus, `normalized` (months into years only), `isNegative`, `isZero` |
| `sorting.dfy` | `Sorting` | the stable sort of `Collections.sort`, by an `int` comparator |
| `curves.dfy` | `Curves` | the nodal-curve value (x and y values, interpolator, extrapolators, metadata) and the collaborator functions |
| `rootfinding.dfy` | `RootFinding` | the root finder: a Newton step from the guess, then the convergence test on the step size and the residual after every step, for at most `maxSteps + 1` steps |
| `discounting.dfy` | `Discounting` | the spot-date present value `Σ amount·DF(t)/DF(spot)` |
| `bootstrap_resolver.dfy` | `BootStrapResolver` | `CfetsBootStrapResolver` |
| `rates_curve_bootstrap.dfy` | `RatesCurveBootstrap` | the curve-level and node-level bootstrap, `adjustNodeAt` and `extractedPayments` of `CfetsRatesCurveBootstrap` |
| `curve_group_bootstrap.dfy` | `CurveGroupBootstrap` | both group-level `bootstrap` overloads of `CfetsRatesCurveBootstrap` |
| `curve_group_market_data.dfy` | `CurveGroupMarketData` | `CfetsRatesCurveGroupMarketDataFunction` |
| `averaged_rate.dfy` | `AveragedRate` | `CfetsForwardIborAveragedRateComputationFn` |

**Where the code and its documentation differ, the model follows the code:**
- The comment above the reduce in `rate` speaks of a weighted average, but the
  code compounds. `AveragedRate.RateAtLeastWeightedAverage` relates the two.
- `CashFlow.compareTo` truncates `(Δ year fraction) × 100` to an `int`. It is
  antisymmetric but not transitive (`CompareCashFlowsNotTransitive`). The
  resolver's cash flows therefore come out in an order that is only sorted
  between neighbours.
- `rateSensitivity` combines the unfixed fixings' sensitivities with the
  factors `wᵢ / totalWeight`. That is the sensitivity of the weighted
  average `Σ wᵢ·rᵢ / totalWeight`, not the derivative of the compounded rate
  `rate` returns, whose factor for fixing i would be
  `wᵢ·Π_{j≠i}(1 + r_j·w_j) / totalWeight`. The model states the code's
  factors.

## Model

| member | source | states |
|---|---|---|
| `BootStrapResolver.ResolverRootFinder` | examples/src/main/java/com/opengamma/strata/examples/china/CfetsBootStrapResolver.java:27-33 | the resolver's root finder uses absolute and relative tolerance 1e-10 and at most 100 steps |
| `Periods.Plus` | examples/src/main/java/com/opengamma/strata/examples/china/CfetsBootStrapResolver.java:235-237 | a period sum adds the total months and the days separately |
| `Periods.Minus` | examples/src/main/java/com/opengamma/strata/examples/china/CfetsBootStrapResolver.java:241 | a period difference subtracts the total months and the days separately |
| `Periods.Normalized` | examples/src/main/java/com/opengamma/strata/examples/china/CfetsBootStrapResolver.java:236 | normalising keeps the total months and the days; it leaves fewer than 12 months, with years and months sharing the sign of the total |
| `Periods.NormalizedUnique` | examples/src/main/java/com/opengamma/strata/examples/china/CfetsBootStrapResolver.java:236 | any period with those properties is the normalised one |
| `Periods.NormalizedIdempotent` | examples/src/main/java/com/opengamma/strata/examples/china/CfetsBootStrapResolver.java:102 | normalising twice equals normalising once |
| `Periods.NormalizedSign` | examples/src/main/java/com/opengamma/strata/examples/china/CfetsBootStrapResolver.java:241-247 | the normalised years and months are both zero exactly when the total months are zero; otherwise their first non-zero one has the total's sign |
| `BootStrapResolver.FirstNonZeroSign` | examples/src/main/java/com/opengamma/strata/examples/china/CfetsBootStrapResolver.java:240-249 | the first non-zero of the normalised years, months and days is negative exactly when the total months are negative, or are zero with negative days; it is zero exactly when both are zero |
| `BootStrapResolver.CompareNodesByKey` | examples/src/main/java/com/opengamma/strata/examples/china/CfetsBootStrapResolver.java:239-249 | `Node.compareTo` orders nodes lexicographically by the (total months, days) of their maturity period, with both directions of below, equal and at most |
| `BootStrapResolver.CompareNodesAntisymmetric` | examples/src/main/java/com/opengamma/strata/examples/china/CfetsBootStrapResolver.java:239-249 | the node comparator is antisymmetric |
| `BootStrapResolver.CompareNodesTransitive` | examples/src/main/java/com/opengamma/strata/examples/china/CfetsBootStrapResolver.java:239-249 | the node comparator's at-most relation is transitive |
| `BootStrapResolver.SortNodesOrdered` | examples/src/main/java/com/opengamma/strata/examples/china/CfetsBootStrapResolver.java:42-43 | sorting the copied node list yields a permutation of the input with non-decreasing maturity keys |
| `BootStrapResolver.SortedNodesUnique` | examples/src/main/java/com/opengamma/strata/examples/china/CfetsBootStrapResolver.java:42-43 | when the maturities are distinct, any permutation of the nodes sorts to the same list |
| `BootStrapResolver.TruncateToInt` | examples/src/main/java/com/opengamma/strata/examples/china/CfetsBootStrapResolver.java:175 | the `(int)` cast truncates toward zero, from below for positive values and from above for negative ones |
| `BootStrapResolver.CompareCashFlowsMeaning` | examples/src/main/java/com/opengamma/strata/examples/china/CfetsBootStrapResolver.java:173-176 | a cash flow compares above another exactly when it pays at least 0.01 year later, and below exactly when it pays at least 0.01 year earlier; swapping the two negates the result |
| `BootStrapResolver.CompareCashFlowsAntisymmetric` | examples/src/main/java/com/opengamma/strata/examples/china/CfetsBootStrapResolver.java:173-176 | the cash-flow comparator is antisymmetric |
| `BootStrapResolver.CompareCashFlowsNotTransitive` | examples/src/main/java/com/opengamma/strata/examples/china/CfetsBootStrapResolver.java:173-176 | the truncating comparator is not transitive |
| `BootStrapResolver.NewCashFlowsSortedCopy` | examples/src/main/java/com/opengamma/strata/examples/china/CfetsBootStrapResolver.java:183-188 | the `CashFlows` constructor stores the spot year fraction and a permutation of the given list (an empty list for null), sorted between neighbours; a list already so sorted is kept as is |
| `BootStrapResolver.PayCoupons` | examples/src/main/java/com/opengamma/strata/examples/china/CfetsBootStrapResolver.java:102-112 | the coupon loop returns the coupons and the last accrual start of the recursive coupon run that starts from the tenor less one frequency |
| `BootStrapResolver.CouponsDone` | examples/src/main/java/com/opengamma/strata/examples/china/CfetsBootStrapResolver.java:105 | once the remaining period is negative or zero, no further coupon is paid |
| `BootStrapResolver.LeftMeasureDecreases` | examples/src/main/java/com/opengamma/strata/examples/china/CfetsBootStrapResolver.java:111 | subtracting a frequency from a positive remaining period makes it strictly smaller, so the loop ends |
| `BootStrapResolver.CouponsStep` | examples/src/main/java/com/opengamma/strata/examples/china/CfetsBootStrapResolver.java:105-111 | while the remaining period is positive, one coupon over one frequency step is paid, one frequency is subtracted and accrual restarts at the step's end |
| `BootStrapResolver.BuildSchedule` | examples/src/main/java/com/opengamma/strata/examples/china/CfetsBootStrapResolver.java:96-117 | the schedule built by the loop equals `ScheduleOf`, whose shape the lemmas below state |
| `BootStrapResolver.ScheduleOfParts` | examples/src/main/java/com/opengamma/strata/examples/china/CfetsBootStrapResolver.java:96-117 | the schedule holds the spot and maturity year fractions; it is one final cash flow when the frequency equals the tenor, and otherwise the coupons followed by one final cash flow from the last accrual start |
| `BootStrapResolver.CouponsAccrue` | examples/src/main/java/com/opengamma/strata/examples/china/CfetsBootStrapResolver.java:105-112 | coupon k accrues from the k-th frequency step after the start, and the run ends at the step after its last coupon |
| `BootStrapResolver.ScheduleShape` | examples/src/main/java/com/opengamma/strata/examples/china/CfetsBootStrapResolver.java:96-117 | every cash flow but the last is a coupon `rate × accrual` on consecutive frequency steps from spot; only the last, at maturity, carries the notional plus interest to maturity; a frequency equal to the tenor gives exactly one cash flow |
| `BootStrapResolver.CouponCount` | examples/src/main/java/com/opengamma/strata/examples/china/CfetsBootStrapResolver.java:102-111 | a remaining period of j frequencies pays exactly j coupons |
| `BootStrapResolver.ScheduleCountForMultiple` | examples/src/main/java/com/opengamma/strata/examples/china/CfetsBootStrapResolver.java:101-117 | a tenor of k ≥ 1 frequencies yields exactly k cash flows |
| `BootStrapResolver.ScheduleShortTenor` | examples/src/main/java/com/opengamma/strata/examples/china/CfetsBootStrapResolver.java:101-117 | a tenor shorter than the frequency yields the single final cash flow |
| `BootStrapResolver.AppendNode` | examples/src/main/java/com/opengamma/strata/examples/china/CfetsBootStrapResolver.java:55-61 | appending keeps every earlier point and the curve settings and adds exactly one (x, y) pair at the end |
| `BootStrapResolver.AppendNodeAt` | examples/src/main/java/com/opengamma/strata/examples/china/CfetsBootStrapResolver.java:63-80 | index 0 gives exactly x = `[x, x+1]`, y = `[y, y]`; index 1 keeps point 0 and replaces point 1 (length 2); later indices append; the settings are always kept |
| `BootStrapResolver.AppendNodeAtExtends` | examples/src/main/java/com/opengamma/strata/examples/china/CfetsBootStrapResolver.java:63-80 | every insertion satisfies the extension relation the resolve loop relies on |
| `BootStrapResolver.ResidualIgnoresCashFlowOrder` | examples/src/main/java/com/opengamma/strata/examples/china/CfetsBootStrapResolver.java:141-150 | the calibration residual does not depend on the order of the cash flows |
| `BootStrapResolver.Apply` | examples/src/main/java/com/opengamma/strata/examples/china/CfetsBootStrapResolver.java:141-150 | `CalibrationFun.apply` returns the one-element residual `Σ amount·DF(t)/DF(spot) − 1` on the curve with the guess inserted, and changes nothing |
| `BootStrapResolver.CalibrationOf` | examples/src/main/java/com/opengamma/strata/examples/china/CfetsBootStrapResolver.java:119 | the calibration function is built on the known curve and the node's index |
| `BootStrapResolver.SolvedRate` | examples/src/main/java/com/opengamma/strata/examples/china/CfetsBootStrapResolver.java:120 | a rate found by the root finder has a residual within the absolute tolerance |
| `BootStrapResolver.NodeStep` | examples/src/main/java/com/opengamma/strata/examples/china/CfetsBootStrapResolver.java:82-122 | a node step fails exactly when the root finder does (or at index 1 without a first point); on success it inserts the node's maturity with the solved rate as the newest y value |
| `BootStrapResolver.BootstrapNode` | examples/src/main/java/com/opengamma/strata/examples/china/CfetsBootStrapResolver.java:82-122 | the per-node method is the node step |
| `BootStrapResolver.Placeholder` | examples/src/main/java/com/opengamma/strata/examples/china/CfetsBootStrapResolver.java:44-47 | the placeholder curve x = `[1, 2]`, y = `[0.05, 0.05]` is well formed and carries the given day count |
| `BootStrapResolver.ResolverStepIsNodeStep` | examples/src/main/java/com/opengamma/strata/examples/china/CfetsBootStrapResolver.java:48-51 | the resolve loop's step is the node step |
| `BootStrapResolver.ResolverStepAppendsMaturities` | examples/src/main/java/com/opengamma/strata/examples/china/CfetsBootStrapResolver.java:121 | each successful step inserts its node's maturity year fraction |
| `BootStrapResolver.ResolveFromFirstFailure` | examples/src/main/java/com/opengamma/strata/examples/china/CfetsBootStrapResolver.java:48-51 | a failed resolve carries the error of some node's step |
| `BootStrapResolver.Resolve` | examples/src/main/java/com/opengamma/strata/examples/china/CfetsBootStrapResolver.java:41-53 | `resolve` sorts a copy of the nodes, builds the root finder and runs the node loop from the placeholder curve |
| `BootStrapResolver.BootstrapNodes` | examples/src/main/java/com/opengamma/strata/examples/china/CfetsBootStrapResolver.java:48-51 | the for loop over the nodes is the recursive resolve |
| `BootStrapResolver.ResolveFromPoints` | examples/src/main/java/com/opengamma/strata/examples/china/CfetsBootStrapResolver.java:48-51 | the loop keeps the curve settings and ends with the point layout of all nodes |
| `BootStrapResolver.ResolveFromKeepsSolvedPoints` | examples/src/main/java/com/opengamma/strata/examples/china/CfetsBootStrapResolver.java:48-51 | from index 2 on, the loop only appends: it ends with one point per node and leaves the earlier points unchanged |
| `BootStrapResolver.PlaceholderLoopPoints` | examples/src/main/java/com/opengamma/strata/examples/china/CfetsBootStrapResolver.java:44-52 | from the placeholder: no nodes give the placeholder; one node gives `[x, x+1]`; n ≥ 2 nodes give exactly n points whose x values are the nodes' maturities in order |
| `BootStrapResolver.ResolvePoints` | examples/src/main/java/com/opengamma/strata/examples/china/CfetsBootStrapResolver.java:41-53 | a resolved curve of n ≥ 2 nodes has exactly n points (13 for the 13 nodes of the test), with x values equal to the sorted nodes' maturities |
| `BootStrapResolver.ResolveWellFormed` | examples/src/main/java/com/opengamma/strata/examples/china/CfetsBootStrapResolver.java:41-53 | with strictly increasing sorted maturities, the resolved curve is well formed |
| `BootStrapResolver.ResolveOrderInvariant` | examples/src/main/java/com/opengamma/strata/examples/china/CfetsBootStrapResolver.java:41-53 | with distinct maturities, the result does not depend on the order of the input nodes |
| `Discounting.SpotValueAppend` | examples/src/main/java/com/opengamma/strata/examples/china/CfetsBootStrapResolver.java:146-148 | the accumulated present value of two lists is the sum of their present values |
| `Discounting.SpotValuePermutation` | examples/src/main/java/com/opengamma/strata/examples/china/CfetsBootStrapResolver.java:146-148 | the accumulated present value does not depend on the order of the cash flows |
| `RootFinding.SolveFrom` | examples/src/main/java/com/opengamma/strata/examples/china/CfetsBootStrapResolver.java:120 | a root it returns has a residual below the absolute tolerance |
| `RootFinding.SolveFromFirstConverged` | modules/pricer/src/main/java/com/opengamma/strata/pricer/curve/CfetsRatesCurveBootstrap.java:190-202 | the search returns the first of the first `maxSteps + 1` Newton iterates whose step is at most `absTol + relTol·abs(x)` and whose residual is below `absTol` |
| `RootFinding.SolveFromFails` | modules/pricer/src/main/java/com/opengamma/strata/pricer/curve/CfetsRatesCurveBootstrap.java:190-202 | the search fails exactly when none of the first `maxSteps + 1` steps converges |
| `RootFinding.SolveFixedPoint` | examples/src/main/java/com/opengamma/strata/examples/china/CfetsBootStrapResolver.java:120 | a guess that the Newton step leaves in place and whose residual is within tolerance is returned as the root |
| `RootFinding.FindRoot` | modules/pricer/src/main/java/com/opengamma/strata/pricer/curve/CfetsRatesCurveBootstrap.java:190-202 | the solver loop returns `Solve`'s result, whose residual is within the absolute tolerance |
| `Sorting.SortSorted` | examples/src/main/java/com/opengamma/strata/examples/china/CfetsBootStrapResolver.java:43 | sorting with an antisymmetric, transitive comparator yields a sorted list |
| `Sorting.SortKeepsSorted` | examples/src/main/java/com/opengamma/strata/examples/china/CfetsBootStrapResolver.java:187 | the stable sort leaves a list already sorted between neighbours unchanged |
| `Sorting.SortedPermutationsEqual` | examples/src/main/java/com/opengamma/strata/examples/china/CfetsBootStrapResolver.java:43 | two sorted permutations of one list with no comparator ties are equal |
| `RatesCurveBootstrap.Standard` | modules/pricer/src/main/java/com/opengamma/strata/pricer/curve/CfetsRatesCurveBootstrap.java:59-78 | the standard bootstrap uses tolerances 1e-10 and 100 steps |
| `RatesCurveBootstrap.SortPaymentsOrdered` | modules/pricer/src/main/java/com/opengamma/strata/pricer/curve/CfetsRatesCurveBootstrap.java:156 | sorting the payment sets yields a sorted permutation of them |
| `RatesCurveBootstrap.Timed` | modules/pricer/src/main/java/com/opengamma/strata/pricer/curve/CfetsRatesCurveBootstrap.java:197-199 | each payment becomes a cash flow at its payment date's year fraction with its amount |
| `RatesCurveBootstrap.TimedPermutation` | modules/pricer/src/main/java/com/opengamma/strata/pricer/curve/CfetsRatesCurveBootstrap.java:197-199 | timing permuted payments gives permuted cash flows |
| `RatesCurveBootstrap.AdjustNodeAt` | modules/pricer/src/main/java/com/opengamma/strata/pricer/curve/CfetsRatesCurveBootstrap.java:207-213 | `adjustNodeAt` succeeds exactly for an index within the curve (otherwise index out of bounds); it changes only that index of x and y, keeps the length, every other entry and the settings |
| `RatesCurveBootstrap.AdjustedUnique` | modules/pricer/src/main/java/com/opengamma/strata/pricer/curve/CfetsRatesCurveBootstrap.java:207-213 | the adjusted curve is determined by the curve, the index and the new point |
| `RatesCurveBootstrap.AdjustNodeAtTwice` | modules/pricer/src/main/java/com/opengamma/strata/pricer/curve/CfetsRatesCurveBootstrap.java:207-213 | adjusting one node twice equals adjusting it once with the second point |
| `RatesCurveBootstrap.AdjustNodeAtSame` | modules/pricer/src/main/java/com/opengamma/strata/pricer/curve/CfetsRatesCurveBootstrap.java:207-213 | writing back a node's own point returns the curve unchanged |
| `RatesCurveBootstrap.AdjustNodeAtCommutes` | modules/pricer/src/main/java/com/opengamma/strata/pricer/curve/CfetsRatesCurveBootstrap.java:207-213 | adjustments of two different nodes commute |
| `RatesCurveBootstrap.NodeResidualIgnoresPaymentOrder` | modules/pricer/src/main/java/com/opengamma/strata/pricer/curve/CfetsRatesCurveBootstrap.java:190-201 | the node objective does not depend on the order of the payments |
| `RatesCurveBootstrap.EvaluateObjective` | modules/pricer/src/main/java/com/opengamma/strata/pricer/curve/CfetsRatesCurveBootstrap.java:190-202 | the objective lambda returns `[Σ amount·DF(t)/DF(spot) − quantity]`, with quantity 1, on the curve with the guess at the node; an index outside the curve raises |
| `RatesCurveBootstrap.SolvedRate` | modules/pricer/src/main/java/com/opengamma/strata/pricer/curve/CfetsRatesCurveBootstrap.java:190-202 | the root found from the quoted rate has a node residual within the absolute tolerance |
| `RatesCurveBootstrap.NodeStep` | modules/pricer/src/main/java/com/opengamma/strata/pricer/curve/CfetsRatesCurveBootstrap.java:180-205 | the node bootstrap fails exactly for an index outside the curve or an unsolved root; on success it moves exactly that node to the end date's year fraction and the solved rate, which reprices within tolerance |
| `RatesCurveBootstrap.NodeStepKeepsFixedPointQuote` | modules/pricer/src/main/java/com/opengamma/strata/pricer/curve/CfetsRatesCurveBootstrap.java:190-204 | a quote that the Newton step leaves in place and that reprices within tolerance becomes the node's rate, at the end date's year fraction |
| `RatesCurveBootstrap.BootstrapNode` | modules/pricer/src/main/java/com/opengamma/strata/pricer/curve/CfetsRatesCurveBootstrap.java:180-205 | the node method is the node step |
| `RatesCurveBootstrap.InitialCurve` | modules/pricer/src/main/java/com/opengamma/strata/pricer/curve/CfetsRatesCurveBootstrap.java:159-172 | the initial curve has one node per sorted payment set, x = year fraction to its end date and y = its quoted rate, linear with flat extrapolation |
| `RatesCurveBootstrap.BootstrapCurve` | modules/pricer/src/main/java/com/opengamma/strata/pricer/curve/CfetsRatesCurveBootstrap.java:154-178 | the curve bootstrap method equals `CurveSpec`: sort the sets, build the initial curve, then one node step per set |
| `RatesCurveBootstrap.SolveNodes` | modules/pricer/src/main/java/com/opengamma/strata/pricer/curve/CfetsRatesCurveBootstrap.java:174-177 | the node loop is the fold of the node step over the sorted payments |
| `RatesCurveBootstrap.PricerStepMovesOwnNode` | modules/pricer/src/main/java/com/opengamma/strata/pricer/curve/CfetsRatesCurveBootstrap.java:204 | each successful step changes only its own node |
| `RatesCurveBootstrap.SolvedPrefix` | modules/pricer/src/main/java/com/opengamma/strata/pricer/curve/CfetsRatesCurveBootstrap.java:174-177 | after k steps, nodes below k sit at their maturities and nodes from k on keep their initial points |
| `RatesCurveBootstrap.StepKeepsOtherNodes` | modules/pricer/src/main/java/com/opengamma/strata/pricer/curve/CfetsRatesCurveBootstrap.java:174-177 | a step keeps the length and every other node's rate |
| `RatesCurveBootstrap.SolvedNodeFrozen` | modules/pricer/src/main/java/com/opengamma/strata/pricer/curve/CfetsRatesCurveBootstrap.java:174-177 | a node's solved rate is not changed by later steps |
| `RatesCurveBootstrap.InitialCurveOneNodePerSet` | modules/pricer/src/main/java/com/opengamma/strata/pricer/curve/CfetsRatesCurveBootstrap.java:159-172 | the initial curve holds one node per payment set |
| `RatesCurveBootstrap.CurveNodes` | modules/pricer/src/main/java/com/opengamma/strata/pricer/curve/CfetsRatesCurveBootstrap.java:154-178 | a bootstrapped curve keeps the settings and has exactly one node per payment set, at the sorted sets' maturities |
| `RatesCurveBootstrap.UnsolvedNodesKeepQuotes` | modules/pricer/src/main/java/com/opengamma/strata/pricer/curve/CfetsRatesCurveBootstrap.java:174-177 | after step k the curve length is the payment count, and the nodes from k on still hold their quoted rates |
| `RatesCurveBootstrap.EachNodeSolved` | modules/pricer/src/main/java/com/opengamma/strata/pricer/curve/CfetsRatesCurveBootstrap.java:174-205 | each final rate is the root solved at its own step and reprices its payment set within tolerance on the curve of that step |
| `RatesCurveBootstrap.RatePeriods` | modules/pricer/src/main/java/com/opengamma/strata/pricer/curve/CfetsRatesCurveBootstrap.java:232-233 | only rate payment periods are kept |
| `RatesCurveBootstrap.LegCashFlows` | modules/pricer/src/main/java/com/opengamma/strata/pricer/curve/CfetsRatesCurveBootstrap.java:232-241 | each rate period pays its forecast at its payment date, plus the notional exactly when it ends on the leg's end date |
| `RatesCurveBootstrap.LegRate` | modules/pricer/src/main/java/com/opengamma/strata/pricer/curve/CfetsRatesCurveBootstrap.java:231-246 | the rate is 0.02 when the unresolved leg is absent, else its fixed calculation's initial rate; any other leg or calculation is a class-cast failure |
| `RatesCurveBootstrap.SwapCashFlows` | modules/pricer/src/main/java/com/opengamma/strata/pricer/curve/CfetsRatesCurveBootstrap.java:222-249 | a kept swap becomes its fixed leg's cash flows, spot = leg start and the leg rate; it fails for a bad leg rate, an empty period list or a first period that is not a rate period |
| `RatesCurveBootstrap.TradeCashFlows` | modules/pricer/src/main/java/com/opengamma/strata/pricer/curve/CfetsRatesCurveBootstrap.java:221-261 | a trade yields a cash-flow set exactly when it is supported (a deposit, or a swap with one fixed leg); others are skipped |
| `RatesCurveBootstrap.TradeCashFlowsCases` | modules/pricer/src/main/java/com/opengamma/strata/pricer/curve/CfetsRatesCurveBootstrap.java:221-261 | a deposit gives one cash flow of interest plus notional at its end date, spot = start date, with its rate; a supported swap gives its swap cash flows or their failure |
| `RatesCurveBootstrap.ExtractedPayments` | modules/pricer/src/main/java/com/opengamma/strata/pricer/curve/CfetsRatesCurveBootstrap.java:215-264 | the extraction loop equals `Extracted`, the fold of the per-trade classification |
| `RatesCurveBootstrap.ExtractedPrefixOk` | modules/pricer/src/main/java/com/opengamma/strata/pricer/curve/CfetsRatesCurveBootstrap.java:221-262 | extraction of a prefix succeeds exactly when every trade in it does |
| `RatesCurveBootstrap.ExtractedPrefixKept` | modules/pricer/src/main/java/com/opengamma/strata/pricer/curve/CfetsRatesCurveBootstrap.java:221-262 | a successful prefix extraction lists the supported trades' cash-flow sets, in order |
| `RatesCurveBootstrap.ExtractedKeepsSupportedTrades` | modules/pricer/src/main/java/com/opengamma/strata/pricer/curve/CfetsRatesCurveBootstrap.java:215-264 | extraction succeeds exactly when every trade does, and then yields one set per supported trade, in order |
| `RatesCurveBootstrap.ExtractedFailures` | modules/pricer/src/main/java/com/opengamma/strata/pricer/curve/CfetsRatesCurveBootstrap.java:222-257 | extraction fails only with a class-cast or index error |
| `RatesCurveBootstrap.CurveSpecFailures` | modules/pricer/src/main/java/com/opengamma/strata/pricer/curve/CfetsRatesCurveBootstrap.java:154-205 | the curve bootstrap fails only with an index error or an unsolved root |
| `Basics.FindFirst` | modules/pricer/src/main/java/com/opengamma/strata/pricer/curve/CfetsRatesCurveBootstrap.java:117 | a found element satisfies the predicate and no earlier element does; nothing is found exactly when no element satisfies it |
| `CurveGroupBootstrap.FindDiscountCurveName` | modules/pricer/src/main/java/com/opengamma/strata/pricer/curve/CfetsRatesCurveBootstrap.java:131 | a discount curve name is found exactly when some entry discounts the currency, and it is such an entry's curve name |
| `CurveGroupBootstrap.FloatingIndices` | modules/pricer/src/main/java/com/opengamma/strata/pricer/curve/CfetsRatesCurveBootstrap.java:118-119 | the floating-rate indices of an entry are exactly its floating indices |
| `CurveGroupBootstrap.BootstrapDefinition` | modules/pricer/src/main/java/com/opengamma/strata/pricer/curve/CfetsRatesCurveBootstrap.java:147-152 | the definition-level bootstrap returns the curve built, for the definition and index, from the trades its nodes build from the market data it is given, never an absent one, or that build's failure |
| `CurveGroupBootstrap.CurveForName` | modules/pricer/src/main/java/com/opengamma/strata/pricer/curve/CfetsRatesCurveBootstrap.java:151 | a built curve carries the definition's name and the index's day count |
| `CurveGroupBootstrap.GroupsSpec` | modules/pricer/src/main/java/com/opengamma/strata/pricer/curve/CfetsRatesCurveBootstrap.java:99-145 | differing valuation dates raise before anything is built; a provider built has the market valuation date and the known fx provider |
| `CurveGroupBootstrap.ProviderOf` | modules/pricer/src/main/java/com/opengamma/strata/pricer/curve/CfetsRatesCurveBootstrap.java:140-144 | the provider's builder fails exactly when some discount currency maps to `null`; otherwise the provider holds the index curves and exactly the discount currencies, each with its curve |
| `CurveGroupBootstrap.BootstrapIndices` | modules/pricer/src/main/java/com/opengamma/strata/pricer/curve/CfetsRatesCurveBootstrap.java:118-125 | the index loop is the fold of the index step |
| `CurveGroupBootstrap.BootstrapDefinitions` | modules/pricer/src/main/java/com/opengamma/strata/pricer/curve/CfetsRatesCurveBootstrap.java:116-127 | the definition loop is the fold of the definition step |
| `CurveGroupBootstrap.MapCurrencies` | modules/pricer/src/main/java/com/opengamma/strata/pricer/curve/CfetsRatesCurveBootstrap.java:130-136 | the currency loop cannot fail and is the fold of the currency step |
| `CurveGroupBootstrap.MapDiscountCurves` | modules/pricer/src/main/java/com/opengamma/strata/pricer/curve/CfetsRatesCurveBootstrap.java:129-137 | the entry loop cannot fail and is the fold of the entry step |
| `CurveGroupBootstrap.Bootstrap` | modules/pricer/src/main/java/com/opengamma/strata/pricer/curve/CfetsRatesCurveBootstrap.java:99-145 | the group-list bootstrap method equals `GroupsSpec` |
| `CurveGroupBootstrap.BootstrapGroup` | modules/pricer/src/main/java/com/opengamma/strata/pricer/curve/CfetsRatesCurveBootstrap.java:84-97 | the single-group bootstrap builds the known data from the market data and bootstraps the one group |
| `CurveGroupBootstrap.CurveForFailures` | modules/pricer/src/main/java/com/opengamma/strata/pricer/curve/CfetsRatesCurveBootstrap.java:147-152 | building a curve fails only with a curve failure: class cast, index error or unsolved root |
| `CurveGroupBootstrap.GroupStepFailures` | modules/pricer/src/main/java/com/opengamma/strata/pricer/curve/CfetsRatesCurveBootstrap.java:112-137 | a group step fails only with a curve failure |
| `CurveGroupBootstrap.GroupsSpecFailures` | modules/pricer/src/main/java/com/opengamma/strata/pricer/curve/CfetsRatesCurveBootstrap.java:104-144 | with differing dates the error names both valuation dates; otherwise any error is a curve failure or a `null` discount curve |
| `CurveGroupBootstrap.SingleGroupDatesMatch` | modules/pricer/src/main/java/com/opengamma/strata/pricer/curve/CfetsRatesCurveBootstrap.java:84-97 | the single-group overload never raises the date mismatch (only a curve failure or a `null` discount curve), and its provider uses the market data's fx rates |
| `CurveGroupBootstrap.IndexStepRecords` | modules/pricer/src/main/java/com/opengamma/strata/pricer/curve/CfetsRatesCurveBootstrap.java:120-124 | an index step records its index's curve and its name, and keeps the curves recorded before |
| `CurveGroupBootstrap.IndicesRecorded` | modules/pricer/src/main/java/com/opengamma/strata/pricer/curve/CfetsRatesCurveBootstrap.java:118-125 | after the index loop, every floating index of the entry maps to the curve built for it |
| `CurveGroupBootstrap.DefinitionStepRecords` | modules/pricer/src/main/java/com/opengamma/strata/pricer/curve/CfetsRatesCurveBootstrap.java:116-127 | a definition step only grows the maps, leaves the discount curves alone, does nothing without an entry, and otherwise maps each floating index of the entry to its curve |
| `CurveGroupBootstrap.DefinitionsRecorded` | modules/pricer/src/main/java/com/opengamma/strata/pricer/curve/CfetsRatesCurveBootstrap.java:116-127 | after the definition loop, every floating index forecast by an entry of a definition has a curve |
| `CurveGroupBootstrap.CurrencyStepMaps` | modules/pricer/src/main/java/com/opengamma/strata/pricer/curve/CfetsRatesCurveBootstrap.java:130-135 | a currency step maps the currency to the built curve of its discount curve name, when there is one, and keeps the other mappings |
| `CurveGroupBootstrap.CurrenciesMapped` | modules/pricer/src/main/java/com/opengamma/strata/pricer/curve/CfetsRatesCurveBootstrap.java:130-136 | after the currency loop every currency with a discount curve name is mapped |
| `CurveGroupBootstrap.EntryStepMaps` | modules/pricer/src/main/java/com/opengamma/strata/pricer/curve/CfetsRatesCurveBootstrap.java:129-137 | an entry step maps all its discount currencies and keeps the earlier mappings |
| `CurveGroupBootstrap.DiscountCurvesMapped` | modules/pricer/src/main/java/com/opengamma/strata/pricer/curve/CfetsRatesCurveBootstrap.java:129-137 | after the entry loop each discount currency maps to the built curve named by the group's discount curve name |
| `CurveGroupBootstrap.GroupStepRecords` | modules/pricer/src/main/java/com/opengamma/strata/pricer/curve/CfetsRatesCurveBootstrap.java:112-137 | a group with no entries is skipped; otherwise its index curves and discount mappings are recorded and the maps only grow |
| `CurveGroupBootstrap.GroupRecordedGrows` | modules/pricer/src/main/java/com/opengamma/strata/pricer/curve/CfetsRatesCurveBootstrap.java:108-137 | what a group recorded stays recorded as the maps grow |
| `CurveGroupBootstrap.GroupsSpecRecorded` | modules/pricer/src/main/java/com/opengamma/strata/pricer/curve/CfetsRatesCurveBootstrap.java:112-145 | the provider records the index curves and discount mappings of every group in the list |
| `CurveGroupBootstrap.DefinitionNamesBuilt` | modules/pricer/src/main/java/com/opengamma/strata/pricer/curve/CfetsRatesCurveBootstrap.java:116-127 | after a group's definition loop every built curve is recorded under its own name, which is a definition's name or was recorded before |
| `CurveGroupBootstrap.SingleGroupUnbuiltDiscountCurve` | modules/pricer/src/main/java/com/opengamma/strata/pricer/curve/CfetsRatesCurveBootstrap.java:129-144 | a group whose entry discounts a currency under a curve name that none of its definitions has fails, because that currency maps to `null` |
| `CurveGroupBootstrap.SingleGroupDiscountCurveNamed` | modules/pricer/src/main/java/com/opengamma/strata/pricer/curve/CfetsRatesCurveBootstrap.java:129-144 | on success every discount currency of the group's entries has the curve named as the group's discount curve for it |
| `CurveGroupMarketData.MarketDataCurves` | modules/measure/src/main/java/com/opengamma/strata/measure/rate/CfetsRatesCurveGroupMarketDataFunction.java:46-47 | exactly the definitions that require market data are kept |
| `CurveGroupMarketData.EntryIndices` | modules/measure/src/main/java/com/opengamma/strata/measure/rate/CfetsRatesCurveGroupMarketDataFunction.java:51-52 | the flattened indices are exactly those of some entry |
| `CurveGroupMarketData.RequiredValues` | modules/measure/src/main/java/com/opengamma/strata/measure/rate/CfetsRatesCurveGroupMarketDataFunction.java:46-50 | an input identifier is requested exactly for each curve that requires market data |
| `CurveGroupMarketData.RequiredTimeSeries` | modules/measure/src/main/java/com/opengamma/strata/measure/rate/CfetsRatesCurveGroupMarketDataFunction.java:51-55 | a time series is requested exactly for each index of some entry, with no identifier twice |
| `CurveGroupMarketData.GroupRequirements` | modules/measure/src/main/java/com/opengamma/strata/measure/rate/CfetsRatesCurveGroupMarketDataFunction.java:41-60 | the requirements hold exactly the curves needing market data and exactly the entries' indices, the time-series ids distinct |
| `CurveGroupMarketData.CurveInputsFor` | modules/measure/src/main/java/com/opengamma/strata/measure/rate/CfetsRatesCurveGroupMarketDataFunction.java:278-291 | a curve needing no market data gets a single empty inputs value; otherwise its box is found exactly when present, else market data not found is raised |
| `CurveGroupMarketData.InputsForScenario` | modules/measure/src/main/java/com/opengamma/strata/measure/rate/CfetsRatesCurveGroupMarketDataFunction.java:153-157 | the scenario's value of every box, in order (a single value serves every scenario); it fails exactly when a scenario box is too short |
| `CurveGroupMarketData.MarketDataOf` | modules/measure/src/main/java/com/opengamma/strata/measure/rate/CfetsRatesCurveGroupMarketDataFunction.java:183-210 | the market data carries the valuation date and the merged quotes, and exists exactly when the merge succeeds |
| `CurveGroupMarketData.InputsByKey` | modules/measure/src/main/java/com/opengamma/strata/measure/rate/CfetsRatesCurveGroupMarketDataFunction.java:183-210 | the nested loops over the HashMap compute `MarketDataOf` |
| `CurveGroupMarketData.QuotesAdded` | modules/measure/src/main/java/com/opengamma/strata/measure/rate/CfetsRatesCurveGroupMarketDataFunction.java:193-206 | adding one curve's quotes keeps what was merged, holds each of its quotes and adds no other identifier |
| `CurveGroupMarketData.MergedQuotesAgree` | modules/measure/src/main/java/com/opengamma/strata/measure/rate/CfetsRatesCurveGroupMarketDataFunction.java:188-209 | the merged map holds every quote of every input, and every entry comes from some quote |
| `CurveGroupMarketData.QuotesConflict` | modules/measure/src/main/java/com/opengamma/strata/measure/rate/CfetsRatesCurveGroupMarketDataFunction.java:193-206 | adding one curve's quotes fails only on an unequal duplicate, naming the identifier, the value held and the value found |
| `CurveGroupMarketData.MergedQuotesConflict` | modules/measure/src/main/java/com/opengamma/strata/measure/rate/CfetsRatesCurveGroupMarketDataFunction.java:188-209 | the merge fails only when two quotes share an identifier but not a value, and names both values |
| `CurveGroupMarketData.UnequalQuotesFail` | modules/measure/src/main/java/com/opengamma/strata/measure/rate/CfetsRatesCurveGroupMarketDataFunction.java:196-205 | two quotes with one identifier and different values make the merge fail |
| `CurveGroupMarketData.CountOfScenarios` | modules/measure/src/main/java/com/opengamma/strata/measure/rate/CfetsRatesCurveGroupMarketDataFunction.java:230-263 | a scenario count is never zero; the errors are a count mismatch between two different counts, or no scenario data |
| `CurveGroupMarketData.ScenarioCount` | modules/measure/src/main/java/com/opengamma/strata/measure/rate/CfetsRatesCurveGroupMarketDataFunction.java:230-263 | the counting loop equals `CountOfScenarios` |
| `CurveGroupMarketData.ScenarioCountAgrees` | modules/measure/src/main/java/com/opengamma/strata/measure/rate/CfetsRatesCurveGroupMarketDataFunction.java:239-256 | a count found agrees with the valuation-date box and with every scenario input box (empty boxes aside, as the Java counter restarts on 0) |
| `CurveGroupMarketData.CountOfAgreeing` | modules/measure/src/main/java/com/opengamma/strata/measure/rate/CfetsRatesCurveGroupMarketDataFunction.java:239-256 | boxes that all hold n scenarios fold to n, or to 0 when none is scenario-valued |
| `CurveGroupMarketData.ScenarioCountOfAgreeing` | modules/measure/src/main/java/com/opengamma/strata/measure/rate/CfetsRatesCurveGroupMarketDataFunction.java:234-259 | when every scenario box holds n > 0 scenarios and one exists, the count is n |
| `CurveGroupMarketData.ScenarioCountOfSingles` | modules/measure/src/main/java/com/opengamma/strata/measure/rate/CfetsRatesCurveGroupMarketDataFunction.java:257-262 | with only single values, counting raises "cannot count the scenarios" |
| `CurveGroupMarketData.ScenarioValuesInRange` | modules/measure/src/main/java/com/opengamma/strata/measure/rate/CfetsRatesCurveGroupMarketDataFunction.java:139-145 | every scenario index below the count has a valuation date and inputs |
| `CurveGroupMarketData.GroupFor` | modules/measure/src/main/java/com/opengamma/strata/measure/rate/CfetsRatesCurveGroupMarketDataFunction.java:212-228 | a built group carries the definition's name; building fails only with a curve failure or a `null` discount curve |
| `CurveGroupMarketData.BuildGroup` | modules/measure/src/main/java/com/opengamma/strata/measure/rate/CfetsRatesCurveGroupMarketDataFunction.java:212-228 | the group method equals `GroupFor` |
| `CurveGroupMarketData.BuildScenarioGroup` | modules/measure/src/main/java/com/opengamma/strata/measure/rate/CfetsRatesCurveGroupMarketDataFunction.java:143-147 | one loop body builds scenario i's group from its valuation date and inputs |
| `CurveGroupMarketData.BuildMultipleCurveGroups` | modules/measure/src/main/java/com/opengamma/strata/measure/rate/CfetsRatesCurveGroupMarketDataFunction.java:131-151 | the multi-scenario path equals `MultipleGroups`: count the scenarios, then one group per scenario in a scenario box |
| `CurveGroupMarketData.BuildScenarioGroups` | modules/measure/src/main/java/com/opengamma/strata/measure/rate/CfetsRatesCurveGroupMarketDataFunction.java:142-148 | the builder loop tabulates scenarios 0 to count − 1 and stops at the first failure |
| `CurveGroupMarketData.SingleValues` | modules/measure/src/main/java/com/opengamma/strata/measure/rate/CfetsRatesCurveGroupMarketDataFunction.java:169 | the single value of each box, in order |
| `CurveGroupMarketData.BuildSingleCurveGroup` | modules/measure/src/main/java/com/opengamma/strata/measure/rate/CfetsRatesCurveGroupMarketDataFunction.java:160-173 | the single-scenario path equals `SingleGroup` |
| `CurveGroupMarketData.CurveGroupBox` | modules/measure/src/main/java/com/opengamma/strata/measure/rate/CfetsRatesCurveGroupMarketDataFunction.java:96-119 | a built box needs every curve's inputs, and holds one group per scenario exactly when the valuation dates or some input box are scenario-valued |
| `CurveGroupMarketData.BuildCurveGroup` | modules/measure/src/main/java/com/opengamma/strata/measure/rate/CfetsRatesCurveGroupMarketDataFunction.java:96-119 | the method equals `CurveGroupBox` |
| `CurveGroupMarketData.CurveGroupPerScenario` | modules/measure/src/main/java/com/opengamma/strata/measure/rate/CfetsRatesCurveGroupMarketDataFunction.java:139-150 | a scenario box holds exactly scenario-count groups, group i built from the filtered group at valuation date i and the merged i-th inputs, from which its nodes' trades are built |
| `CurveGroupMarketData.CurveGroupOnce` | modules/measure/src/main/java/com/opengamma/strata/measure/rate/CfetsRatesCurveGroupMarketDataFunction.java:160-173 | a single box arises only from single values and holds the group built from them |
| `AveragedRate.Rate` | modules/pricer/src/main/java/com/opengamma/strata/pricer/impl/rate/CfetsForwardIborAveragedRateComputationFn.java:30-39 | the rate exists exactly when the total weight is non-zero |
| `AveragedRate.RateOfNoFixings` | modules/pricer/src/main/java/com/opengamma/strata/pricer/impl/rate/CfetsForwardIborAveragedRateComputationFn.java:35-38 | the product is seeded with 1, so no fixings give rate 0 |
| `AveragedRate.RateOfOneFixing` | modules/pricer/src/main/java/com/opengamma/strata/pricer/impl/rate/CfetsForwardIborAveragedRateComputationFn.java:35-44 | one fixing carrying the total weight gives back its fixed rate if present, else its forecast rate |
| `AveragedRate.GrowthOfFixedRates` | modules/pricer/src/main/java/com/opengamma/strata/pricer/impl/rate/CfetsForwardIborAveragedRateComputationFn.java:42-45 | when every fixing is fixed the product does not depend on the forecasts |
| `AveragedRate.RateOfFixedRates` | modules/pricer/src/main/java/com/opengamma/strata/pricer/impl/rate/CfetsForwardIborAveragedRateComputationFn.java:35-45 | when every fixing is fixed the rate does not depend on the forecasts |
| `AveragedRate.GrowthIsFold` | modules/pricer/src/main/java/com/opengamma/strata/pricer/impl/rate/CfetsForwardIborAveragedRateComputationFn.java:35-37 | the product is the reduce of multiplication by growth factors from 1 |
| `AveragedRate.GrowthStepCommutes` | modules/pricer/src/main/java/com/opengamma/strata/pricer/impl/rate/CfetsForwardIborAveragedRateComputationFn.java:37 | applying two growth factors in either order gives the same product |
| `AveragedRate.GrowthPermutation` | modules/pricer/src/main/java/com/opengamma/strata/pricer/impl/rate/CfetsForwardIborAveragedRateComputationFn.java:35-37 | the product does not depend on the order of the fixings |
| `AveragedRate.RatePermutation` | modules/pricer/src/main/java/com/opengamma/strata/pricer/impl/rate/CfetsForwardIborAveragedRateComputationFn.java:35-38 | the rate does not depend on the order of the fixings |
| `AveragedRate.GrowthAtLeastWeightedSum` | modules/pricer/src/main/java/com/opengamma/strata/pricer/impl/rate/CfetsForwardIborAveragedRateComputationFn.java:34-37 | with non-negative weighted rates the product exceeds 1 by at least their sum |
| `AveragedRate.RateAtLeastWeightedAverage` | modules/pricer/src/main/java/com/opengamma/strata/pricer/impl/rate/CfetsForwardIborAveragedRateComputationFn.java:34-38 | with non-negative weighted rates and a positive total weight, the compounded rate is at least the weighted average the comment describes |
| `AveragedRate.ExplainRate` | modules/pricer/src/main/java/com/opengamma/strata/pricer/impl/rate/CfetsForwardIborAveragedRateComputationFn.java:70-80 | `explainRate` explains every fixing in order with its weight and returns the same value as `rate` |
| `AveragedRate.Scaled` | modules/pricer/src/main/java/com/opengamma/strata/pricer/impl/rate/CfetsForwardIborAveragedRateComputationFn.java:66-67 | scaling multiplies every point sensitivity by the factor and keeps its observation |
| `AveragedRate.RateSensitivity` | modules/pricer/src/main/java/com/opengamma/strata/pricer/impl/rate/CfetsForwardIborAveragedRateComputationFn.java:48-58 | all fixings fixed give the empty sensitivity; it is undefined exactly when an unfixed fixing would be divided by a zero total weight |
| `AveragedRate.CombinedFromFixings` | modules/pricer/src/main/java/com/opengamma/strata/pricer/impl/rate/CfetsForwardIborAveragedRateComputationFn.java:54-57 | every combined term is a point sensitivity of some fixing, scaled by that fixing's weight share |
| `AveragedRate.SensitivityOnlyUnfixed` | modules/pricer/src/main/java/com/opengamma/strata/pricer/impl/rate/CfetsForwardIborAveragedRateComputationFn.java:54-67 | every term of the sensitivity comes from a fixing without a fixed rate, scaled by weight over total weight |
| `AveragedRate.CombinedOfUnitSensitivities` | modules/pricer/src/main/java/com/opengamma/strata/pricer/impl/rate/CfetsForwardIborAveragedRateComputationFn.java:54-57 | with unit point sensitivities, the combination lists each fixing's observation with its weight share, in order |
| `AveragedRate.SensitivityOfUnitSensitivities` | modules/pricer/src/main/java/com/opengamma/strata/pricer/impl/rate/CfetsForwardIborAveragedRateComputationFn.java:48-68 | with unit point sensitivities, the sensitivity lists exactly the unfixed fixings, in order, each with weight over total weight |

## Left out

- **Root finding.**
  - `NewtonDefaultVectorRootFinder`'s Jacobian and SVD internals, and the
    Broyden alternative, are foreign numerics. The Newton step is a
    function parameter.
  - `BaseNewtonVectorRootFinder` is not part of this model. Its loop is
    modelled as Strata publishes it: one step before the first convergence
    test, a step-size test against both tolerances and a residual test.
  - The Newton step is a pure function of the residual function and the
    position. The backtracking line search, which can leave the position
    unmoved or raise when it cannot reduce the residual, and the reuse of
    the Jacobian between steps are not modelled.
- **Discount factors, day counts and calendars.** Year fractions,
  `PeriodAdjustment` with business-day conventions and addition conventions,
  the CNBE holiday calendar, and `DiscountFactors` are collaborators passed
  in as functions. Their only assumption is a positive discount factor.
- **Floating point.** Amounts, rates and year fractions are `real`, with no
  IEEE rounding.
  - `AveragedRate.Rate`: a zero total weight is `None`; Java gives an
    infinity or NaN. `AveragedRate.RateSensitivity` likewise.
  - The test's expected curve values are not part of the model.
- **Integer conversions.**
  - `BootStrapResolver.TruncateToInt`: the `(int)` cast is truncation toward
    zero on unbounded integers. Saturation at the 32-bit limits is not
    modelled.
  - Java `int` loop counters and scenario counts are unbounded naturals.
  - `Periods`: the years, months and days of `java.time.Period` are
    unbounded. The `ArithmeticException` that `plus`, `minus` and
    `normalized` raise on `int` overflow is not modelled.
- **Sorting.**
  - `Collections.sort` is modelled as a stable insertion sort, which gives
    the same order as TimSort for any comparator that is a total preorder.
  - TimSort may raise "Comparison method violates its general contract" for
    the non-transitive cash-flow comparator. That exception is not
    modelled.
- **Cash-flow set order.** `CfetsRateCurveBootstrapCashFlows` (its comparator
  and end date) is not part of this model. Its order is a parameter that the
  lemmas assume is antisymmetric and transitive.
- **Trade resolution and pricing.** `CurveNode.trade` is the `nodeTrade`
  function of the bootstrap environment, applied to each node and the
  market data the bootstrap receives. `SwapTrade.resolve`,
  `TermDepositTrade.resolve` and `DispatchingSwapPaymentPeriodPricer.forecastValue`
  are foreign: the trades a node builds come already resolved, with their
  forecasts.
  - The unused `dayCount` of the first fixed payment period (pricer, line
    248) survives only as its cast check: a first period that is not a rate
    period fails.
- **Curve validation.** `InterpolatedNodalCurve`'s own checks (at least two
  points, increasing x values) are not part of this model.
  `BootStrapResolver.ResolveWellFormed` shows when they would hold.
- **Known data.**
  - The fx rate provider is an opaque value.
  - The time series of the known data, `extractFixings` and the fixings map
    passed to `inputsByKey` are carried by no part of the model. They only
    flow through to the bootstrap, which reads none of them.
- **`build` and configuration.** `build` reads the `RootFinderConfig` and the
  group definition from `MarketDataConfig`. `requirements` also looks up the
  definition there. Both lookups are left out: the model takes the
  definition and the bootstrap environment as inputs.
- **Library behaviour taken as given.**
  - `RatesCurveGroupDefinition.filtered` is a context function.
  - `findEntry` and `findDiscountCurveName` return the first matching
    entry, as `stream().filter(p).findFirst()` does (`Basics.FindFirst`).
  - `MarketDataBox.getValue` and `getScenarioCount` are as follows: a single
    value serves every scenario and counts as one; a scenario box holds its
    list.
  - Set and map iteration order is a given sequence order.
- **`CurveGroupMarketData.ScenarioValuesInRange`.** It requires the scenario
  boxes to be non-empty. An empty scenario box makes the Java counter
  restart, a case the lemma does not cover.
- **Eager default.** `Optional.orElse` evaluates the forecast rate even for
  a fixed fixing. An exception raised by that forecast is not modelled.
- **Explain tree.** The explain map written by `explainRate` is reduced to
  the list of (observation, weight) entries. The child explanations of
  `IborIndexRates.explainRate` and the combined-rate entry are left out.
- **Reporting code.** The CSV loading, calculation runners and reports of
  the example programs, and the static convention tables, are outside the
  core.
