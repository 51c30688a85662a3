/** Newton's method for a one-dimensional residual, as the bootstrappers use it
    (`BaseNewtonVectorRootFinder.findRoot`). The Newton update itself
    (finite-difference Jacobian, SVD solve, backtracking line search) is an
    abstract `step`; what is modelled is the iteration around it: a first step
    is always taken, convergence is tested only after a step and needs both a
    small step and a small residual, and the search fails when `maxSteps`
    further steps have not converged. */
module RootFinding {
  import opened Basics

  datatype RootFinder = RootFinder(
    absoluteTolerance: real,
    relativeTolerance: real,
    maxSteps: nat,
    step: (real -> real, real) -> real)

  /** `isConverged` after a step from `previous` to `x`: the step is at most
      `absTol + relTol·|x|` and the residual norm is below `absTol`. */
  predicate Converged(rf: RootFinder, f: real -> real, previous: real, x: real) {
    Abs(x - previous) <= rf.absoluteTolerance + rf.relativeTolerance * Abs(x) && Abs(f(x)) < rf.absoluteTolerance
  }

  /** The position after `k` Newton steps from `x`. */
  function Iterate(rf: RootFinder, f: real -> real, x: real, k: nat): real
    decreases k
  {
    if k == 0 then x else Iterate(rf, f, rf.step(f, x), k - 1)
  }

  /** The root found from `x` with `stepsLeft` further steps allowed after
      the next one. */
  function SolveFrom(rf: RootFinder, f: real -> real, x: real, stepsLeft: nat): (r: Option<real>)
    ensures r.Some? ==> Abs(f(r.value)) < rf.absoluteTolerance
    decreases stepsLeft
  {
    var next := rf.step(f, x);
    if Converged(rf, f, x, next) then Some(next)
    else if stepsLeft == 0 then None
    else SolveFrom(rf, f, next, stepsLeft - 1)
  }

  /** `findRoot(f, guess)`: `None` stands for the exception raised when the
      step budget runs out. */
  function Solve(rf: RootFinder, f: real -> real, guess: real): Option<real> {
    SolveFrom(rf, f, guess, rf.maxSteps)
  }

  /** The `j`-th step from `x` (`j >= 1`) converged. */
  predicate ConvergedAt(rf: RootFinder, f: real -> real, x: real, j: nat)
    requires j >= 1
  {
    Converged(rf, f, Iterate(rf, f, x, j - 1), Iterate(rf, f, x, j))
  }

  /** Step `j + 1` from `x` is step `j` from the first iterate. */
  lemma IterateShift(rf: RootFinder, f: real -> real, x: real, j: nat)
    ensures Iterate(rf, f, x, j + 1) == Iterate(rf, f, rf.step(f, x), j)
    ensures j >= 1 ==> (ConvergedAt(rf, f, x, j + 1) <==> ConvergedAt(rf, f, rf.step(f, x), j))
  {
    if j >= 1 {
      assert Iterate(rf, f, x, j) == Iterate(rf, f, rf.step(f, x), j - 1);
    }
  }

  /** The search returns the first iterate, among the first `stepsLeft + 1`,
      at which the step converged. */
  lemma {:induction false} SolveFromFirstConverged(rf: RootFinder, f: real -> real, x: real, stepsLeft: nat, k: nat)
    requires 1 <= k <= stepsLeft + 1
    requires ConvergedAt(rf, f, x, k)
    requires forall j :: 1 <= j < k ==> !ConvergedAt(rf, f, x, j)
    ensures SolveFrom(rf, f, x, stepsLeft) == Some(Iterate(rf, f, x, k))
    decreases k
  {
    var next := rf.step(f, x);
    IterateShift(rf, f, x, 0);
    if k > 1 {
      assert !ConvergedAt(rf, f, x, 1);
      forall j | 1 <= j < k - 1 ensures !ConvergedAt(rf, f, next, j) {
        IterateShift(rf, f, x, j);
        assert !ConvergedAt(rf, f, x, j + 1);
      }
      IterateShift(rf, f, x, k - 1);
      SolveFromFirstConverged(rf, f, next, stepsLeft - 1, k - 1);
    }
  }

  /** The search fails exactly when none of the first `stepsLeft + 1` steps converged. */
  lemma {:induction false} SolveFromFails(rf: RootFinder, f: real -> real, x: real, stepsLeft: nat)
    ensures SolveFrom(rf, f, x, stepsLeft).None? <==> forall j :: 1 <= j <= stepsLeft + 1 ==> !ConvergedAt(rf, f, x, j)
    decreases stepsLeft
  {
    var next := rf.step(f, x);
    IterateShift(rf, f, x, 0);
    if !ConvergedAt(rf, f, x, 1) && stepsLeft > 0 {
      SolveFromFails(rf, f, next, stepsLeft - 1);
      if SolveFrom(rf, f, next, stepsLeft - 1).None? {
        forall j | 2 <= j <= stepsLeft + 1 ensures !ConvergedAt(rf, f, x, j) {
          IterateShift(rf, f, x, j - 1);
        }
      } else {
        var j :| 1 <= j <= stepsLeft && ConvergedAt(rf, f, next, j);
        IterateShift(rf, f, x, j);
      }
    }
  }

  /** The guess comes back as the root only through a step: when the Newton
      step leaves it in place and its residual is within tolerance. */
  lemma SolveFixedPoint(rf: RootFinder, f: real -> real, guess: real)
    requires rf.step(f, guess) == guess && rf.relativeTolerance >= 0.0
    requires Abs(f(guess)) < rf.absoluteTolerance
    ensures Solve(rf, f, guess) == Some(guess)
  {
  }

  method FindRoot(rf: RootFinder, f: real -> real, guess: real) returns (r: Option<real>)
    ensures r == Solve(rf, f, guess)
    ensures r.Some? ==> Abs(f(r.value)) < rf.absoluteTolerance
  {
    var previous := guess;
    var x := rf.step(f, guess);
    var count := 0;
    while !Converged(rf, f, previous, x) && count < rf.maxSteps
      invariant 0 <= count <= rf.maxSteps
      invariant x == rf.step(f, previous)
      invariant SolveFrom(rf, f, previous, rf.maxSteps - count) == Solve(rf, f, guess)
      decreases rf.maxSteps - count
    {
      previous := x;
      x := rf.step(f, x);
      count := count + 1;
    }
    if Converged(rf, f, previous, x) {
      r := Some(x);
    } else {
      r := None;
    }
  }
}
