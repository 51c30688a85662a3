/** Values shared by all modules: dates, day counts, optional values, results and the
    exceptions the modelled code raises. */
module Basics {

  /** A calendar date, as a day number. Only equality and the collaborators in
      module Curves interpret it. */
  type Date = int

  /** A day-count convention, identified by name (ACT/365F, ...). Year fractions
      are computed by a collaborator (see Curves.Collaborators). */
  datatype DayCount = DayCount(name: string)

  type Currency = string

  /** A Java value that may be absent: `Optional`, or a reference that may be null. */
  datatype Option<+T> = None | Some(value: T) {
    function GetOr(default: T): T {
      match this
      case Some(v) => v
      case None => default
    }
  }

  /** The exceptions raised by the modelled code, one constructor per kind. */
  datatype Error =
    | ValuationDatesDoNotMatch(known: Date, market: Date)
    | MultipleUnequalValues(id: string, existing: real, found: real)
    | ScenarioCountMismatch(current: nat, boxCount: nat)
    | CannotCountScenarios
    | MarketDataNotFound(groupName: string, curveName: string, source: string)
    | ScenarioIndexOutOfBounds(scenario: nat)
    | ClassCast
    | IndexOutOfBounds(index: int)
    | RootNotFound
    | NullDiscountCurve

  /** Either a value or the exception that was raised instead. */
  datatype Result<+T> = Ok(value: T) | Err(error: Error) {
    predicate IsFailure() { Err? }
    function PropagateFailure<U>(): Result<U>
      requires Err?
    {
      Err(error)
    }
    function Extract(): T
      requires Ok?
    {
      value
    }
  }

  /** A loop over `xs` that threads a state through `f` (which also receives
      the element's position) and ends at the first exception. Defined from the
      back, so a loop that has handled `k` elements is at `FoldResult(s, xs[..k], f)`. */
  function FoldResult<S, T>(s: S, xs: seq<T>, f: (S, T, nat) -> Result<S>): Result<S>
    decreases |xs|
  {
    if xs == [] then Ok(s)
    else match FoldResult(s, xs[..|xs| - 1], f)
      case Err(e) => Err(e)
      case Ok(t) => f(t, xs[|xs| - 1], |xs| - 1)
  }

  /** One more element: the loop body runs on the state so far, unless an exception ended the loop. */
  lemma FoldResultSnoc<S, T>(s: S, xs: seq<T>, k: nat, f: (S, T, nat) -> Result<S>)
    requires k < |xs|
    ensures FoldResult(s, xs[..k + 1], f)
         == match FoldResult(s, xs[..k], f) case Err(e) => Err(e) case Ok(t) => f(t, xs[k], k)
  {
    assert xs[..k + 1][..k] == xs[..k];
  }

  /** Once an exception is raised, the rest of the loop does not run. */
  lemma {:induction false} FoldResultErrSticks<S, T>(s: S, xs: seq<T>, k: nat, f: (S, T, nat) -> Result<S>)
    requires k <= |xs|
    requires FoldResult(s, xs[..k], f).Err?
    ensures FoldResult(s, xs, f) == FoldResult(s, xs[..k], f)
    decreases |xs| - k
  {
    if k < |xs| {
      FoldResultSnoc(s, xs, k, f);
      FoldResultErrSticks(s, xs, k + 1, f);
    } else {
      assert xs[..k] == xs;
    }
  }

  /** A loop that ends normally ran normally up to every point. */
  lemma {:induction false} FoldResultOkPrefix<S, T>(s: S, xs: seq<T>, k: nat, f: (S, T, nat) -> Result<S>)
    requires k <= |xs|
    requires FoldResult(s, xs, f).Ok?
    ensures FoldResult(s, xs[..k], f).Ok?
  {
    if FoldResult(s, xs[..k], f).Err? {
      FoldResultErrSticks(s, xs, k, f);
    }
  }

  /** A loop fails only with exceptions its body raises. */
  lemma {:induction false} FoldResultErrors<S, T>(s: S, xs: seq<T>, f: (S, T, nat) -> Result<S>, raised: Error -> bool)
    requires forall a, x, i :: f(a, x, i).Err? ==> raised(f(a, x, i).error)
    ensures FoldResult(s, xs, f).Err? ==> raised(FoldResult(s, xs, f).error)
    decreases |xs|
  {
    if xs != [] {
      FoldResultErrors(s, xs[..|xs| - 1], f, raised);
    }
  }

  /** What a loop establishes about each element it handled: if every step
      keeps `inv`, a step marks its element as `covered`, and a step never
      uncovers an element, then a loop that ends normally keeps `inv` and has
      covered every element. */
  lemma {:induction false} FoldResultCovers<S, T>(s: S, xs: seq<T>, f: (S, T, nat) -> Result<S>,
                                                  inv: S -> bool, covered: (T, S) -> bool)
    requires inv(s)
    requires forall a, x, i :: inv(a) && f(a, x, i).Ok? ==> inv(f(a, x, i).value) && covered(x, f(a, x, i).value)
    requires forall a, x, i, y :: inv(a) && covered(y, a) && f(a, x, i).Ok? ==> covered(y, f(a, x, i).value)
    ensures FoldResult(s, xs, f).Ok? ==>
      && inv(FoldResult(s, xs, f).value)
      && forall j :: 0 <= j < |xs| ==> covered(xs[j], FoldResult(s, xs, f).value)
    decreases |xs|
  {
    if xs != [] {
      var init := xs[..|xs| - 1];
      FoldResultCovers(s, init, f, inv, covered);
      var r := FoldResult(s, xs, f);
      if r.Ok? {
        var a := FoldResult(s, init, f).value;
        assert r == f(a, xs[|xs| - 1], |xs| - 1);
        forall j | 0 <= j < |xs| ensures covered(xs[j], r.value) {
          if j < |init| {
            assert xs[j] == init[j];
            assert covered(init[j], a);
          }
        }
      }
    }
  }

  /** `stream().map(f).collect(...)` where `f` may raise: the results in order,
      or the exception of the first element for which `f` raises. */
  function MapResult<T, U>(xs: seq<T>, f: T -> Result<U>): (r: Result<seq<U>>)
    ensures r.Ok? <==> forall j :: 0 <= j < |xs| ==> f(xs[j]).Ok?
    ensures r.Ok? ==> |r.value| == |xs| && forall j :: 0 <= j < |xs| ==> f(xs[j]) == Ok(r.value[j])
    ensures r.Err? ==> exists j :: 0 <= j < |xs| && f(xs[j]) == Err(r.error) && forall k :: 0 <= k < j ==> f(xs[k]).Ok?
    decreases |xs|
  {
    if xs == [] then Ok([])
    else
      var init := MapResult(xs[..|xs| - 1], f);
      if init.Err? then
        assert forall j :: 0 <= j < |xs| - 1 ==> xs[..|xs| - 1][j] == xs[j];
        Err(init.error)
      else match f(xs[|xs| - 1])
        case Err(e) =>
          assert forall j :: 0 <= j < |xs| - 1 ==> xs[..|xs| - 1][j] == xs[j];
          Err(e)
        case Ok(y) => Ok(init.value + [y])
  }

  /** A loop over the indices `0 .. n - 1` that collects `f(i)` and ends at the first exception. */
  function TabulateResult<T>(n: nat, f: nat -> Result<T>): (r: Result<seq<T>>)
    ensures r.Ok? <==> forall i :: 0 <= i < n ==> f(i).Ok?
    ensures r.Ok? ==> |r.value| == n && forall i :: 0 <= i < n ==> f(i) == Ok(r.value[i])
    ensures r.Err? ==> exists i :: 0 <= i < n && f(i) == Err(r.error)
  {
    if n == 0 then Ok([])
    else
      var init :- TabulateResult(n - 1, f);
      var last :- f(n - 1);
      Ok(init + [last])
  }

  /** One more successful index extends the tabulated values by its value. */
  lemma TabulateResultSnoc<T>(k: nat, f: nat -> Result<T>, xs: seq<T>, x: T)
    requires TabulateResult(k, f) == Ok(xs) && f(k) == Ok(x)
    ensures TabulateResult(k + 1, f) == Ok(xs + [x])
  {
  }

  /** A failing index fails every longer loop with its exception. */
  lemma {:induction false} TabulateResultErrSticks<T>(k: nat, n: nat, f: nat -> Result<T>)
    requires k <= n && TabulateResult(k, f).Err?
    ensures TabulateResult(n, f) == TabulateResult(k, f)
    decreases n
  {
    if k < n {
      TabulateResultErrSticks(k, n - 1, f);
    }
  }

  /** `stream().distinct()`: the first occurrence of each element, in order. */
  function Distinct<T(==, !new)>(xs: seq<T>): (r: seq<T>)
    ensures forall x :: x in r <==> x in xs
    ensures forall i, j :: 0 <= i < j < |r| ==> r[i] != r[j]
    decreases |xs|
  {
    if xs == [] then []
    else
      var init := Distinct(xs[..|xs| - 1]);
      assert xs == xs[..|xs| - 1] + [xs[|xs| - 1]];
      if xs[|xs| - 1] in init then init else init + [xs[|xs| - 1]]
  }

  /** `stream().filter(p)`: the elements satisfying `p`, in order. */
  function Filter<T(!new)>(xs: seq<T>, p: T -> bool): (r: seq<T>)
    ensures |r| <= |xs|
    ensures forall x :: x in r <==> x in xs && p(x)
    decreases |xs|
  {
    if xs == [] then []
    else Filter(xs[..|xs| - 1], p) + (if p(xs[|xs| - 1]) then [xs[|xs| - 1]] else [])
  }

  /** Filtering one more element. */
  lemma FilterSnoc<T(!new)>(xs: seq<T>, k: nat, p: T -> bool)
    requires k < |xs|
    ensures Filter(xs[..k + 1], p) == Filter(xs[..k], p) + (if p(xs[k]) then [xs[k]] else [])
  {
    assert xs[..k + 1][..k] == xs[..k];
  }

  /** The position of the first element satisfying `p`, if any (what
      `stream().filter(p).findFirst()` returns). */
  function FirstIndex<T>(xs: seq<T>, p: T -> bool): (r: Option<nat>)
    ensures r.Some? ==> r.value < |xs| && p(xs[r.value]) && forall j :: 0 <= j < r.value ==> !p(xs[j])
    ensures r.None? ==> forall j :: 0 <= j < |xs| ==> !p(xs[j])
    decreases |xs|
  {
    if xs == [] then None
    else if p(xs[0]) then Some(0)
    else match FirstIndex(xs[1..], p)
      case None => None
      case Some(k) => Some(k + 1)
  }

  /** `stream().filter(p).findFirst()`. */
  function FindFirst<T(!new)>(xs: seq<T>, p: T -> bool): (r: Option<T>)
    ensures r.None? <==> forall x :: x in xs ==> !p(x)
    ensures r.Some? ==> r.value in xs && p(r.value)
    ensures r.Some? ==> exists k :: 0 <= k < |xs| && r.value == xs[k] && forall j :: 0 <= j < k ==> !p(xs[j])
  {
    match FirstIndex(xs, p)
    case None => None
    case Some(k) => Some(xs[k])
  }

  function Abs(r: real): (a: real)
    ensures a >= 0.0 && (a == r || a == -r)
  {
    if r < 0.0 then -r else r
  }
}
