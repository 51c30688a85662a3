/** The part of `java.time.Period` the bootstrappers use: a date-based amount of
    years, months and days whose three fields are kept apart, component-wise
    `plus` and `minus`, `normalized` (which folds months into years and leaves
    days alone), `isNegative`, `isZero` and `toTotalMonths`. Java's `int` fields
    are modelled as unbounded integers. */
module Periods {

  datatype Period = Period(years: int, months: int, days: int)

  const ZeroPeriod := Period(0, 0, 0)

  function OfDays(n: int): Period { Period(0, 0, n) }
  function OfWeeks(n: int): Period { Period(0, 0, 7 * n) }
  function OfMonths(n: int): Period { Period(0, n, 0) }
  function OfYears(n: int): Period { Period(n, 0, 0) }

  /** `Period.toTotalMonths`: years and months counted in months; days ignored. */
  function TotalMonths(p: Period): int {
    p.years * 12 + p.months
  }

  function Plus(a: Period, b: Period): (r: Period)
    ensures TotalMonths(r) == TotalMonths(a) + TotalMonths(b) && r.days == a.days + b.days
  {
    Period(a.years + b.years, a.months + b.months, a.days + b.days)
  }

  function Minus(a: Period, b: Period): (r: Period)
    ensures TotalMonths(r) == TotalMonths(a) - TotalMonths(b) && r.days == a.days - b.days
  {
    Period(a.years - b.years, a.months - b.months, a.days - b.days)
  }

  /** `Period.isNegative`: some field is below zero. */
  predicate IsNegative(p: Period) {
    p.years < 0 || p.months < 0 || p.days < 0
  }

  /** `Period.isZero`: all three fields are zero. */
  predicate IsZero(p: Period) {
    p == ZeroPeriod
  }

  /** Whole years in a number of months, with Java's integer division, which
      truncates toward zero (Dafny's is Euclidean). */
  function WholeYears(totalMonths: int): (q: int)
    ensures totalMonths >= 0 ==> 0 <= totalMonths - 12 * q < 12
    ensures totalMonths <= 0 ==> -12 < totalMonths - 12 * q <= 0
  {
    if totalMonths >= 0 then totalMonths / 12 else -((-totalMonths) / 12)
  }

  /** `Period.normalized`: years = totalMonths / 12 and months = totalMonths % 12,
      with Java's truncating division, so both take the sign of the total. */
  function Normalized(p: Period): (r: Period)
    ensures TotalMonths(r) == TotalMonths(p) && r.days == p.days
    ensures -12 < r.months < 12
    ensures TotalMonths(p) >= 0 ==> r.years >= 0 && r.months >= 0
    ensures TotalMonths(p) <= 0 ==> r.years <= 0 && r.months <= 0
  {
    var q := WholeYears(TotalMonths(p));
    Period(q, TotalMonths(p) - 12 * q, p.days)
  }

  /** The five properties in Normalized's contract determine its result. */
  lemma NormalizedUnique(p: Period, r: Period)
    requires TotalMonths(r) == TotalMonths(p) && r.days == p.days
    requires -12 < r.months < 12
    requires TotalMonths(p) >= 0 ==> r.years >= 0 && r.months >= 0
    requires TotalMonths(p) <= 0 ==> r.years <= 0 && r.months <= 0
    ensures r == Normalized(p)
  {
  }

  /** Normalizing twice is normalizing once (Java returns `this` when already normalized). */
  lemma NormalizedIdempotent(p: Period)
    ensures Normalized(Normalized(p)) == Normalized(p)
  {
    NormalizedUnique(Normalized(p), Normalized(p));
  }

  /** The years field of a normalized period is non-zero exactly when at least a
      whole year of months is present, and the first non-zero field among years
      and months has the sign of the month total. */
  lemma NormalizedSign(p: Period)
    ensures var n := Normalized(p);
      && (n.years != 0 || n.months != 0 <==> TotalMonths(p) != 0)
      && (n.years > 0 || (n.years == 0 && n.months > 0) <==> TotalMonths(p) > 0)
      && (n.years < 0 || (n.years == 0 && n.months < 0) <==> TotalMonths(p) < 0)
  {
  }

  /** The periods a `Frequency` can have: nothing negative and not zero. */
  predicate IsFrequencyPeriod(p: Period) {
    !IsNegative(p) && !IsZero(p)
  }

  /** `Frequency`, represented by its period. */
  type Frequency = p: Period | IsFrequencyPeriod(p) witness Period(0, 0, 1)

  /** `k` copies of a period added together. */
  function Times(p: Period, k: nat): (r: Period)
    ensures TotalMonths(r) == k * TotalMonths(p) && r.days == k * p.days
  {
    Period(k * p.years, k * p.months, k * p.days)
  }

  /** Only one copy of a non-zero period is that period. */
  lemma TimesIdentity(p: Period, k: nat)
    requires !IsZero(p) && Times(p, k) == p
    ensures k == 1
  {
    if p.years != 0 {
      assert (k - 1) * p.years == 0;
    } else if p.months != 0 {
      assert (k - 1) * p.months == 0;
    } else {
      assert (k - 1) * p.days == 0;
    }
  }

  /** A period worth `j` frequencies, normalized, is zero exactly when `j` is
      zero and never negative; less one frequency it is worth `j - 1`. */
  lemma NormalizedMultiple(f: Frequency, x: Period, j: nat)
    requires TotalMonths(x) == j * TotalMonths(f) && x.days == j * f.days
    ensures var n := Normalized(x);
      && !IsNegative(n)
      && (IsZero(n) <==> j == 0)
      && TotalMonths(Minus(n, f)) == (j - 1) * TotalMonths(f)
      && Minus(n, f).days == (j - 1) * f.days
  {
    MultipleSigns(j, TotalMonths(f), f.days);
    NormalizedNonNegative(x);
  }

  /** Normalizing a period with no negative month total or days gives nothing
      negative, and zero only for the zero amount. */
  lemma NormalizedNonNegative(x: Period)
    requires TotalMonths(x) >= 0 && x.days >= 0
    ensures !IsNegative(Normalized(x))
    ensures IsZero(Normalized(x)) <==> TotalMonths(x) == 0 && x.days == 0
  {
  }

  /** Signs of the multiples `j * m` and `j * d` of a frequency's months `m` and days `d`. */
  lemma MultipleSigns(j: nat, m: int, d: int)
    requires m >= 0 && d >= 0 && m + d > 0
    ensures j * m >= 0 && j * d >= 0
    ensures j * m == 0 && j * d == 0 <==> j == 0
    ensures j * m - m == (j - 1) * m && j * d - d == (j - 1) * d
  {
    if j > 0 {
      assert j * (m + d) > 0;
      assert j * (m + d) == j * m + j * d;
    }
  }
}
