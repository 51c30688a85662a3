/** The nodal zero-rate curve both bootstrappers build, and the collaborators they
    consult: business-day period adjustment, day-count year fractions and the
    discount factors derived from a curve. The collaborators are parameters. */
module Curves {
  import opened Basics
  import opened Periods

  datatype Interpolator = Linear | OtherInterpolator(name: string)
  datatype Extrapolator = Flat | OtherExtrapolator(name: string)
  datatype ValueType = YearFraction | ZeroRate

  /** `DefaultCurveMetadata`: the curve name, what the x and y values mean, and the day count. */
  datatype Metadata = Metadata(curveName: string, xValueType: ValueType, yValueType: ValueType, dayCount: DayCount)

  /** `InterpolatedNodalCurve`: parallel x values (year fractions) and y values
      (zero rates), with the interpolator, the two extrapolators and the metadata. */
  datatype Curve = Curve(
    interpolator: Interpolator,
    extrapolatorLeft: Extrapolator,
    extrapolatorRight: Extrapolator,
    metadata: Metadata,
    xValues: seq<real>,
    yValues: seq<real>)

  /** Everything of a curve except its node values. */
  predicate SameSettings(a: Curve, b: Curve) {
    && a.interpolator == b.interpolator
    && a.extrapolatorLeft == b.extrapolatorLeft
    && a.extrapolatorRight == b.extrapolatorRight
    && a.metadata == b.metadata
  }

  /** The linear curve with flat extrapolation on both sides that both bootstrappers start from. */
  function LinearFlatCurve(curveName: string, dayCount: DayCount, xs: seq<real>, ys: seq<real>): Curve {
    Curve(Linear, Flat, Flat, Metadata(curveName, YearFraction, ZeroRate, dayCount), xs, ys)
  }

  /** At least one x value and one y value (what reading the first node needs). */
  predicate NonEmpty(c: Curve) {
    |c.xValues| > 0 && |c.yValues| > 0
  }

  ghost predicate StrictlyIncreasing(s: seq<real>) {
    forall i :: 0 < i < |s| ==> s[i - 1] < s[i]
  }

  /** What an interpolated curve needs: as many y values as x values, at least
      two of them, and x values strictly increasing. */
  ghost predicate WellFormed(c: Curve) {
    |c.xValues| == |c.yValues| >= 2 && StrictlyIncreasing(c.xValues)
  }

  datatype BusinessDayConvention = Following | ModifiedFollowing | Preceding | OtherConvention(name: string)

  /** `PeriodAdditionConventions`: NONE, or LAST_BUSINESS_DAY (month-end rolls to month-end). */
  datatype AdditionConvention = NoAddition | LastBusinessDay

  type PositiveReal = r: real | r > 0.0 witness 1.0

  /** The external calendar and pricing functions, as values.
      - `adjust(date, period, convention, addition)`: `PeriodAdjustment.adjust`, adding the
        period to the date and rolling it to a business day of the holiday calendar;
      - `yearFraction(dayCount, start, end)`: `DayCount.yearFraction`;
      - `discountFactor(anchor, curve, t)`: `DiscountFactors.of(CNY, anchor, curve).discountFactor(t)`,
        the discount factor at year fraction `t` implied by the zero-rate curve (always positive). */
  datatype Collaborators = Collaborators(
    adjust: (Date, Period, BusinessDayConvention, AdditionConvention) -> Date,
    yearFraction: (DayCount, Date, Date) -> real,
    discountFactor: (Date, Curve, real) -> PositiveReal)
  {
    function Adjust(date: Date, period: Period, convention: BusinessDayConvention, addition: AdditionConvention): Date {
      adjust(date, period, convention, addition)
    }

    function YearFraction(dayCount: DayCount, start: Date, end: Date): real {
      yearFraction(dayCount, start, end)
    }

    function DiscountFactor(anchor: Date, curve: Curve, t: real): PositiveReal {
      discountFactor(anchor, curve, t)
    }
  }
}
