/**
 * What the figures of the management report are (apps/dashboard/src/lib/management-demo.ts): sums of
 * leading days of the daily ledger, and the twelve months of a year adding up to the year.
 */
module ManagementFigures {
  import opened Common
  import opened Calendar
  import opened Allocation
  import opened ManagementReport

  // ----- The ledger -----------------------------------------------------------

  /** The share of plan or actuals in the annual budget that the demonstration assumes. */
  ghost predicate YearFactor(l: Line, year: int, mode: Mode, factor: real) {
    && (mode == Plan && year == 2025 ==> factor == 0.9) && (mode == Plan && year != 2025 ==> factor == 1.0)
    && (mode == Actual && year == 2024 ==> factor == 0.84) && (mode == Actual && year == 2025 ==> factor == 0.92)
    && (mode == Actual && year !in {2024, 2025} ==>
        factor == match l.actualFactor case Some(x) => x case None => 1.0)
  }

  /** The property's part of the annual budget. */
  function Share(l: Line, property: nat): int
    requires LineOk(l) && property < 3
  {
    SumAtLeast(l.shares);
    Allocated(l.annual, l.shares)[property]
  }

  /** What the season gives month m of an annual figure. */
  function SeasonalPart(annual: int, season: Season, m: int): int
    requires 1 <= m <= 12
  {
    SumAtLeast(Seasonality(season));
    Allocated(annual, Seasonality(season))[m - 1]
  }

  /** A year of a line's ledger is the property's share times the factor, rounded; a month its seasonal part. */
  lemma LedgerExactly(l: Line, property: nat, year: int, mode: Mode, factor: real, m: int)
    requires LineOk(l) && property < 3 && YearFactor(l, year, mode, factor) && 1 <= m <= 12
    ensures
      var ledger := LineLedger(l, property, year, mode);
      var annual := Round(Prod(Share(l, property) as real, factor));
      MonthsTotal(ledger, 12) == annual && Sum(ledger[m - 1]) == SeasonalPart(annual, l.season, m)
  {
    assert AnnualFor(l, property, year, mode) == Round(Prod(Share(l, property) as real, factor)) by {
      hide Prod, Allocated, Sum;
      assert Factor(l, year, mode) == factor;
    }
    SumAtLeast(Seasonality(l.season));
    hide Prod, AnnualFor;
    var annual, season, days := AnnualFor(l, property, year, mode), Seasonality(l.season), YearWeights(l, year, mode);
    hide Allocated, Sum, Factor, YearWeights, Seasonality, Between;
    BetweenWholes(LineLedger(l, property, year, mode), year, 1);
    SpreadMonth(annual, season, days, m);
  }

  lemma SpreadMonth(annual: int, monthWeights: seq<int>, dayWeights: seq<seq<int>>, m: int)
    requires |monthWeights| == 12 && |dayWeights| == 12 && Sum(monthWeights) > 0 && 1 <= m <= 12
    requires forall k :: 0 <= k < 12 ==> Sum(dayWeights[k]) > 0
    ensures Sum(Spread(annual, monthWeights, dayWeights)[m - 1]) == Allocated(annual, monthWeights)[m - 1]
  {
    hide Allocated, Sum;
    AllocatedSums(Allocated(annual, monthWeights)[m - 1], dayWeights[m - 1]);
  }

  /** Weekends weigh 135 in the actuals of seasonal lines, every other day 100. */
  ghost predicate WeekendWeights(w: seq<int>, l: Line, year: int, mode: Mode, m: int)
    requires 1 <= m <= 12
  {
    && |w| == DaysInMonth(year, m)
    && forall d :: 1 <= d <= |w| ==>
         w[d - 1] == if mode == Actual && l.season != Steady && Weekday(Date(year, m, d)) in {0, 6} then 135 else 100
  }

  /** A day of a month, but for the last, has its weight's part of the month, rounded down. */
  lemma DayExactly(l: Line, property: nat, year: int, mode: Mode, m: int, d: int, w: seq<int>)
    requires LineOk(l) && property < 3 && 1 <= m <= 12 && 1 <= d < DaysInMonth(year, m)
    requires WeekendWeights(w, l, year, mode, m)
    ensures Sum(w) > 0
    ensures
      var month := LineLedger(l, property, year, mode)[m - 1];
      month[d - 1] == Sum(month) * w[d - 1] / Sum(w)
  {
    WeightsAre(l, year, mode, m, w);
    var month := MonthIsAllocated(l, property, year, mode, m);
    hide LineLedger, Allocated, Sum, WeekendWeights, DayWeights;
    DayOf(LineLedger(l, property, year, mode)[m - 1], month, w, d);
  }

  lemma MonthIsAllocated(l: Line, property: nat, year: int, mode: Mode, m: int) returns (month: int)
    requires LineOk(l) && property < 3 && 1 <= m <= 12
    ensures LineLedger(l, property, year, mode)[m - 1] == Allocated(month, DayWeights(l, year, mode, m))
  {
    SumAtLeast(Seasonality(l.season));
    LedgerIsSpread(l, property, year, mode);
    var annual, season, days := AnnualFor(l, property, year, mode), Seasonality(l.season), YearWeights(l, year, mode);
    MonthWeights(l, year, mode, m);
    hide LineLedger, LineOk, Seasonality, AnnualFor, YearWeights, DayWeights, Spread, Sum, Allocated, Between;
    month := SpreadMonthOf(annual, season, days, m);
  }

  lemma MonthWeights(l: Line, year: int, mode: Mode, m: int)
    requires 1 <= m <= 12
    ensures YearWeights(l, year, mode)[m - 1] == DayWeights(l, year, mode, m)
  {
    hide DayWeights, Sum;
  }

  lemma LedgerIsSpread(l: Line, property: nat, year: int, mode: Mode)
    requires LineOk(l) && property < 3 && Sum(Seasonality(l.season)) > 0
    ensures LineLedger(l, property, year, mode)
      == Spread(AnnualFor(l, property, year, mode), Seasonality(l.season), YearWeights(l, year, mode))
  {
    hide Seasonality, AnnualFor, YearWeights, Spread, Sum, Allocated, Between, LedgerOf, LedgerNonNegative;
  }

  lemma SpreadMonthOf(annual: int, season: seq<int>, days: seq<seq<int>>, m: int) returns (month: int)
    requires |season| == 12 && |days| == 12 && Sum(season) > 0 && 1 <= m <= 12
    requires forall k :: 0 <= k < 12 ==> Sum(days[k]) > 0
    ensures Spread(annual, season, days)[m - 1] == Allocated(month, days[m - 1])
  {
    hide Allocated, Sum;
    month := Allocated(annual, season)[m - 1];
  }

  lemma WeightsAre(l: Line, year: int, mode: Mode, m: int, w: seq<int>)
    requires 1 <= m <= 12 && WeekendWeights(w, l, year, mode, m)
    ensures w == DayWeights(l, year, mode, m)
  {
    hide Weekday, DaysInMonth;
    forall k | 0 <= k < |w| ensures w[k] == DayWeights(l, year, mode, m)[k] {
      assert w[k] == w[(k + 1) - 1];
    }
  }

  lemma DayOf(days: seq<int>, month: int, w: seq<int>, d: int)
    requires Sum(w) > 0 && 1 <= d < |w| && days == Allocated(month, w)
    ensures days[d - 1] == Sum(days) * w[d - 1] / Sum(w)
  {
    AllocatedSums(month, w);
    AllocatedAt(month, w, d - 1);
    hide Allocated, Sum;
  }

  // ----- Ranges that start with the month or the year -------------------------

  lemma {:induction false} UpToPrefix(ledger: Ledger, year: int, month: int, day: int, m: nat)
    requires LedgerOf(ledger, year) && m <= 12 && 1 <= month <= 12 && 1 <= day <= DaysInMonth(year, month)
    ensures UpTo(ledger, m, Date(year, month, 1), Date(year, month, day))
      == if m < month then 0 else Sum(ledger[month - 1][..day])
  {
    if m > 0 {
      hide InMonth, Sum;
      UpToPrefix(ledger, year, month, day, m - 1);
      MonthPrefix(ledger[m - 1], year, month, day, m);
      SumEmpty();
    }
  }

  lemma MonthPrefix(daily: seq<int>, year: int, month: int, day: int, m: nat)
    requires 1 <= m <= 12 && |daily| == DaysInMonth(year, m)
    requires 1 <= month <= 12 && 1 <= day <= DaysInMonth(year, month)
    ensures InMonth(daily, m, Date(year, month, 1), Date(year, month, day)) == if m == month then daily[..day] else []
  {}

  /** The leading days of one month. */
  lemma MonthToDay(ledger: Ledger, year: int, month: int, day: int)
    requires LedgerOf(ledger, year) && 1 <= month <= 12 && 1 <= day <= DaysInMonth(year, month)
    ensures Between(ledger, Date(year, month, 1), Date(year, month, day)) == Sum(ledger[month - 1][..day])
  {
    UpToPrefix(ledger, year, month, day, 12);
  }

  lemma {:induction false} UpToYearPrefix(ledger: Ledger, year: int, month: int, day: int, m: nat)
    requires LedgerOf(ledger, year) && m <= 12 && 1 <= month <= 12 && 1 <= day <= DaysInMonth(year, month)
    ensures UpTo(ledger, m, Date(year, 1, 1), Date(year, month, day))
      == if m < month then MonthsTotal(ledger, m) else MonthsTotal(ledger, month - 1) + Sum(ledger[month - 1][..day])
  {
    if m > 0 {
      hide InMonth, Sum;
      UpToYearPrefix(ledger, year, month, day, m - 1);
      YearPrefix(ledger[m - 1], year, month, day, m);
      SumEmpty();
    }
  }

  lemma YearPrefix(daily: seq<int>, year: int, month: int, day: int, m: nat)
    requires 1 <= m <= 12 && |daily| == DaysInMonth(year, m)
    requires 1 <= month <= 12 && 1 <= day <= DaysInMonth(year, month)
    ensures InMonth(daily, m, Date(year, 1, 1), Date(year, month, day))
      == if m < month then daily else if m == month then daily[..day] else []
  {
    assert daily[0..|daily|] == daily;
  }

  /** The leading days of the year. */
  lemma YearToDay(ledger: Ledger, year: int, month: int, day: int)
    requires LedgerOf(ledger, year) && 1 <= month <= 12 && 1 <= day <= DaysInMonth(year, month)
    ensures Between(ledger, Date(year, 1, 1), Date(year, month, day))
      == MonthsTotal(ledger, month - 1) + Sum(ledger[month - 1][..day])
  {
    UpToYearPrefix(ledger, year, month, day, 12);
  }

  // ----- One line's figures ---------------------------------------------------

  predicate ReportYear(year: int) {
    year == 2025 || year == 2026
  }

  /** How many days of a month the report counts as elapsed on 2026-09-18; a selected day ends the month early. */
  function Elapsed(year: int, m: int, day: Option<int>): (k: nat)
    requires ReportYear(year) && 1 <= m <= 12
    ensures k <= DaysInMonth(year, m) && k <= DaysInMonth(year - 1, m)
  {
    var selected :=
      if day.Some? && day.value != 0 then Max(1, Min(DaysInMonth(year, m), day.value)) else DaysInMonth(year, m);
    if year == 2026 && m > 9 then 0 else if year == 2026 && m == 9 then Min(18, selected) else selected
  }

  lemma MonthPeriod(year: int, m: int, day: Option<int>)
    requires ReportYear(year) && 1 <= m <= 12
    ensures
      var f, k := Filters(year, Some(m), day), Elapsed(year, m, day);
      && Start(f) == Date(year, m, 1) && End(f) == Date(year, m, DaysInMonth(year, m))
      && (k == 0 <==> Before(Cutoff(f), Start(f))) && (k > 0 ==> Cutoff(f) == Date(year, m, k))
      && RemainingDays(f) == DaysInMonth(year, m) - k
  {
    var f, k := Filters(year, Some(m), day), Elapsed(year, m, day);
    if k > 0 {
      DaysOfMonth(year, m, k);
    }
    DaysOfMonth(year, m, DaysInMonth(year, m));
  }

  lemma DaysOfMonth(year: int, m: int, k: int)
    requires 1 <= m <= 12 && k >= 1
    ensures DayCount(Date(year, m, 1), Date(year, m, k)) == k
  {}

  /**
   * The figures of one month: plan and last year are those months of the ledgers, the other three the
   * leading elapsed days of the same months.
   */
  lemma MonthFigures(l: Line, property: nat, year: int, m: int, day: Option<int>)
    requires LineOk(l) && property < 3 && ReportYear(year) && 1 <= m <= 12
    ensures
      var x, k := LineMetrics(l, property, Filters(year, Some(m), day)), Elapsed(year, m, day);
      var plan, done := LineLedger(l, property, year, Plan)[m - 1], LineLedger(l, property, year, Actual)[m - 1];
      var prior := LineLedger(l, property, year - 1, Actual)[m - 1];
      && k <= |plan| && k <= |done| && k <= |prior|
      && x.plan == Sum(plan) && x.planToDate == Sum(plan[..k]) && x.actual == Sum(done[..k])
      && x.ly == Sum(prior) && x.lytd == Sum(prior[..k])
      && RemainingDays(Filters(year, Some(m), day)) == DaysInMonth(year, m) - k
  {
    hide LineLedger, Between, RemainingDays, Pace, Forecast, PerDay, Cutoff, Elapsed, DaysInMonth, Sum;
    var f, k := Filters(year, Some(m), day), Elapsed(year, m, day);
    var plan, done := LineLedger(l, property, year, Plan), LineLedger(l, property, year, Actual);
    var prior := LineLedger(l, property, year - 1, Actual);
    MonthPeriod(year, m, day);
    MonthHasDays(year, m);
    MonthHasDays(year - 1, m);
    WholeMonth(plan, year, m);
    WholeMonth(prior, year - 1, m);
    SumEmpty();
    if k > 0 {
      MonthToDay(plan, year, m, k);
      MonthToDay(done, year, m, k);
      MonthToDay(prior, year - 1, m, k);
    }
  }

  lemma MonthHasDays(year: int, m: int)
    requires 1 <= m <= 12
    ensures DaysInMonth(year, m) >= 1
  {}

  lemma WholeMonth(ledger: Ledger, year: int, m: int)
    requires LedgerOf(ledger, year) && 1 <= m <= 12
    ensures Between(ledger, Date(year, m, 1), Date(year, m, DaysInMonth(year, m))) == Sum(ledger[m - 1])
  {
    BetweenWholes(ledger, year, m);
  }

  /** The part of a year's ledger in the first m months that the report counts as elapsed. */
  function ToDate(ledger: Ledger, year: int, m: nat): int
    requires m <= 12 && |ledger| == 12 && |ledger[8]| >= 18
  {
    if year == 2025 || m <= 8 then MonthsTotal(ledger, m) else MonthsTotal(ledger, 8) + Sum(ledger[8][..18])
  }

  lemma YearPeriod(year: int, day: Option<int>)
    requires ReportYear(year)
    ensures
      var f := Filters(year, None, day);
      && Start(f) == Date(year, 1, 1) && End(f) == Date(year, 12, 31)
      && Cutoff(f) == (if year == 2025 then Date(2025, 12, 31) else Date(2026, 9, 18))
      && RemainingDays(f) == if year == 2025 then 0 else 104
  {
    assert DayNumber(Date(2026, 1, 1)) == 20454 && DayNumber(Date(2026, 9, 18)) == 20714;
    assert DayNumber(Date(2026, 12, 31)) == 20818;
  }

  /** The figures of a whole year: 2025 has elapsed, 2026 up to 18 September. */
  lemma YearFigures(l: Line, property: nat, year: int, day: Option<int>)
    requires LineOk(l) && property < 3 && ReportYear(year)
    ensures
      var x := LineMetrics(l, property, Filters(year, None, day));
      var plan, done := LineLedger(l, property, year, Plan), LineLedger(l, property, year, Actual);
      var prior := LineLedger(l, property, year - 1, Actual);
      && |plan[8]| >= 18 && |done[8]| >= 18 && |prior[8]| >= 18
      && x.plan == MonthsTotal(plan, 12) && x.planToDate == ToDate(plan, year, 12)
      && x.actual == ToDate(done, year, 12)
      && x.ly == MonthsTotal(prior, 12) && x.lytd == ToDate(prior, year, 12)
      && RemainingDays(Filters(year, None, day)) == if year == 2025 then 0 else 104
  {
    hide LineLedger, Between, RemainingDays, Pace, Forecast, PerDay, Cutoff, Sum, MonthsTotal;
    var plan, done := LineLedger(l, property, year, Plan), LineLedger(l, property, year, Actual);
    var prior := LineLedger(l, property, year - 1, Actual);
    YearPeriod(year, day);
    YearRanges(plan, year, year);
    YearRanges(done, year, year);
    YearRanges(prior, year - 1, year);
  }

  lemma YearRanges(ledger: Ledger, year: int, report: int)
    requires LedgerOf(ledger, year)
    ensures Between(ledger, Date(year, 1, 1), Date(year, 12, 31)) == MonthsTotal(ledger, 12)
    ensures |ledger[8]| == 30
    ensures Between(ledger, Date(year, 1, 1), Date(year, 9, 18)) == MonthsTotal(ledger, 8) + Sum(ledger[8][..18])
  {
    hide Between, MonthsTotal, Sum;
    BetweenWholes(ledger, year, 1);
    YearToDay(ledger, year, 9, 18);
    assert |ledger[9 - 1]| == DaysInMonth(year, 9);
  }

  /** In 2025 everything has elapsed: plan, actuals and last year are the share times 0.9, 0.92 and 0.84, rounded. */
  lemma FiguresOf2025(l: Line, property: nat, day: Option<int>)
    requires LineOk(l) && property < 3
    ensures
      var share, x := Share(l, property), LineMetrics(l, property, Filters(2025, None, day));
      && x.plan == x.planToDate == Round(Prod(share as real, 0.9))
      && x.actual == x.forecast == Round(Prod(share as real, 0.92))
      && x.ly == x.lytd == Round(Prod(share as real, 0.84)) && x.requiredPerDay == 0
  {
    hide LineMetrics, LineLedger, Share, SeasonalPart, Sum, Prod;
    YearFigures(l, property, 2025, day);
    LedgerExactly(l, property, 2025, Plan, 0.9, 1);
    LedgerExactly(l, property, 2025, Actual, 0.92, 1);
    LedgerExactly(l, property, 2024, Actual, 0.84, 1);
    LeafCoheres(l, property, Filters(2025, None, day));
  }

  /** An elapsed month of 2026 has as actuals its seasonal part of the share times the line's own factor. */
  lemma ElapsedMonthOf2026(l: Line, property: nat, m: int)
    requires LineOk(l) && property < 3 && 1 <= m <= 8
    ensures
      var factor := match l.actualFactor case Some(x) => x case None => 1.0;
      var share, x := Share(l, property), LineMetrics(l, property, Filters(2026, Some(m), None));
      && x.actual == SeasonalPart(Round(Prod(share as real, factor)), l.season, m)
      && x.plan == x.planToDate == SeasonalPart(Round(Prod(share as real, 1.0)), l.season, m)
      && x.ly == SeasonalPart(Round(Prod(share as real, 0.92)), l.season, m)
  {
    hide LineMetrics, LineLedger, Share, SeasonalPart, Sum, Prod, DaysInMonth;
    var factor := match l.actualFactor case Some(x) => x case None => 1.0;
    MonthFigures(l, property, 2026, m, None);
    LedgerExactly(l, property, 2026, Plan, 1.0, m);
    LedgerExactly(l, property, 2026, Actual, factor, m);
    LedgerExactly(l, property, 2025, Actual, 0.92, m);
    var plan, done := LineLedger(l, property, 2026, Plan)[m - 1], LineLedger(l, property, 2026, Actual)[m - 1];
    assert plan[..|plan|] == plan && done[..|done|] == done;
  }

  /**
   * The forecast adds the remaining plan at the pace of the actuals, the pace taken between 75 and 125
   * percent, and at plan when nothing was planned so far.
   */
  lemma ForecastExactly(l: Line, property: nat, f: Filters)
    requires LineOk(l) && property < 3 && FiltersOk(f) && RemainingDays(f) != 0
    ensures
      var x := LineMetrics(l, property, f);
      var done, rest := x.actual as real, (x.plan - x.planToDate) as real;
      && (x.planToDate <= 0 ==> x.forecast == Round(done + rest))
      && (x.planToDate > 0 && 4 * x.actual < 3 * x.planToDate ==> x.forecast == Round(done + Prod(rest, 0.75)))
      && (x.planToDate > 0 && 4 * x.actual > 5 * x.planToDate ==> x.forecast == Round(done + Prod(rest, 1.25)))
      && (x.planToDate > 0 && 3 * x.planToDate <= 4 * x.actual <= 5 * x.planToDate ==>
          x.forecast == Round(done + Prod(rest, done / x.planToDate as real)))
  {
    hide LineLedger, Between, RemainingDays, PerDay, Cutoff, Prod, Pace;
    var x := LineMetrics(l, property, f);
    assert x.forecast == Forecast(x.actual, x.plan - x.planToDate, Pace(x.actual, x.planToDate));
    hide LineMetrics;
    if x.planToDate > 0 {
      PaceExactly(x.actual, x.planToDate);
    } else {
      AtPlan(x.actual, x.planToDate, (x.plan - x.planToDate) as real);
    }
  }

  lemma AtPlan(actual: int, planToDate: int, rest: real)
    requires planToDate <= 0
    ensures Prod(rest, Pace(actual, planToDate)) == rest
  {}

  lemma PaceExactly(actual: int, planToDate: int)
    requires planToDate > 0
    ensures Pace(actual, planToDate) ==
      if 4 * actual < 3 * planToDate then 0.75 else if 4 * actual > 5 * planToDate then 1.25
      else actual as real / planToDate as real
  {
    hide Prod;
    QuotientOrder(actual as real, planToDate as real, 0.75);
    QuotientOrder(actual as real, planToDate as real, 1.25);
    QuarterSteps(actual, planToDate);
  }

  lemma QuotientOrder(a: real, d: real, c: real)
    requires d > 0.0
    ensures (a / d < c <==> a < Prod(c, d)) && (a / d > c <==> a > Prod(c, d))
  {
    QuotientTimes(a, d);
    ScaleOrder(a / d, c, d);
    ScaleOrder(c, a / d, d);
  }

  lemma QuarterSteps(a: int, b: int)
    ensures 4 * a < 3 * b <==> a as real < Prod(0.75, b as real)
    ensures 4 * a > 5 * b <==> a as real > Prod(1.25, b as real)
  {
    assert (4 * a) as real == 4.0 * a as real;
    assert (3 * b) as real == 3.0 * b as real && (5 * b) as real == 5.0 * b as real;
  }

  // ----- Totals ---------------------------------------------------------------

  /** One figure of every row. */
  function Column(ms: seq<Metrics>, figure: Metrics -> int): (r: seq<int>)
    ensures |r| == |ms|
  {
    seq(|ms|, i requires 0 <= i < |ms| => figure(ms[i]))
  }

  lemma {:induction false} ColumnSum(ms: seq<Metrics>, figure: Metrics -> int)
    requires figure(ZERO) == 0 && forall a, b :: figure(Add(a, b)) == figure(a) + figure(b)
    ensures figure(Aggregate(ms)) == Sum(Column(ms, figure))
  {
    if ms != [] {
      var n := |ms| - 1;
      ColumnSum(ms[..n], figure);
      assert Column(ms, figure)[..n] == Column(ms[..n], figure);
    }
  }

  /** An aggregate adds up every figure separately. */
  lemma AggregateIsComponentwise(ms: seq<Metrics>)
    ensures
      var t := Aggregate(ms);
      && t.plan == Sum(Column(ms, (x: Metrics) => x.plan))
      && t.planToDate == Sum(Column(ms, (x: Metrics) => x.planToDate))
      && t.actual == Sum(Column(ms, (x: Metrics) => x.actual))
      && t.ly == Sum(Column(ms, (x: Metrics) => x.ly))
      && t.lytd == Sum(Column(ms, (x: Metrics) => x.lytd))
      && t.forecast == Sum(Column(ms, (x: Metrics) => x.forecast))
      && t.remaining == Sum(Column(ms, (x: Metrics) => x.remaining))
      && t.requiredPerDay == Sum(Column(ms, (x: Metrics) => x.requiredPerDay))
  {
    hide Sum, Column, Aggregate;
    ColumnSum(ms, (x: Metrics) => x.plan);
    ColumnSum(ms, (x: Metrics) => x.planToDate);
    ColumnSum(ms, (x: Metrics) => x.actual);
    ColumnSum(ms, (x: Metrics) => x.ly);
    ColumnSum(ms, (x: Metrics) => x.lytd);
    ColumnSum(ms, (x: Metrics) => x.forecast);
    ColumnSum(ms, (x: Metrics) => x.remaining);
    ColumnSum(ms, (x: Metrics) => x.requiredPerDay);
  }

  // ----- The months of a year -------------------------------------------------

  /** The figures that are sums of ledger days; forecast and daily requirement are not. */
  function Booked(x: Metrics): Metrics {
    x.(forecast := 0, remaining := 0, requiredPerDay := 0)
  }

  lemma BookedAdds(a: Metrics, b: Metrics)
    ensures Booked(Add(a, b)) == Add(Booked(a), Booked(b))
  {}

  lemma AddSwaps(a: Metrics, b: Metrics, c: Metrics, d: Metrics)
    ensures Add(Add(a, b), Add(c, d)) == Add(Add(a, c), Add(b, d))
  {}

  function LineMonths(l: Line, property: nat, year: int, m: nat): Metrics
    requires LineOk(l) && property < 3 && ReportYear(year) && m <= 12
  {
    if m == 0 then ZERO
    else Add(LineMonths(l, property, year, m - 1), Booked(LineMetrics(l, property, Filters(year, Some(m), None))))
  }

  /** The amount of 29 February of the year before, when that is a leap year. */
  function LeapDay(l: Line, property: nat, year: int): int
    requires LineOk(l) && property < 3
  {
    var prior := LineLedger(l, property, year - 1, Actual);
    assert |prior[2 - 1]| == DaysInMonth(year - 1, 2);
    if Leap(year - 1) then prior[1][28] else 0
  }

  /** The leading elapsed days of a month, for a ledger of the report's year or of the year before. */
  lemma ElapsedPart(ledger: Ledger, year: int, report: int, m: int)
    requires LedgerOf(ledger, year) && ReportYear(report) && year in {report, report - 1} && 1 <= m <= 12
    ensures |ledger[8]| >= 18 && |ledger[1]| == (if Leap(year) then 29 else 28)
    ensures Elapsed(report, m, None) <= |ledger[m - 1]|
    ensures ToDate(ledger, report, m) == ToDate(ledger, report, m - 1) + Sum(ledger[m - 1][..Elapsed(report, m, None)])
      + if m == 2 && Leap(year) then ledger[1][28] else 0
  {
    assert |ledger[m - 1]| == DaysInMonth(year, m) && |ledger[9 - 1]| == DaysInMonth(year, 9);
    assert |ledger[2 - 1]| == DaysInMonth(year, 2);
    assert !Leap(2025) && !Leap(2026) && Leap(2024);
    var month, k := ledger[m - 1], Elapsed(report, m, None);
    SumEmpty();
    assert month[..|month|] == month;
    if m == 2 && Leap(year) {
      SumLast(month);
    }
    hide Sum;
  }

  /** The first m months of a line, from its ledgers. */
  lemma {:induction false} LineMonthsExactly(l: Line, property: nat, year: int, m: nat)
    requires LineOk(l) && property < 3 && ReportYear(year) && m <= 12
    ensures
      var plan, done := LineLedger(l, property, year, Plan), LineLedger(l, property, year, Actual);
      var prior := LineLedger(l, property, year - 1, Actual);
      && |plan[8]| >= 18 && |done[8]| >= 18 && |prior[8]| >= 18
      && var x := LineMonths(l, property, year, m);
      && x.plan == MonthsTotal(plan, m) && x.planToDate == ToDate(plan, year, m)
      && x.actual == ToDate(done, year, m) && x.ly == MonthsTotal(prior, m)
      && x.lytd == ToDate(prior, year, m) - (if m >= 2 then LeapDay(l, property, year) else 0)
      && x == Booked(x)
  {
    hide LineLedger, LineMetrics, ToDate, MonthsTotal, LeapDay;
    var plan, done := LineLedger(l, property, year, Plan), LineLedger(l, property, year, Actual);
    var prior := LineLedger(l, property, year - 1, Actual);
    NothingToDate(plan, year, year);
    NothingToDate(done, year, year);
    NothingToDate(prior, year - 1, year);
    if m > 0 {
      LineMonthsExactly(l, property, year, m - 1);
      CurrentStep(l, property, year, m);
      PriorStep(l, property, year, m);
    }
  }

  /** What one month adds. */
  lemma CurrentStep(l: Line, property: nat, year: int, m: nat)
    requires LineOk(l) && property < 3 && ReportYear(year) && 1 <= m <= 12
    ensures
      var plan, done := LineLedger(l, property, year, Plan), LineLedger(l, property, year, Actual);
      var x := LineMetrics(l, property, Filters(year, Some(m), None));
      && |plan[8]| >= 18 && |done[8]| >= 18
      && x.plan == MonthsTotal(plan, m) - MonthsTotal(plan, m - 1)
      && x.planToDate == ToDate(plan, year, m) - ToDate(plan, year, m - 1)
      && x.actual == ToDate(done, year, m) - ToDate(done, year, m - 1)
  {
    LeapDayIs(l, property, year);
    hide LineLedger, LineMetrics, Elapsed, Sum, ToDate, Leap, LeapDay, DaysInMonth, LedgerNonNegative, LineOk;
    MonthFigures(l, property, year, m, None);
    ElapsedPart(LineLedger(l, property, year, Plan), year, year, m);
    ElapsedPart(LineLedger(l, property, year, Actual), year, year, m);
  }

  lemma PriorStep(l: Line, property: nat, year: int, m: nat)
    requires LineOk(l) && property < 3 && ReportYear(year) && 1 <= m <= 12
    ensures
      var prior := LineLedger(l, property, year - 1, Actual);
      var x := LineMetrics(l, property, Filters(year, Some(m), None));
      && |prior[8]| >= 18
      && x.ly == MonthsTotal(prior, m) - MonthsTotal(prior, m - 1)
      && x.lytd == ToDate(prior, year, m) - ToDate(prior, year, m - 1)
           - if m == 2 then LeapDay(l, property, year) else 0
  {
    LeapDayIs(l, property, year);
    hide LineLedger, LineMetrics, Elapsed, Sum, ToDate, Leap, LeapDay, DaysInMonth, LedgerNonNegative, LineOk;
    MonthFigures(l, property, year, m, None);
    ElapsedPart(LineLedger(l, property, year - 1, Actual), year - 1, year, m);
  }

  lemma LeapDayIs(l: Line, property: nat, year: int)
    requires LineOk(l) && property < 3 && ReportYear(year)
    ensures
      var prior := LineLedger(l, property, year - 1, Actual);
      && |prior[1]| == (if Leap(year - 1) then 29 else 28) && !Leap(year)
      && LeapDay(l, property, year) == if Leap(year - 1) then prior[1][28] else 0
  {
    hide LineLedger;
    var prior := LineLedger(l, property, year - 1, Actual);
    assert |prior[2 - 1]| == DaysInMonth(year - 1, 2);
    assert !Leap(2025) && !Leap(2026);
  }

  lemma NothingToDate(ledger: Ledger, year: int, report: int)
    requires LedgerOf(ledger, year)
    ensures |ledger[8]| >= 18 && ToDate(ledger, report, 0) == 0 && MonthsTotal(ledger, 0) == 0
  {
    assert |ledger[9 - 1]| == DaysInMonth(year, 9);
  }

  /** The months of a line add up to its year, but for the leap day that no month of last year to date reaches. */
  lemma LineMonthsAddUp(l: Line, property: nat, year: int)
    requires LineOk(l) && property < 3 && ReportYear(year)
    ensures Booked(LineMetrics(l, property, Filters(year, None, None)))
      == Add(LineMonths(l, property, year, 12), ZERO.(lytd := LeapDay(l, property, year)))
  {
    hide LineLedger, LineMetrics, MonthsTotal, ToDate, LineMonths, LeapDay;
    LineMonthsExactly(l, property, year, 12);
    YearFigures(l, property, year, None);
  }

  /** The booked figures of all lines at one property. */
  function BookedOf(lines: seq<Line>, property: nat, f: Filters): Metrics
    requires LinesOk(lines) && property < 3 && FiltersOk(f)
  {
    Booked(Aggregate(LeafMetrics(lines, property, f)))
  }

  function MonthsOf(lines: seq<Line>, property: nat, year: int, m: nat): Metrics
    requires LinesOk(lines) && property < 3 && ReportYear(year) && m <= 12
  {
    if m == 0 then ZERO
    else Add(MonthsOf(lines, property, year, m - 1), BookedOf(lines, property, Filters(year, Some(m), None)))
  }

  function LeapDays(lines: seq<Line>, property: nat, year: int): Metrics
    requires LinesOk(lines) && property < 3
  {
    if lines == [] then ZERO
    else
      var n := |lines| - 1;
      Add(LeapDays(lines[..n], property, year), ZERO.(lytd := LeapDay(lines[n], property, year)))
  }

  lemma LeafSnoc(lines: seq<Line>, property: nat, f: Filters)
    requires LinesOk(lines) && lines != [] && property < 3 && FiltersOk(f)
    ensures LinesOk(lines[..|lines| - 1]) && LineOk(lines[|lines| - 1])
    ensures var n := |lines| - 1;
      LeafMetrics(lines, property, f) == LeafMetrics(lines[..n], property, f) + [LineMetrics(lines[n], property, f)]
  {
    hide LineMetrics;
  }

  lemma BookedSnoc(lines: seq<Line>, property: nat, f: Filters)
    requires LinesOk(lines) && lines != [] && property < 3 && FiltersOk(f)
    ensures LinesOk(lines[..|lines| - 1]) && LineOk(lines[|lines| - 1])
    ensures var n := |lines| - 1;
      BookedOf(lines, property, f) == Add(BookedOf(lines[..n], property, f), Booked(LineMetrics(lines[n], property, f)))
  {
    LinesOkPrefix(lines);
    LeafSnoc(lines, property, f);
    hide LineMetrics, LeafMetrics, Booked, Add, LineOk, LinesOk, FiltersOk, Aggregate;
    var n := |lines| - 1;
    AggregateSnoc(LeafMetrics(lines[..n], property, f), LineMetrics(lines[n], property, f));
    BookedAdds(Aggregate(LeafMetrics(lines[..n], property, f)), LineMetrics(lines[n], property, f));
  }

  lemma {:induction false} MonthsSnoc(lines: seq<Line>, property: nat, year: int, m: nat)
    requires LinesOk(lines) && lines != [] && property < 3 && ReportYear(year) && m <= 12
    ensures LinesOk(lines[..|lines| - 1]) && LineOk(lines[|lines| - 1])
    ensures var n := |lines| - 1;
      MonthsOf(lines, property, year, m)
        == Add(MonthsOf(lines[..n], property, year, m), LineMonths(lines[n], property, year, m))
  {
    hide LineMetrics, BookedOf, Booked, Add, LinesOk, LineOk;
    LinesOkPrefix(lines);
    ZeroIsNeutral();
    var n := |lines| - 1;
    if m > 0 {
      var f := Filters(year, Some(m), None);
      MonthsSnoc(lines, property, year, m - 1);
      BookedSnoc(lines, property, f);
      AddSwaps(MonthsOf(lines[..n], property, year, m - 1), LineMonths(lines[n], property, year, m - 1),
               BookedOf(lines[..n], property, f), Booked(LineMetrics(lines[n], property, f)));
    }
  }

  /** The months of any lines at one property add up to their year, but for last year's leap day. */
  lemma {:induction false} MonthsAddUp(lines: seq<Line>, property: nat, year: int)
    requires LinesOk(lines) && property < 3 && ReportYear(year)
    ensures BookedOf(lines, property, Filters(year, None, None))
      == Add(MonthsOf(lines, property, year, 12), LeapDays(lines, property, year))
  {
    hide LineMetrics, BookedOf, Booked, LineMonths, LeapDay, MonthsOf, Add, LinesOk, LineOk;
    ZeroIsNeutral();
    if lines == [] {
      NoLines(property, year, 12);
    } else {
      LinesOkPrefix(lines);
      var n := |lines| - 1;
      MonthsAddUp(lines[..n], property, year);
      MonthsSnoc(lines, property, year, 12);
      BookedSnoc(lines, property, Filters(year, None, None));
      LineMonthsAddUp(lines[n], property, year);
      AddSwaps(MonthsOf(lines[..n], property, year, 12), LeapDays(lines[..n], property, year),
               LineMonths(lines[n], property, year, 12), ZERO.(lytd := LeapDay(lines[n], property, year)));
    }
  }

  lemma {:induction false} NoLines(property: nat, year: int, m: nat)
    requires property < 3 && ReportYear(year) && m <= 12
    ensures MonthsOf([], property, year, m) == ZERO && BookedOf([], property, Filters(year, None, None)) == ZERO
  {
    hide Add, BookedOf;
    ZeroIsNeutral();
    NothingBooked(property, Filters(year, None, None));
    if m > 0 {
      NoLines(property, year, m - 1);
      NothingBooked(property, Filters(year, Some(m), None));
    }
  }

  lemma NothingBooked(property: nat, f: Filters)
    requires property < 3 && FiltersOk(f)
    ensures BookedOf([], property, f) == ZERO
  {
    assert LeafMetrics([], property, f) == [];
  }

  lemma LinesOkPrefix(lines: seq<Line>)
    requires LinesOk(lines) && lines != []
    ensures LinesOk(lines[..|lines| - 1]) && LineOk(lines[|lines| - 1])
  {}

  // ----- The months of the report ---------------------------------------------

  ghost predicate Properties(properties: seq<nat>) {
    forall i :: 0 <= i < |properties| ==> properties[i] < 3
  }

  function NetworkMonths(lines: seq<Line>, groups: seq<string>, properties: seq<nat>, year: int, m: nat): Metrics
    requires LinesOk(lines) && ReportYear(year) && m <= 12 && Properties(properties)
  {
    if m == 0 then ZERO
    else
      Add(NetworkMonths(lines, groups, properties, year, m - 1),
          Booked(NetworkMetrics(lines, groups, properties, Filters(year, Some(m), None))))
  }

  function NetworkLeapDays(lines: seq<Line>, properties: seq<nat>, year: int): Metrics
    requires LinesOk(lines) && Properties(properties)
  {
    if properties == [] then ZERO
    else
      var n := |properties| - 1;
      Add(NetworkLeapDays(lines, properties[..n], year), LeapDays(lines, properties[n], year))
  }

  lemma NetworkSnoc(lines: seq<Line>, groups: seq<string>, properties: seq<nat>, f: Filters)
    requires LinesOk(lines) && FiltersOk(f) && Partitioned(lines, groups) && properties != [] && Properties(properties)
    ensures var n := |properties| - 1;
      Booked(NetworkMetrics(lines, groups, properties, f))
        == Add(Booked(NetworkMetrics(lines, groups, properties[..n], f)), BookedOf(lines, properties[n], f))
  {
    hide PropertyMetrics, LeafMetrics, Add, Booked;
    var n := |properties| - 1;
    var rest := seq(n, i requires 0 <= i < n => PropertyMetrics(lines, groups, properties[..n][i], f));
    var last := PropertyMetrics(lines, groups, properties[n], f);
    assert seq(n + 1, i requires 0 <= i < n + 1 => PropertyMetrics(lines, groups, properties[i], f)) == rest + [last];
    AggregateSnoc(rest, last);
    BookedAdds(Aggregate(rest), last);
    PropertyIsSumOfLeaves(lines, groups, properties[n], f);
  }

  lemma {:induction false} NetworkMonthsSnoc(lines: seq<Line>, groups: seq<string>, properties: seq<nat>,
                                             year: int, m: nat)
    requires LinesOk(lines) && Partitioned(lines, groups) && properties != [] && ReportYear(year) && m <= 12
    requires Properties(properties)
    ensures var n := |properties| - 1;
      NetworkMonths(lines, groups, properties, year, m)
        == Add(NetworkMonths(lines, groups, properties[..n], year, m), MonthsOf(lines, properties[n], year, m))
  {
    hide NetworkMetrics, BookedOf, Partitioned, LinesOk, Booked, Add;
    ZeroIsNeutral();
    var n := |properties| - 1;
    if m > 0 {
      var f := Filters(year, Some(m), None);
      NetworkMonthsSnoc(lines, groups, properties, year, m - 1);
      NetworkSnoc(lines, groups, properties, f);
      AddSwaps(NetworkMonths(lines, groups, properties[..n], year, m - 1), MonthsOf(lines, properties[n], year, m - 1),
               Booked(NetworkMetrics(lines, groups, properties[..n], f)), BookedOf(lines, properties[n], f));
    }
  }

  lemma {:induction false} NoProperties(lines: seq<Line>, groups: seq<string>, year: int, m: nat)
    requires LinesOk(lines) && ReportYear(year) && m <= 12
    ensures NetworkMonths(lines, groups, [], year, m) == ZERO
    ensures NetworkMetrics(lines, groups, [], Filters(year, None, None)) == ZERO
  {
    hide LinesOk, PropertyMetrics, Add;
    ZeroIsNeutral();
    if m > 0 {
      NoProperties(lines, groups, year, m - 1);
    }
  }

  /**
   * In the report, plan, plan to date, actuals and last year of the twelve months add up to those of the
   * year; last year to date does too, but for 29 February of a leap year before, which no month reaches.
   */
  lemma {:induction false} ReportMonthsAddUp(lines: seq<Line>, groups: seq<string>, properties: seq<nat>, year: int)
    requires LinesOk(lines) && Partitioned(lines, groups) && ReportYear(year) && Properties(properties)
    ensures Booked(NetworkMetrics(lines, groups, properties, Filters(year, None, None)))
      == Add(NetworkMonths(lines, groups, properties, year, 12), NetworkLeapDays(lines, properties, year))
  {
    hide NetworkMetrics, BookedOf, Partitioned, LinesOk, MonthsOf, NetworkMonths, LeapDays, Add;
    ZeroIsNeutral();
    if properties == [] {
      NoProperties(lines, groups, year, 12);
    } else {
      hide Booked;
      var n := |properties| - 1;
      ReportMonthsAddUp(lines, groups, properties[..n], year);
      NetworkMonthsSnoc(lines, groups, properties, year, 12);
      NetworkSnoc(lines, groups, properties, Filters(year, None, None));
      MonthsAddUp(lines, properties[n], year);
      AddSwaps(NetworkMonths(lines, groups, properties[..n], year, 12), NetworkLeapDays(lines, properties[..n], year),
               MonthsOf(lines, properties[n], year, 12), LeapDays(lines, properties[n], year));
    }
  }

  /** Only last year to date can fall short, and only in 2025. */
  lemma {:induction false} LeapDaysAreLastYear(lines: seq<Line>, properties: seq<nat>, year: int)
    requires LinesOk(lines) && ReportYear(year) && Properties(properties)
    ensures NetworkLeapDays(lines, properties, year) == ZERO.(lytd := NetworkLeapDays(lines, properties, year).lytd)
    ensures NetworkLeapDays(lines, properties, year).lytd >= 0
    ensures year == 2026 ==> NetworkLeapDays(lines, properties, year) == ZERO
  {
    hide LeapDays, Add, LinesOk;
    if properties != [] {
      var n := |properties| - 1;
      LeapDaysAreLastYear(lines, properties[..n], year);
      LeapDaysOfProperty(lines, properties[n], year);
      LastYearAdds(NetworkLeapDays(lines, properties[..n], year).lytd, LeapDays(lines, properties[n], year).lytd);
    }
  }

  lemma {:induction false} LeapDaysOfProperty(lines: seq<Line>, property: nat, year: int)
    requires LinesOk(lines) && ReportYear(year) && property < 3
    ensures LeapDays(lines, property, year) == ZERO.(lytd := LeapDays(lines, property, year).lytd)
    ensures LeapDays(lines, property, year).lytd >= 0 && (year == 2026 ==> LeapDays(lines, property, year) == ZERO)
  {
    hide LeapDay, Add, LinesOk, LineOk;
    if lines != [] {
      var n := |lines| - 1;
      LinesOkPrefix(lines);
      LeapDaysOfProperty(lines[..n], property, year);
      LeapDayOfLine(lines[n], property, year);
      LastYearAdds(LeapDays(lines[..n], property, year).lytd, LeapDay(lines[n], property, year));
    }
  }

  lemma LastYearAdds(x: int, y: int)
    ensures Add(ZERO.(lytd := x), ZERO.(lytd := y)) == ZERO.(lytd := x + y)
  {}

  lemma LeapDayOfLine(l: Line, property: nat, year: int)
    requires LineOk(l) && property < 3 && ReportYear(year)
    ensures LeapDay(l, property, year) >= 0 && (year == 2026 ==> LeapDay(l, property, year) == 0)
  {
    hide LineLedger;
    var prior := LineLedger(l, property, year - 1, Actual);
    assert |prior[2 - 1]| == DaysInMonth(year - 1, 2) && NonNegative(prior[1]);
    assert !Leap(2025);
  }
}
