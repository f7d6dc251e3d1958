/** The management report over the demonstration ledger (apps/dashboard/src/lib/management-demo.ts), exactly. */
module ManagementReport {
  import opened Common
  import opened Calendar
  import opened Allocation

  datatype Season = Leisure | City | Steady | Banquet

  datatype Mode = Plan | Actual

  datatype Line = Line(
    id: string, group: string, annual: int, shares: seq<int>, season: Season, actualFactor: Option<real>)

  function Seasonality(s: Season): (w: seq<int>)
    ensures |w| == 12 && AtLeast(w, 1)
  {
    match s
    case Leisure => [6, 6, 7, 8, 8, 10, 13, 13, 10, 7, 6, 6]
    case City => [8, 8, 9, 9, 9, 8, 7, 7, 9, 9, 9, 8]
    case Steady => [8, 8, 8, 8, 8, 8, 9, 9, 9, 9, 8, 8]
    case Banquet => [5, 6, 8, 9, 10, 11, 10, 9, 10, 10, 7, 5]
  }

  predicate AtLeast(xs: seq<int>, k: int) {
    forall i :: 0 <= i < |xs| ==> xs[i] >= k
  }

  lemma {:induction false} SumAtLeast(xs: seq<int>)
    requires AtLeast(xs, 1)
    ensures Sum(xs) >= |xs| && NonNegative(xs)
  {
    if xs != [] {
      SumAtLeast(xs[..|xs| - 1]);
    }
  }

  /** A line of the demonstration tables: three property shares, nothing negative. */
  predicate LineOk(l: Line) {
    && l.annual >= 0 && |l.shares| == 3 && AtLeast(l.shares, 1)
    && (l.actualFactor.Some? ==> l.actualFactor.value >= 0.0)
  }

  function Factor(l: Line, year: int, mode: Mode): (f: real)
    requires LineOk(l)
    ensures f >= 0.0
  {
    if mode == Plan then (if year == 2025 then 0.9 else 1.0)
    else if year == 2024 then 0.84
    else if year == 2025 then 0.92
    else if l.actualFactor.Some? then l.actualFactor.value else 1.0
  }

  function AnnualFor(l: Line, property: nat, year: int, mode: Mode): (a: int)
    requires LineOk(l) && property < 3
    ensures a >= 0
  {
    SumAtLeast(l.shares);
    AllocatedNonNegative(l.annual, l.shares);
    var share := Allocated(l.annual, l.shares)[property];
    ProdNonNegative(share as real, Factor(l, year, mode));
    Round(Prod(share as real, Factor(l, year, mode)))
  }

  /** 0 is Sunday, as in Date.getDay. */
  function Weekday(d: Date): int
    requires 1 <= d.month <= 12
  {
    (DayNumber(d) + 4) % 7
  }

  function DayWeight(l: Line, mode: Mode, d: Date): (w: int)
    requires 1 <= d.month <= 12
    ensures w >= 1
  {
    if mode == Actual && l.season != Steady && Weekday(d) in {0, 6} then 135 else 100
  }

  function DayWeights(l: Line, year: int, mode: Mode, month: int): (w: seq<int>)
    requires 1 <= month <= 12
    ensures |w| == DaysInMonth(year, month) && AtLeast(w, 1) && Sum(w) > 0 && NonNegative(w)
  {
    var w := seq(DaysInMonth(year, month), i => DayWeight(l, mode, Date(year, month, i + 1)));
    SumAtLeast(w);
    w
  }

  function YearWeights(l: Line, year: int, mode: Mode): (w: seq<seq<int>>)
    ensures |w| == 12
    ensures forall m :: 0 <= m < 12 ==> |w[m]| == DaysInMonth(year, m + 1) && Sum(w[m]) > 0 && NonNegative(w[m])
  {
    seq(12, m requires 0 <= m < 12 => DayWeights(l, year, mode, m + 1))
  }

  /** The line's daily amounts at one property in one year. */
  function LineLedger(l: Line, property: nat, year: int, mode: Mode): (ledger: Ledger)
    requires LineOk(l) && property < 3
    ensures LedgerOf(ledger, year) && LedgerNonNegative(ledger)
    ensures Between(ledger, Date(year, 1, 1), Date(year, 12, 31)) == AnnualFor(l, property, year, mode)
  {
    var annual, season, days := AnnualFor(l, property, year, mode), Seasonality(l.season), YearWeights(l, year, mode);
    SumAtLeast(season);
    SpreadNonNegative(annual, season, days);
    SpreadShape(annual, season, days, year);
    SpreadConserves(annual, season, days, year);
    Spread(annual, season, days)
  }

  lemma SpreadShape(annual: int, monthWeights: seq<int>, dayWeights: seq<seq<int>>, year: int)
    requires |monthWeights| == 12 && |dayWeights| == 12 && Sum(monthWeights) > 0
    requires forall k :: 0 <= k < 12 ==> Sum(dayWeights[k]) > 0 && |dayWeights[k]| == DaysInMonth(year, k + 1)
    ensures LedgerOf(Spread(annual, monthWeights, dayWeights), year)
  {
    hide Allocated, Sum;
    var ledger := Spread(annual, monthWeights, dayWeights);
    forall m | 1 <= m <= 12 ensures |ledger[m - 1]| == DaysInMonth(year, m) {
      assert |ledger[m - 1]| == |dayWeights[m - 1]|;
    }
  }

  // ----- The reporting period -------------------------------------------------

  /** A day of 0 is falsy in the source and selects nothing. */
  datatype Filters = Filters(year: int, month: Option<int>, day: Option<int>)

  predicate FiltersOk(f: Filters) {
    (f.year == 2025 || f.year == 2026) && (f.month.Some? ==> 1 <= f.month.value <= 12)
  }

  const AS_OF := Date(2026, 9, 18)

  function EndOfMonth(year: int, month: int): Date
    requires 1 <= month <= 12
  {
    Date(year, month, DaysInMonth(year, month))
  }

  function Start(f: Filters): Date {
    Date(f.year, if f.month.Some? then f.month.value else 1, 1)
  }

  function End(f: Filters): Date
    requires FiltersOk(f)
  {
    if f.month.Some? then EndOfMonth(f.year, f.month.value) else Date(f.year, 12, 31)
  }

  function Cutoff(f: Filters): Date
    requires FiltersOk(f)
  {
    var selected :=
      if f.day.Some? && f.day.value != 0 && f.month.Some?
      then Date(f.year, f.month.value, Max(1, Min(End(f).day, f.day.value)))
      else End(f);
    if Before(AS_OF, selected) then AS_OF else selected
  }

  function DayCount(a: Date, b: Date): int
    requires 1 <= a.month <= 12 && 1 <= b.month <= 12
  {
    Max(0, DayNumber(b) - DayNumber(a) + 1)
  }

  function RemainingDays(f: Filters): int
    requires FiltersOk(f)
  {
    if Before(Cutoff(f), Start(f)) then DayCount(Start(f), End(f))
    else Max(0, DayCount(Start(f), End(f)) - DayCount(Start(f), Cutoff(f)))
  }

  /** The period lies in the year, and the cutoff is never after its end. */
  lemma PeriodIsSound(f: Filters)
    requires FiltersOk(f)
    ensures InYear(Start(f), f.year) && InYear(End(f), f.year) && InYear(Cutoff(f), f.year)
    ensures !Before(End(f), Start(f)) && !Before(End(f), Cutoff(f))
    ensures InYear(Cutoff(f).(year := f.year - 1), f.year - 1) && InYear(Start(f).(year := f.year - 1), f.year - 1)
  {}

  /** Elapsed and remaining days make up the period; before its start all of it remains. */
  lemma PeriodDaysAddUp(f: Filters)
    requires FiltersOk(f)
    ensures var elapsed := if Before(Cutoff(f), Start(f)) then 0 else DayCount(Start(f), Cutoff(f));
      elapsed + RemainingDays(f) == DayCount(Start(f), End(f)) == DayNumber(End(f)) - DayNumber(Start(f)) + 1
  {
    hide DayNumber;
    PeriodIsSound(f);
    OrderIsDayNumber(Cutoff(f), Start(f));
    OrderIsDayNumber(End(f), Cutoff(f));
    OrderIsDayNumber(End(f), Start(f));
  }

  /** Weekdays advance by one from day to day, and 1970-01-01 was a Thursday. */
  lemma WeekdayAdvances(d: Date)
    requires 1 <= d.month <= 12 && d.day <= DaysInMonth(d.year, d.month)
    ensures Weekday(NextDay(d)) == (Weekday(d) + 1) % 7
    ensures Weekday(Date(1970, 1, 1)) == 4
  {
    hide DayNumber, NextDay, DaysInMonth;
    NextDayNumber(d);
    NextRemainder(DayNumber(d) + 4);
    EpochDay();
  }

  lemma NextRemainder(n: int)
    ensures (n + 1) % 7 == (n % 7 + 1) % 7
  {
    if n % 7 == 6 {
      DivisionIs(n + 1, 7, n / 7 + 1, 0);
    } else {
      DivisionIs(n + 1, 7, n / 7, n % 7 + 1);
    }
  }

  lemma EpochDay()
    ensures DayNumber(Date(1970, 1, 1)) == 0
  {}

  // ----- Metrics --------------------------------------------------------------

  datatype Metrics = Metrics(
    plan: int, planToDate: int, actual: int, ly: int, lytd: int, forecast: int, remaining: int, requiredPerDay: int)

  function Pace(actual: int, planToDate: int): (p: real)
    ensures 0.75 <= p <= 1.25
  {
    if planToDate > 0 then
      var ratio := actual as real / planToDate as real;
      if ratio < 0.75 then 0.75 else if ratio > 1.25 then 1.25 else ratio
    else 1.0
  }

  function Forecast(actual: int, rest: int, pace: real): int {
    Round(actual as real + Prod(rest as real, pace))
  }

  function PerDay(shortfall: int, days: int): int
    requires days != 0
  {
    Ceil(shortfall as real / days as real)
  }

  function LineMetrics(l: Line, property: nat, f: Filters): Metrics
    requires LineOk(l) && property < 3 && FiltersOk(f)
  {
    PeriodIsSound(f);
    var early := Before(Cutoff(f), Start(f));
    var planned, done, prior := LineLedger(l, property, f.year, Plan), LineLedger(l, property, f.year, Actual),
                                LineLedger(l, property, f.year - 1, Actual);
    var priorStart := Start(f).(year := f.year - 1);
    var plan := Between(planned, Start(f), End(f));
    var planToDate := if early then 0 else Between(planned, Start(f), Cutoff(f));
    var actual := if early then 0 else Between(done, Start(f), Cutoff(f));
    var ly := Between(prior, priorStart, EndOfMonth(f.year - 1, End(f).month));
    var lytd := if early then 0 else Between(prior, priorStart, Cutoff(f).(year := f.year - 1));
    var days := RemainingDays(f);
    var forecast :=
      if days == 0 then actual
      else Forecast(actual, plan - planToDate, Pace(actual, planToDate));
    var remaining := Max(0, plan - actual);
    Metrics(plan, planToDate, actual, ly, lytd, forecast, remaining,
            if days != 0 then PerDay(remaining, days) else 0)
  }

  lemma RequiredCovers(shortfall: int, days: int)
    requires days > 0
    ensures shortfall <= PerDay(shortfall, days) * days < shortfall + days
  {
    var r := PerDay(shortfall, days);
    CeilCovers(shortfall as real, days as real, r);
    var product := r * days;
    assert product as real == Prod(r as real, days as real);
    assert shortfall as real <= product as real < (shortfall + days) as real;
  }

  lemma CeilCovers(s: real, d: real, r: int)
    requires d > 0.0 && r == Ceil(s / d)
    ensures s <= Prod(r as real, d) < s + d
  {
    hide Prod;
    QuotientTimes(s, d);
    CoverStep(s / d, r as real, d);
  }

  lemma CoverStep(q: real, r: real, d: real)
    requires d > 0.0 && q <= r < q + 1.0
    ensures Prod(q, d) <= Prod(r, d) && Prod(r, d) < Prod(q, d) + d
  {
    var low, high := r - q, q + 1.0 - r;
    assert low * d >= 0.0 && low * d == r * d - q * d;
    assert high * d > 0.0 && high * d == q * d + d - r * d;
  }

  lemma ForecastBounds(actual: int, rest: int, pace: real)
    requires rest >= 0 && 0.75 <= pace <= 1.25
    ensures var forecast := Forecast(actual, rest, pace) as real;
      actual as real + 0.75 * rest as real - 0.5 < forecast <= actual as real + 1.25 * rest as real + 0.5
  {
    var x := rest as real;
    assert x * (pace - 0.75) >= 0.0 && x * (1.25 - pace) >= 0.0;
  }

  /**
   * The figures of one line at one property fit together, for every filter: nothing is negative,
   * the plan to date is part of the plan and last year to date part of last year; with days left
   * the forecast lies within rounding of the actuals plus 75 to 125 percent of the remaining plan;
   * the required daily amount covers the shortfall with less than one unit a day to spare.
   */
  lemma LeafCoheres(l: Line, property: nat, f: Filters)
    requires LineOk(l) && property < 3 && FiltersOk(f)
    ensures var m := LineMetrics(l, property, f);
      && 0 <= m.planToDate <= m.plan && 0 <= m.actual && 0 <= m.lytd <= m.ly
      && m.remaining == Max(0, m.plan - m.actual)
      && (if RemainingDays(f) == 0 then m.forecast == m.actual && m.requiredPerDay == 0
          else
            && m.actual as real + 0.75 * (m.plan - m.planToDate) as real - 0.5 < m.forecast as real
            && m.forecast as real <= m.actual as real + 1.25 * (m.plan - m.planToDate) as real + 0.5
            && m.remaining <= m.requiredPerDay * RemainingDays(f) < m.remaining + RemainingDays(f))
  {
    hide LineLedger, Between, Start, End, Cutoff, RemainingDays, Pace, Before, Forecast, PerDay;
    PeriodIsSound(f);
    PeriodsFit(l, property, f);
    var m := LineMetrics(l, property, f);
    DaysNonNegative(f);
    if RemainingDays(f) != 0 {
      ForecastBounds(m.actual, m.plan - m.planToDate, Pace(m.actual, m.planToDate));
      RequiredCovers(m.remaining, RemainingDays(f));
    }
  }

  lemma DaysNonNegative(f: Filters)
    requires FiltersOk(f)
    ensures RemainingDays(f) >= 0
  {}

  lemma PeriodsFit(l: Line, property: nat, f: Filters)
    requires LineOk(l) && property < 3 && FiltersOk(f)
    ensures var m := LineMetrics(l, property, f);
      0 <= m.planToDate <= m.plan && 0 <= m.actual && 0 <= m.lytd <= m.ly
  {
    hide LineLedger, Between, RemainingDays, Pace;
    PeriodIsSound(f);
    PriorPeriodIsSound(f);
    BetweenIsMonotone(LineLedger(l, property, f.year, Plan), Start(f), Cutoff(f), End(f));
    BetweenIsMonotone(LineLedger(l, property, f.year, Actual), Start(f), Cutoff(f), End(f));
    BetweenIsMonotone(LineLedger(l, property, f.year - 1, Actual), Start(f).(year := f.year - 1),
                      Cutoff(f).(year := f.year - 1), EndOfMonth(f.year - 1, End(f).month));
  }

  lemma PriorPeriodIsSound(f: Filters)
    requires FiltersOk(f)
    ensures var end := EndOfMonth(f.year - 1, End(f).month);
      InYear(end, f.year - 1) && !Before(end, Cutoff(f).(year := f.year - 1))
  {}

  // ----- The report tree ------------------------------------------------------

  const ZERO := Metrics(0, 0, 0, 0, 0, 0, 0, 0)

  function Add(a: Metrics, b: Metrics): Metrics {
    Metrics(a.plan + b.plan, a.planToDate + b.planToDate, a.actual + b.actual, a.ly + b.ly, a.lytd + b.lytd,
            a.forecast + b.forecast, a.remaining + b.remaining, a.requiredPerDay + b.requiredPerDay)
  }

  function Aggregate(ms: seq<Metrics>): Metrics {
    if ms == [] then ZERO else Add(Aggregate(ms[..|ms| - 1]), ms[|ms| - 1])
  }

  method AggregateLoop(ms: seq<Metrics>) returns (r: Metrics)
    ensures r == Aggregate(ms)
  {
    r := ZERO;
    for i := 0 to |ms|
      invariant r == Aggregate(ms[..i])
    {
      assert ms[..i + 1][..i] == ms[..i];
      r := Add(r, ms[i]);
    }
    assert ms[..|ms|] == ms;
  }

  ghost predicate LinesOk(lines: seq<Line>) {
    forall i :: 0 <= i < |lines| ==> LineOk(lines[i])
  }

  /** The lines of one group, in order. */
  function InGroup(lines: seq<Line>, group: string): (r: seq<Line>)
    requires LinesOk(lines)
    ensures LinesOk(r)
  {
    if lines == [] then []
    else
      var n := |lines| - 1;
      InGroup(lines[..n], group) + if lines[n].group == group then [lines[n]] else []
  }

  function LeafMetrics(lines: seq<Line>, property: nat, f: Filters): (r: seq<Metrics>)
    requires LinesOk(lines) && property < 3 && FiltersOk(f)
    ensures |r| == |lines|
  {
    seq(|lines|, i requires 0 <= i < |lines| => LineMetrics(lines[i], property, f))
  }

  function GroupMetrics(lines: seq<Line>, group: string, property: nat, f: Filters): Metrics
    requires LinesOk(lines) && property < 3 && FiltersOk(f)
  {
    Aggregate(LeafMetrics(InGroup(lines, group), property, f))
  }

  function PropertyMetrics(lines: seq<Line>, groups: seq<string>, property: nat, f: Filters): Metrics
    requires LinesOk(lines) && property < 3 && FiltersOk(f)
  {
    Aggregate(seq(|groups|, i requires 0 <= i < |groups| => GroupMetrics(lines, groups[i], property, f)))
  }

  function NetworkMetrics(lines: seq<Line>, groups: seq<string>, properties: seq<nat>, f: Filters): Metrics
    requires LinesOk(lines) && FiltersOk(f) && forall i :: 0 <= i < |properties| ==> properties[i] < 3
  {
    Aggregate(seq(|properties|, i requires 0 <= i < |properties| => PropertyMetrics(lines, groups, properties[i], f)))
  }

  /** Every line belongs to exactly one listed group. */
  ghost predicate Partitioned(lines: seq<Line>, groups: seq<string>) {
    Distinct(groups) && forall i :: 0 <= i < |lines| ==> lines[i].group in groups
  }

  lemma AggregateSnoc(ms: seq<Metrics>, m: Metrics)
    ensures Aggregate(ms + [m]) == Add(Aggregate(ms), m)
  {
    assert (ms + [m])[..|ms|] == ms;
  }

  function GroupTotals(lines: seq<Line>, groups: seq<string>, property: nat, f: Filters): (r: seq<Metrics>)
    requires LinesOk(lines) && property < 3 && FiltersOk(f)
    ensures |r| == |groups| && forall i :: 0 <= i < |r| ==> r[i] == GroupMetrics(lines, groups[i], property, f)
  {
    seq(|groups|, i requires 0 <= i < |groups| => GroupMetrics(lines, groups[i], property, f))
  }

  /** Changing one summand changes the sum by the same amount. */
  lemma {:induction false} AggregateBump(a: seq<Metrics>, b: seq<Metrics>, k: nat, m: Metrics)
    requires |a| == |b| && k < |a| && b[k] == Add(a[k], m)
    requires forall i :: 0 <= i < |a| && i != k ==> b[i] == a[i]
    ensures Aggregate(b) == Add(Aggregate(a), m)
  {
    var n := |a| - 1;
    if k == n {
      assert a[..n] == b[..n];
    } else {
      AggregateBump(a[..n], b[..n], k, m);
    }
  }

  lemma GroupSnoc(lines: seq<Line>, group: string, property: nat, f: Filters)
    requires LinesOk(lines) && lines != [] && property < 3 && FiltersOk(f)
    ensures var n := |lines| - 1;
      GroupMetrics(lines, group, property, f)
        == if lines[n].group == group
           then Add(GroupMetrics(lines[..n], group, property, f), LineMetrics(lines[n], property, f))
           else GroupMetrics(lines[..n], group, property, f)
  {
    hide LineMetrics;
    var n := |lines| - 1;
    if lines[n].group == group {
      var rest := LeafMetrics(InGroup(lines[..n], group), property, f);
      assert LeafMetrics(InGroup(lines, group), property, f) == rest + [LineMetrics(lines[n], property, f)];
      AggregateSnoc(rest, LineMetrics(lines[n], property, f));
    } else {
      assert InGroup(lines, group) == InGroup(lines[..n], group);
    }
  }

  lemma {:induction false} AllZero(ms: seq<Metrics>)
    requires forall i :: 0 <= i < |ms| ==> ms[i] == ZERO
    ensures Aggregate(ms) == ZERO
  {
    hide Add;
    if ms != [] {
      var n := |ms| - 1;
      AllZero(ms[..n]);
      ZeroIsNeutral();
    }
  }

  lemma ZeroIsNeutral()
    ensures Add(ZERO, ZERO) == ZERO
  {}

  /** A property's total, built group by group, is the sum over its lines. */
  lemma {:induction false} PropertyIsSumOfLeaves(lines: seq<Line>, groups: seq<string>, property: nat, f: Filters)
    requires LinesOk(lines) && property < 3 && FiltersOk(f) && Partitioned(lines, groups)
    ensures PropertyMetrics(lines, groups, property, f) == Aggregate(LeafMetrics(lines, property, f))
  {
    hide LineMetrics, GroupMetrics, LineOk;
    var b := GroupTotals(lines, groups, property, f);
    if lines == [] {
      forall i | 0 <= i < |b| ensures b[i] == ZERO { EmptyGroup(groups[i], property, f); }
      AllZero(b);
    } else {
      var n := |lines| - 1;
      PropertyIsSumOfLeaves(lines[..n], groups, property, f);
      var a := GroupTotals(lines[..n], groups, property, f);
      var k :| 0 <= k < |groups| && groups[k] == lines[n].group;
      forall i | 0 <= i < |groups|
        ensures b[i] == if i == k then Add(a[i], LineMetrics(lines[n], property, f)) else a[i]
      {
        GroupSnoc(lines, groups[i], property, f);
      }
      AggregateBump(a, b, k, LineMetrics(lines[n], property, f));
      assert LeafMetrics(lines, property, f)
        == LeafMetrics(lines[..n], property, f) + [LineMetrics(lines[n], property, f)];
      AggregateSnoc(LeafMetrics(lines[..n], property, f), LineMetrics(lines[n], property, f));
    }
  }

  lemma EmptyGroup(group: string, property: nat, f: Filters)
    requires property < 3 && FiltersOk(f)
    ensures GroupMetrics([], group, property, f) == ZERO
  {}

  /** Network totals are the sum over properties of the sum over lines. */
  lemma NetworkIsSumOfLeaves(lines: seq<Line>, groups: seq<string>, properties: seq<nat>, f: Filters)
    requires LinesOk(lines) && FiltersOk(f) && Partitioned(lines, groups)
    requires forall i :: 0 <= i < |properties| ==> properties[i] < 3
    ensures NetworkMetrics(lines, groups, properties, f)
      == Aggregate(seq(|properties|,
         i requires 0 <= i < |properties| => Aggregate(LeafMetrics(lines, properties[i], f))))
  {
    hide PropertyMetrics, LeafMetrics, Aggregate;
    forall i | 0 <= i < |properties|
      ensures PropertyMetrics(lines, groups, properties[i], f) == Aggregate(LeafMetrics(lines, properties[i], f))
    {
      PropertyIsSumOfLeaves(lines, groups, properties[i], f);
    }
    assert seq(|properties|, i requires 0 <= i < |properties| => PropertyMetrics(lines, groups, properties[i], f))
        == seq(|properties|, i requires 0 <= i < |properties| => Aggregate(LeafMetrics(lines, properties[i], f)));
  }
}
