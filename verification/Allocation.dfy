/** Proportional allocation and the daily ledger built on it (apps/dashboard/src/lib/management-demo.ts). */
module Allocation {
  import opened Common
  import opened Calendar

  function Sum(xs: seq<int>): int {
    if xs == [] then 0 else Sum(xs[..|xs| - 1]) + xs[|xs| - 1]
  }

  predicate NonNegative(xs: seq<int>) {
    forall i :: 0 <= i < |xs| ==> xs[i] >= 0
  }

  lemma {:induction false} SumConcat(a: seq<int>, b: seq<int>)
    ensures Sum(a + b) == Sum(a) + Sum(b)
  {
    if b == [] {
      assert a + b == a;
    } else {
      var n := |b| - 1;
      assert (a + b)[..|a| + n] == a + b[..n];
      SumConcat(a, b[..n]);
    }
  }

  lemma {:induction false} SumNonNegative(xs: seq<int>)
    requires NonNegative(xs)
    ensures Sum(xs) >= 0
  {
    if xs != [] {
      SumNonNegative(xs[..|xs| - 1]);
    }
  }

  // ----- allocate -------------------------------------------------------------

  /** Every part but the last is the rounded-down proportional share. */
  function Floors(total: int, weights: seq<int>, denominator: int): (r: seq<int>)
    requires denominator > 0
    ensures |r| == |weights|
  {
    seq(|weights|, i requires 0 <= i < |weights| => total * weights[i] / denominator)
  }

  function Allocated(total: int, weights: seq<int>): (r: seq<int>)
    requires Sum(weights) > 0
    ensures |r| == |weights|
  {
    if weights == [] then []
    else
      var floors := Floors(total, weights[..|weights| - 1], Sum(weights));
      floors + [total - Sum(floors)]
  }

  /** `weights.reduce((sum, weight) => sum + weight, 0)` */
  method SumLoop(weights: seq<int>) returns (sum: int)
    ensures sum == Sum(weights)
  {
    sum := 0;
    for i := 0 to |weights|
      invariant sum == Sum(weights[..i])
    {
      assert weights[..i + 1][..i] == weights[..i];
      sum := sum + weights[i];
    }
    assert weights[..|weights|] == weights;
  }

  method Allocate(total: int, weights: seq<int>) returns (r: seq<int>)
    requires Sum(weights) > 0
    ensures r == Allocated(total, weights)
  {
    var denominator := SumLoop(weights);
    var given := 0;
    r := [];
    ghost var floors := Floors(total, weights[..|weights| - 1], denominator);
    for index := 0 to |weights|
      invariant |r| == index && given == Sum(r)
      invariant index < |weights| ==> r == floors[..index]
      invariant index == |weights| ==> r == Allocated(total, weights)
    {
      var value := if index == |weights| - 1 then total - given else total * weights[index] / denominator;
      given := given + value;
      assert (r + [value])[..index] == r;
      if index == |weights| - 1 {
        assert floors[..index] == floors;
      }
      r := r + [value];
    }
  }

  /** The parts add up to the total exactly. */
  lemma AllocatedSums(total: int, weights: seq<int>)
    requires Sum(weights) > 0
    ensures Sum(Allocated(total, weights)) == total
  {
    var r := Allocated(total, weights);
    assert r[..|r| - 1] == Floors(total, weights[..|weights| - 1], Sum(weights));
  }

  lemma FloorBounds(a: int, d: int)
    requires d > 0
    ensures d * (a / d) <= a < d * (a / d) + d
  {}

  /** Rounding down loses less than one unit per part. */
  lemma {:induction false} FloorsLoseLittle(total: int, weights: seq<int>, d: int)
    requires d > 0
    ensures var given := d * Sum(Floors(total, weights, d));
      && given <= total * Sum(weights) <= given + d * |weights|
      && (weights != [] ==> total * Sum(weights) < given + d * |weights|)
  {
    if weights != [] {
      var n := |weights| - 1;
      FloorsLoseLittle(total, weights[..n], d);
      var fs := Floors(total, weights, d);
      assert fs[..n] == Floors(total, weights[..n], d);
      FloorBounds(total * weights[n], d);
      LossStep(d, Sum(fs[..n]), fs[n], total, Sum(weights[..n]), weights[n], n);
    }
  }

  lemma LossStep(d: int, s: int, f: int, total: int, ws: int, w: int, n: int)
    requires d * s <= total * ws <= d * s + d * n && d * f <= total * w < d * f + d
    ensures d * (s + f) <= total * (ws + w) < d * (s + f) + d * (n + 1)
  {
    assert d * (s + f) == d * s + d * f && total * (ws + w) == total * ws + total * w && d * (n + 1) == d * n + d;
  }

  /** A non-negative total with non-negative weights is split into non-negative parts. */
  lemma AllocatedNonNegative(total: int, weights: seq<int>)
    requires Sum(weights) > 0 && total >= 0 && NonNegative(weights)
    ensures NonNegative(Allocated(total, weights))
  {
    var n := |weights| - 1;
    var d := Sum(weights);
    var floors := Floors(total, weights[..n], d);
    forall i | 0 <= i < n ensures floors[i] >= 0 {
      ShareNonNegative(total, weights[i], d);
    }
    FloorsLoseLittle(total, weights[..n], d);
    RemainderNonNegative(d, Sum(floors), total, Sum(weights[..n]), weights[n]);
  }

  lemma ShareNonNegative(total: int, w: int, d: int)
    requires total >= 0 && w >= 0 && d > 0
    ensures total * w / d >= 0
  {
    assert total * w >= 0;
  }

  lemma RemainderNonNegative(d: int, s: int, total: int, ws: int, w: int)
    requires d > 0 && d == ws + w && w >= 0 && total >= 0 && d * s <= total * ws
    ensures s <= total
  {
    assert total * ws <= total * d by { assert total * w >= 0 && total * d == total * ws + total * w; }
    assert d * (s - total) <= 0;
  }

  /**
   * Every part but the last is less than one unit below its exact share. The last takes what rounding
   * left over, less than one unit for every other part; a single part is the whole total.
   */
  lemma AllocatedIsFair(total: int, weights: seq<int>, i: nat)
    requires Sum(weights) > 0 && i < |weights|
    ensures var d := Sum(weights);
      var part := Allocated(total, weights)[i];
      if i < |weights| - 1 then d * part <= total * weights[i] < d * part + d
      else if |weights| == 1 then part == total
      else total * weights[i] <= d * part < total * weights[i] + d * (|weights| - 1)
  {
    AllocatedAt(total, weights, i);
    hide Sum, Allocated, Floors;
    var n := |weights| - 1;
    var d := Sum(weights);
    if i < n {
      FloorBounds(total * weights[i], d);
    } else if n == 0 {
      assert Floors(total, weights[..n], d) == [];
      SumEmpty();
    } else {
      LastIsFair(total, weights);
    }
  }

  lemma LastIsFair(total: int, weights: seq<int>)
    requires Sum(weights) > 0 && |weights| >= 2
    ensures
      var n, d := |weights| - 1, Sum(weights);
      var part := total - Sum(Floors(total, weights[..n], d));
      total * weights[n] <= d * part < total * weights[n] + d * n
  {
    hide Sum, Floors;
    var n, d := |weights| - 1, Sum(weights);
    var others := weights[..n];
    assert |others| == n && others != [];
    FloorsLoseLittle(total, others, d);
    SumLast(weights);
    LastPart(d, Sum(Floors(total, others, d)), total, Sum(others), weights[n], n);
  }

  lemma AllocatedAt(total: int, weights: seq<int>, i: nat)
    requires Sum(weights) > 0 && i < |weights|
    ensures var n, d := |weights| - 1, Sum(weights);
      Allocated(total, weights)[i] ==
        if i < n then total * weights[i] / d else total - Sum(Floors(total, weights[..n], d))
  {
    hide Sum;
  }

  lemma LastPart(d: int, s: int, total: int, ws: int, w: int, n: int)
    requires d == ws + w && d * s <= total * ws < d * s + d * n
    ensures total * w <= d * (total - s) < total * w + d * n
  {
    assert d * (total - s) == d * total - d * s;
    assert d * total == total * ws + total * w;
  }

  // ----- A year of days -------------------------------------------------------

  /** Daily amounts, month by month. */
  type Ledger = seq<seq<int>>

  ghost predicate LedgerOf(ledger: Ledger, year: int) {
    |ledger| == 12 && forall m :: 1 <= m <= 12 ==> |ledger[m - 1]| == DaysInMonth(year, m)
  }

  predicate InYear(d: Date, year: int) {
    d.year == year && 1 <= d.month <= 12 && 1 <= d.day <= DaysInMonth(year, d.month)
  }

  /** First day of month m that is not before start, in the source's arithmetic. */
  function First(m: int, start: Date, days: int): int {
    Max(1, if m == start.month then start.day else if m < start.month then days + 1 else 1)
  }

  function Last(m: int, end: Date, days: int): int {
    Min(days, if m == end.month then end.day else if m > end.month then 0 else days)
  }

  /** The amounts of the days of one month that lie in [start, end]. */
  function InMonth(daily: seq<int>, m: int, start: Date, end: Date): seq<int> {
    var first, last := First(m, start, |daily|), Last(m, end, |daily|);
    if first > last then [] else daily[first - 1..last]
  }

  function UpTo(ledger: Ledger, m: nat, start: Date, end: Date): int
    requires m <= |ledger|
  {
    if m == 0 then 0 else UpTo(ledger, m - 1, start, end) + Sum(InMonth(ledger[m - 1], m, start, end))
  }

  /** The amount of all days of [start, end]. */
  function Between(ledger: Ledger, start: Date, end: Date): int
    requires |ledger| == 12
  {
    if Before(end, start) then 0 else UpTo(ledger, 12, start, end)
  }

  method BetweenLoop(ledger: Ledger, year: int, start: Date, end: Date) returns (total: int)
    requires LedgerOf(ledger, year) && InYear(start, year) && InYear(end, year)
    ensures total == Between(ledger, start, end)
  {
    total := 0;
    if Before(end, start) {
      return;
    }
    for month := 1 to 13
      invariant total == UpTo(ledger, month - 1, start, end)
    {
      var amount := MonthLoop(ledger[month - 1], month, start, end);
      total := total + amount;
    }
  }

  /** The part of the loop body that adds up the selected days of one month. */
  method MonthLoop(daily: seq<int>, month: int, start: Date, end: Date) returns (total: int)
    ensures total == Sum(InMonth(daily, month, start, end))
  {
    total := 0;
    var first, last := First(month, start, |daily|), Last(month, end, |daily|);
    if first > last {
      return;
    }
    for day := first to last + 1
      invariant total == Sum(daily[first - 1..day - 1])
    {
      assert daily[first - 1..day][..day - first] == daily[first - 1..day - 1];
      total := total + daily[day - 1];
    }
  }

  lemma SumSlices(xs: seq<int>, a: nat, b: nat, c: nat)
    requires a <= b <= c <= |xs|
    ensures Sum(xs[a..b]) + Sum(xs[b..c]) == Sum(xs[a..c])
  {
    assert xs[a..c] == xs[a..b] + xs[b..c];
    SumConcat(xs[a..b], xs[b..c]);
  }

  lemma InMonthSplits(daily: seq<int>, m: int, start: Date, mid: Date, end: Date)
    requires 1 <= m <= 12 && InYear(start, mid.year) && InYear(mid, mid.year) && InYear(end, mid.year)
    requires |daily| == DaysInMonth(mid.year, m) && !Before(mid, start) && Before(mid, end)
    ensures Sum(InMonth(daily, m, start, mid)) + Sum(InMonth(daily, m, NextDay(mid), end))
      == Sum(InMonth(daily, m, start, end))
  {
    hide Sum, DaysInMonth;
    assert Sum([]) == 0 by { SumEmpty(); }
    if m == mid.month {
      var lo, hi := First(m, start, |daily|) - 1, Last(m, end, |daily|);
      SumSlices(daily, lo, mid.day, hi);
      if mid.day == |daily| {
        assert daily[mid.day..hi] == [];
      }
    }
  }

  lemma SumLast(xs: seq<int>)
    requires xs != []
    ensures Sum(xs) == Sum(xs[..|xs| - 1]) + xs[|xs| - 1]
  {}

  lemma SumEmpty()
    ensures Sum([]) == 0
  {}

  lemma {:induction false} UpToSplits(ledger: Ledger, m: nat, start: Date, mid: Date, end: Date)
    requires LedgerOf(ledger, mid.year) && m <= 12
    requires InYear(start, mid.year) && InYear(mid, mid.year) && InYear(end, mid.year)
    requires !Before(mid, start) && Before(mid, end)
    ensures UpTo(ledger, m, start, mid) + UpTo(ledger, m, NextDay(mid), end) == UpTo(ledger, m, start, end)
  {
    hide InMonth, NextDay, Before;
    if m > 0 {
      UpToSplits(ledger, m - 1, start, mid, end);
      InMonthSplits(ledger[m - 1], m, start, mid, end);
    }
  }

  /** Adjacent date ranges of one year add up. */
  lemma BetweenSplits(ledger: Ledger, start: Date, mid: Date, end: Date)
    requires LedgerOf(ledger, mid.year)
    requires InYear(start, mid.year) && InYear(mid, mid.year) && InYear(end, mid.year)
    requires !Before(mid, start) && Before(mid, end)
    ensures Between(ledger, start, mid) + Between(ledger, NextDay(mid), end) == Between(ledger, start, end)
  {
    UpToSplits(ledger, 12, start, mid, end);
    NextIsNotAfter(mid, end);
  }

  lemma NextIsNotAfter(mid: Date, end: Date)
    requires InYear(mid, mid.year) && InYear(end, mid.year) && Before(mid, end)
    ensures !Before(end, NextDay(mid)) && InYear(NextDay(mid), mid.year)
  {}

  /** All daily amounts of the first m months. */
  function MonthsTotal(ledger: Ledger, m: nat): int
    requires m <= |ledger|
  {
    if m == 0 then 0 else MonthsTotal(ledger, m - 1) + Sum(ledger[m - 1])
  }

  lemma {:induction false} UpToWholeYear(ledger: Ledger, year: int, m: nat)
    requires LedgerOf(ledger, year) && m <= 12
    ensures UpTo(ledger, m, Date(year, 1, 1), Date(year, 12, 31)) == MonthsTotal(ledger, m)
  {
    if m > 0 {
      hide InMonth;
      UpToWholeYear(ledger, year, m - 1);
      WholeMonthOfYear(ledger[m - 1], year, m);
    }
  }

  lemma WholeMonthOfYear(daily: seq<int>, year: int, m: nat)
    requires 1 <= m <= 12 && |daily| == DaysInMonth(year, m)
    ensures InMonth(daily, m, Date(year, 1, 1), Date(year, 12, 31)) == daily
  {
    assert First(m, Date(year, 1, 1), |daily|) == 1 && Last(m, Date(year, 12, 31), |daily|) == |daily|;
    assert daily[0..|daily|] == daily;
  }

  lemma {:induction false} UpToOneMonth(ledger: Ledger, year: int, month: int, m: nat)
    requires LedgerOf(ledger, year) && m <= 12 && 1 <= month <= 12
    ensures UpTo(ledger, m, Date(year, month, 1), Date(year, month, DaysInMonth(year, month)))
      == if m < month then 0 else Sum(ledger[month - 1])
  {
    if m > 0 {
      UpToOneMonth(ledger, year, month, m - 1);
      var daily := InMonth(ledger[m - 1], m, Date(year, month, 1), Date(year, month, DaysInMonth(year, month)));
      assert daily == if m == month then ledger[m - 1] else [];
    }
  }

  /** The whole year is the sum of its months, and a month is the sum of its days. */
  lemma BetweenWholes(ledger: Ledger, year: int, month: int)
    requires LedgerOf(ledger, year) && 1 <= month <= 12
    ensures Between(ledger, Date(year, 1, 1), Date(year, 12, 31)) == MonthsTotal(ledger, 12)
    ensures Between(ledger, Date(year, month, 1), Date(year, month, DaysInMonth(year, month))) == Sum(ledger[month - 1])
  {
    UpToWholeYear(ledger, year, 12);
    UpToOneMonth(ledger, year, month, 12);
  }

  ghost predicate LedgerNonNegative(ledger: Ledger) {
    forall m :: 0 <= m < |ledger| ==> NonNegative(ledger[m])
  }

  lemma {:induction false} UpToNonNegative(ledger: Ledger, m: nat, start: Date, end: Date)
    requires LedgerNonNegative(ledger) && m <= |ledger|
    ensures UpTo(ledger, m, start, end) >= 0
  {
    if m > 0 {
      UpToNonNegative(ledger, m - 1, start, end);
      assert NonNegative(ledger[m - 1]);
      SumNonNegative(InMonth(ledger[m - 1], m, start, end));
    }
  }

  /** With non-negative days, a longer range has at least the amount of a shorter one. */
  lemma BetweenIsMonotone(ledger: Ledger, start: Date, mid: Date, end: Date)
    requires LedgerOf(ledger, start.year) && LedgerNonNegative(ledger)
    requires InYear(start, start.year) && InYear(mid, start.year) && InYear(end, start.year) && !Before(end, mid)
    ensures 0 <= Between(ledger, start, mid) <= Between(ledger, start, end)
  {
    UpToNonNegative(ledger, 12, start, mid);
    UpToNonNegative(ledger, 12, start, end);
    if !Before(mid, start) && Before(mid, end) {
      BetweenSplits(ledger, start, mid, end);
      UpToNonNegative(ledger, 12, NextDay(mid), end);
    }
  }

  // ----- Two nested allocations -----------------------------------------------

  /** An annual figure spread over the months and each month over its days. */
  function Spread(annual: int, monthWeights: seq<int>, dayWeights: seq<seq<int>>): Ledger
    requires |monthWeights| == 12 && |dayWeights| == 12 && Sum(monthWeights) > 0
    requires forall m :: 0 <= m < 12 ==> Sum(dayWeights[m]) > 0
  {
    var months := Allocated(annual, monthWeights);
    seq(12, m requires 0 <= m < 12 => Allocated(months[m], dayWeights[m]))
  }

  lemma {:induction false} SpreadMonthsTotal(annual: int, monthWeights: seq<int>, dayWeights: seq<seq<int>>, m: nat)
    requires |monthWeights| == 12 && |dayWeights| == 12 && Sum(monthWeights) > 0 && m <= 12
    requires forall k :: 0 <= k < 12 ==> Sum(dayWeights[k]) > 0
    ensures MonthsTotal(Spread(annual, monthWeights, dayWeights), m) == Sum(Allocated(annual, monthWeights)[..m])
  {
    hide Allocated;
    var months := Allocated(annual, monthWeights);
    if m > 0 {
      SpreadMonthsTotal(annual, monthWeights, dayWeights, m - 1);
      AllocatedSums(months[m - 1], dayWeights[m - 1]);
      assert months[..m][..m - 1] == months[..m - 1];
    }
  }

  /** Nothing is lost through the two levels: the days of the year add up to the annual figure. */
  lemma SpreadConserves(annual: int, monthWeights: seq<int>, dayWeights: seq<seq<int>>, year: int)
    requires |monthWeights| == 12 && |dayWeights| == 12 && Sum(monthWeights) > 0
    requires forall k :: 0 <= k < 12 ==> Sum(dayWeights[k]) > 0
    requires LedgerOf(Spread(annual, monthWeights, dayWeights), year)
    ensures Between(Spread(annual, monthWeights, dayWeights), Date(year, 1, 1), Date(year, 12, 31)) == annual
  {
    hide Spread, Between;
    BetweenWholes(Spread(annual, monthWeights, dayWeights), year, 1);
    SpreadMonthsTotal(annual, monthWeights, dayWeights, 12);
    AllocatedSums(annual, monthWeights);
    assert Allocated(annual, monthWeights)[..12] == Allocated(annual, monthWeights);
  }

  lemma SpreadNonNegative(annual: int, monthWeights: seq<int>, dayWeights: seq<seq<int>>)
    requires |monthWeights| == 12 && |dayWeights| == 12 && Sum(monthWeights) > 0
      && annual >= 0 && NonNegative(monthWeights)
    requires forall k :: 0 <= k < 12 ==> Sum(dayWeights[k]) > 0 && NonNegative(dayWeights[k])
    ensures LedgerNonNegative(Spread(annual, monthWeights, dayWeights))
  {
    hide Allocated;
    var months := Allocated(annual, monthWeights);
    AllocatedNonNegative(annual, monthWeights);
    forall m | 0 <= m < 12 ensures NonNegative(Spread(annual, monthWeights, dayWeights)[m]) {
      AllocatedNonNegative(months[m], dayWeights[m]);
    }
  }
}
