/**
 * Stay-date validation and enumeration (packages/shared/src/stay-dates.ts,
 * packages/shared/src/canonical-calendar-date.validator.ts and stayNightKeys of
 * apps/dashboard/src/lib/dynamic-pricing.ts).
 */
module StayDates {
  import opened Common
  import opened Calendar

  /**
   * `new Date(text + 'T00:00:00.000Z')` as a day number, None for an invalid date. Only its
   * behaviour on real calendar dates is assumed; engines differ on texts such as 02-30.
   */
  type DateParser = string -> Option<int>

  ghost predicate Honest(parse: DateParser) {
    forall d: Date :: ValidDate(d) ==> parse(Iso(d)) == Some(DayNumber(d))
  }

  /** `toISOString().slice(0, 10)`; outside the four-digit years the text starts with a sign. */
  function ShownDate(n: int): Option<string> {
    if FourDigitDay(n) then Some(Iso(DateOf(n))) else None
  }

  predicate IsCanonicalCalendarDate(s: string, parse: DateParser) {
    IsoShaped(s) && parse(s).Some? && ShownDate(parse(s).value) == Some(s)
  }

  /** The canonical texts are exactly the texts of calendar dates, whatever the engine makes of the others. */
  lemma CanonicalIsCalendarDate(s: string, parse: DateParser)
    requires Honest(parse)
    ensures IsCanonicalCalendarDate(s, parse) <==> exists d :: ValidDate(d) && Iso(d) == s
  {
    if d :| ValidDate(d) && Iso(d) == s {
      ValidDayRange(d);
      IsoIsShaped(d);
    }
  }

  lemma CanonicalParse(s: string, parse: DateParser) returns (d: Date)
    requires Honest(parse) && IsCanonicalCalendarDate(s, parse)
    ensures ValidDate(d) && Iso(d) == s && parse(s) == Some(DayNumber(d)) && FourDigitDay(DayNumber(d))
  {
    d := DateOf(parse(s).value);
  }

  datatype StayError = NotIsoShaped | NotAStay

  /** assertCanonicalStayDates passes: both dates canonical, and the texts in order. */
  predicate StayAccepted(checkIn: string, checkOut: string, parse: DateParser) {
    IsCanonicalCalendarDate(checkIn, parse) && IsCanonicalCalendarDate(checkOut, parse) && StrLess(checkIn, checkOut)
  }

  /** The days of 400 years, after which the calendar repeats. */
  const ERA := 146097

  lemma EraShift(d: Date)
    requires 1 <= d.month <= 12
    ensures DayNumber(d.(year := d.year + 400)) == DayNumber(d) + ERA
  {
    YearShift(d.year);
    MonthsShift(d.year, d.month);
  }

  lemma YearShift(y: int)
    ensures DayFromYear(y + 400) == DayFromYear(y) + ERA
  {
    hide Quotient;
    QuotientShift(y - 1969, 4, 100);
    QuotientShift(y - 1901, 100, 4);
    QuotientShift(y - 1601, 400, 1);
  }

  lemma {:induction false} MonthsShift(y: int, m: int)
    requires 1 <= m <= 13
    ensures DaysBeforeMonth(y + 400, m) == DaysBeforeMonth(y, m)
    decreases m
  {
    hide Leap;
    if m > 1 {
      LeapRepeats(y);
      MonthsShift(y, m - 1);
    }
  }

  lemma QuotientShift(n: int, k: int, j: int)
    requires k > 0
    ensures Quotient(n + k * j, k) == Quotient(n, k) + j
  {
    DivisionIs(n + k * j, k, n / k + j, n % k);
  }

  lemma LeapRepeats(y: int)
    ensures Leap(y + 400) == Leap(y)
  {
    assert Divides(4, y + 400) == Divides(4, y) by { DivisionIs(y + 400, 4, y / 4 + 100, y % 4); }
    assert Divides(100, y + 400) == Divides(100, y) by { DivisionIs(y + 400, 100, y / 100 + 4, y % 100); }
    assert Divides(400, y + 400) == Divides(400, y) by { DivisionIs(y + 400, 400, y / 400 + 1, y % 400); }
  }

  /** A date after the year 9999. */
  function LaterDate(n: int): (d: Date)
    requires LAST_DAY < n <= LAST_DAY + ERA
    ensures 10000 <= d.year <= 10399 && 1 <= d.month <= 12 && 1 <= d.day <= DaysInMonth(d.year, d.month)
    ensures DayNumber(d) == n
  {
    var e := DateOf(n - ERA);
    LeapRepeats(e.year);
    EraShift(e);
    TooLate(e.(year := e.year + 400));
    e.(year := e.year + 400)
  }

  lemma TooLate(d: Date)
    requires 1 <= d.month <= 12 && 1 <= d.day <= DaysInMonth(d.year, d.month) && DayNumber(d) > LAST_DAY
    ensures d.year < 0 || d.year > 9999
  {
    if ValidDate(d) {
      ValidDayRange(d);
    }
  }

  /** `toISOString().slice(0, 10)`: a year past 9999 takes a sign and six digits, which leaves no room for the day. */
  function DayText(n: int): string
    requires FIRST_DAY <= n <= LAST_DAY + ERA
  {
    if n <= LAST_DAY then Iso(DateOf(n))
    else
      var d := LaterDate(n);
      "+" + Digits(d.year, 6) + "-" + Digits(d.month, 2)
  }

  /** The text of any day: that of its calendar date, cut off after the month past the year 9999. */
  lemma DayTextExactly(d: Date)
    requires 0 <= d.year < 10400 && 1 <= d.month <= 12 && 1 <= d.day <= DaysInMonth(d.year, d.month)
    ensures FIRST_DAY <= DayNumber(d) <= LAST_DAY + ERA
    ensures DayText(DayNumber(d)) ==
      if d.year <= 9999 then Iso(d) else "+" + Digits(d.year, 6) + "-" + Digits(d.month, 2)
  {
    hide DayNumber, Iso, Digits, DateOf;
    if d.year <= 9999 {
      ValidDayRange(d);
    } else {
      var e := d.(year := d.year - 400);
      LeapRepeats(e.year);
      EraShift(e);
      ValidDayRange(e);
      OrderIsDayNumber(LAST.(year := 9599), e);
      EraShift(LAST.(year := 9599));
      FirstAndLastDay();
    }
  }

  /** The texts of the days of [from, to). */
  function DayTexts(from: int, to: int): (r: seq<string>)
    requires from < to ==> FIRST_DAY <= from && to <= LAST_DAY + ERA
    ensures |r| == Max(0, to - from)
  {
    seq(Max(0, to - from), i requires 0 <= i < Max(0, to - from) => DayText(from + i))
  }

  /** Up to the year 9999 the text is that of the calendar date. */
  lemma DayTextsAt(from: int, to: int, i: nat)
    requires FourDigitDay(from) && to <= LAST_DAY + 1 && i < to - from
    ensures DayTexts(from, to)[i] == Iso(DateOf(from + i))
  {
    hide Iso, DateOf;
    assert DayText(from + i) == Iso(DateOf(from + i));
  }

  /**
   * Enumerates the nights of a stay. It succeeds exactly when the text-based check accepts the
   * dates, and then returns the text of every day of [checkIn, checkOut), in order.
   */
  method EnumerateStayDates(checkIn: string, checkOut: string, parse: DateParser)
    returns (r: Result<seq<string>, StayError>)
    requires Honest(parse)
    ensures r.Ok? <==> StayAccepted(checkIn, checkOut, parse)
    ensures r.Ok? ==>
      var from, to := parse(checkIn).value, parse(checkOut).value;
      from < to && FourDigitDay(from) && FourDigitDay(to) && r.value == DayTexts(from, to)
    ensures r == Err(NotIsoShaped) <==> !IsoShaped(checkIn) || !IsoShaped(checkOut)
  {
    hide IsoShaped, Iso, ValidDate, StrLess, DayTexts, DateOf;
    if !IsoShaped(checkIn) || !IsoShaped(checkOut) {
      return Err(NotIsoShaped);
    }
    var start, end := parse(checkIn), parse(checkOut);
    if start.None? || end.None? || ShownDate(start.value) != Some(checkIn) || ShownDate(end.value) != Some(checkOut) {
      return Err(NotAStay);
    }
    RangeChecksAgree(checkIn, checkOut, parse);
    if end.value <= start.value {
      return Err(NotAStay);
    }
    var dates := ListDays(start.value, end.value);
    r := Ok(dates);
  }

  /** The loop over the days. */
  method ListDays(start: int, end: int) returns (dates: seq<string>)
    requires FourDigitDay(start) && FourDigitDay(end) && start < end
    ensures dates == DayTexts(start, end)
  {
    hide Iso, ValidDate, DayNumber;
    dates := [];
    var cursor := start;
    while cursor < end
      invariant start <= cursor <= end
      invariant |dates| == cursor - start && dates <= DayTexts(start, end)
    {
      var date := DateOf(cursor);
      DayTextsAt(start, end, cursor - start);
      dates := dates + [Iso(date)];
      cursor := NextUtcDate(date);
    }
  }

  /** `date.setUTCDate(date.getUTCDate() + 1)`: the day field grows by one, past the end of the month if need be. */
  function NextUtcDate(d: Date): (n: int)
    requires ValidDate(d)
    ensures n == DayNumber(d) + 1
  {
    DayNumber(d.(day := d.day + 1))
  }

  /** Comparing the texts and comparing the instants is the same check. */
  lemma RangeChecksAgree(checkIn: string, checkOut: string, parse: DateParser)
    requires Honest(parse) && IsCanonicalCalendarDate(checkIn, parse) && IsCanonicalCalendarDate(checkOut, parse)
    ensures StrLess(checkIn, checkOut) <==> parse(checkIn).value < parse(checkOut).value
  {
    var a := CanonicalParse(checkIn, parse);
    var b := CanonicalParse(checkOut, parse);
    IsoOrder(a, b);
    OrderIsDayNumber(a, b);
  }

  lemma NextNight(n: int)
    requires FIRST_DAY <= n < LAST_DAY
    ensures NextDay(DateOf(n)) == DateOf(n + 1) && ValidDate(DateOf(n + 1))
  {
    var d := DateOf(n);
    NextDayNumber(d);
    NotLast(d, n);
    ValidDayRange(NextDay(d));
  }

  /** The enumerated nights are consecutive calendar dates, each the calendar successor of the one before. */
  lemma NightsAreConsecutive(a: Date, b: Date, i: nat)
    requires ValidDate(a) && ValidDate(b) && i < DayNumber(b) - DayNumber(a)
    ensures FourDigitDay(DayNumber(a)) && FourDigitDay(DayNumber(b))
    ensures
      var nights := DayTexts(DayNumber(a), DayNumber(b));
      var date := DateOf(DayNumber(a) + i);
      var next := NextDay(date);
      && |nights| == DayNumber(b) - DayNumber(a) && nights[0] == Iso(a) && nights[i] == Iso(date)
      && ValidDate(next) && (if i + 1 < |nights| then nights[i + 1] == Iso(next) else next == b)
  {
    hide Iso, NextDay, DateOf, DayNumber, DayTexts;
    ValidDayRange(a);
    ValidDayRange(b);
    DayTextsAt(DayNumber(a), DayNumber(b), 0);
    DayTextsAt(DayNumber(a), DayNumber(b), i);
    if i + 1 < DayNumber(b) - DayNumber(a) {
      DayTextsAt(DayNumber(a), DayNumber(b), i + 1);
    }
    NextNight(DayNumber(a) + i);
  }

  // ----- stayNightKeys --------------------------------------------------------

  /** A text of the form yyyy-MM-dd, whatever its month and day. */
  predicate DateKey(d: Date) {
    0 <= d.year <= 9999 && 0 <= d.month <= 99 && 0 <= d.day <= 99
  }

  /**
   * Date.UTC, which reads the years 0 to 99 as 1900 to 1999 and counts a month or day beyond its range
   * on into the neighbouring years and months (section 21.4.3.4 of ECMA-262).
   */
  function UtcDay(d: Date): int {
    DayNumber(Date(FullYear(d.year) + (d.month - 1) / 12, (d.month - 1) % 12 + 1, d.day))
  }

  function FullYear(year: int): int {
    if 0 <= year <= 99 then 1900 + year else year
  }

  /** A text with a real month is the day it names, the years 0 to 99 read as 1900 to 1999. */
  lemma UtcDayOfMonth(d: Date)
    requires 1 <= d.month <= 12
    ensures UtcDay(d) == DayNumber(if 0 <= d.year <= 99 then d.(year := d.year + 1900) else d)
  {
    hide DayNumber;
    assert (d.month - 1) / 12 == 0 && (d.month - 1) % 12 == d.month - 1;
  }

  lemma EraDay()
    ensures DayNumber(Date(2000, 1, 1)) == 10957
  {}

  lemma DayShift(d: Date)
    requires 1 <= d.month <= 12
    ensures DayNumber(d) == DayNumber(d.(day := 1)) + d.day - 1
  {}

  /** A month past December is one of the next year; a day past the end of its month is one of the next month. */
  lemma RollsOver(year: int, month: int, day: int)
    requires 100 <= year && 1 <= month <= 12
    ensures UtcDay(Date(year, month + 12, day)) == UtcDay(Date(year + 1, month, day))
    ensures UtcDay(Date(year, month, DaysInMonth(year, month) + day)) == UtcDay(Date(year, month + 1, day))
  {
    hide DayFromYear, DaysInMonth;
    DayShift(Date(year, month, DaysInMonth(year, month) + day));
    if month == 12 {
      DayShift(Date(year + 1, 1, day));
    } else {
      DayShift(Date(year, month + 1, day));
    }
    NextDayNumber(Date(year, month, DaysInMonth(year, month)));
    DayShift(Date(year, month, DaysInMonth(year, month)));
  }

  lemma KeyDayRange(d: Date)
    requires DateKey(d)
    ensures FIRST_DAY <= UtcDay(d) < LAST_DAY + ERA
  {
    hide UtcDay, DayNumber;
    var first := FirstOfKeyMonth(d);
    FirstOfMonthRange(first);
  }

  /** The first day of the month a text falls in. */
  lemma FirstOfKeyMonth(d: Date) returns (first: Date)
    requires DateKey(d)
    ensures 99 <= first.year <= 10008 && 1 <= first.month <= 12 && first.day == 1
    ensures UtcDay(d) == DayNumber(first) + d.day - 1
  {
    var carry, month := (d.month - 1) / 12, (d.month - 1) % 12;
    assert -1 <= carry <= 8 && 0 <= month < 12;
    first := Date(FullYear(d.year) + carry, month + 1, 1);
    assert UtcDay(d) == DayNumber(first.(day := d.day));
    hide UtcDay, DayNumber;
    DayShift(first.(day := d.day));
  }

  lemma FirstOfMonthRange(first: Date)
    requires 99 <= first.year <= 10008 && 1 <= first.month <= 12 && first.day == 1
    ensures FIRST_DAY < DayNumber(first) <= LAST_DAY + ERA - 99
  {
    hide DayNumber;
    LateDay();
    FirstAndLastDay();
    var e := if first.year < 9700 then first else first.(year := first.year - 400);
    EraShift(e);
    OrderIsDayNumber(FIRST, e);
    OrderIsDayNumber(e, Date(9700, 1, 1));
  }

  lemma LateDay()
    ensures DayNumber(Date(9700, 1, 1)) == 2823325
  {}

  lemma UtcDayRange(d: Date)
    requires ValidDate(d)
    ensures FIRST_DAY <= UtcDay(d) <= LAST_DAY
  {
    hide UtcDay, DayNumber;
    UtcDayOfMonth(d);
    if 0 <= d.year <= 99 {
      var e := Date(d.year + 1900, d.month, 1);
      ValidDayRange(e);
      OrderIsDayNumber(e, Date(2000, 1, 1));
      EraDay();
      DayShift(d.(year := 1900 + d.year));
    } else {
      ValidDayRange(d);
    }
  }

  /** The texts may name days that do not exist, such as 2024-02-31. */
  method StayNightKeys(checkIn: Date, checkOut: Date) returns (nights: seq<string>)
    requires DateKey(checkIn) && DateKey(checkOut)
    ensures FIRST_DAY <= UtcDay(checkIn) && UtcDay(checkOut) < LAST_DAY + ERA
    ensures nights == DayTexts(UtcDay(checkIn), UtcDay(checkOut))
  {
    hide UtcDay, DayText;
    KeyDayRange(checkIn);
    KeyDayRange(checkOut);
    nights := [];
    var end := UtcDay(checkOut);
    var cursor := UtcDay(checkIn);
    while cursor < end
      invariant UtcDay(checkIn) <= cursor && (cursor <= end || cursor == UtcDay(checkIn))
      invariant |nights| == cursor - UtcDay(checkIn) && nights <= DayTexts(UtcDay(checkIn), end)
    {
      nights := nights + [DayText(cursor)];
      cursor := cursor + 1;
    }
  }

  /** Pricing and booking calendar list the same nights exactly for stays that start in year 100 or later. */
  lemma NightKeysAgreeExactly(a: Date, b: Date)
    requires ValidDate(a) && ValidDate(b) && Before(a, b)
    ensures FourDigitDay(UtcDay(a)) && FourDigitDay(UtcDay(b))
    ensures FourDigitDay(DayNumber(a)) && FourDigitDay(DayNumber(b))
    ensures DayTexts(UtcDay(a), UtcDay(b)) == DayTexts(DayNumber(a), DayNumber(b)) <==> a.year >= 100
  {
    hide Iso, DayNumber, UtcDay, DateOf;
    UtcDayRange(a);
    UtcDayRange(b);
    ValidDayRange(a);
    ValidDayRange(b);
    OrderIsDayNumber(a, b);
    if a.year < 100 {
      EarlyYearsMove(a);
      var keys, nights := DayTexts(UtcDay(a), UtcDay(b)), DayTexts(DayNumber(a), DayNumber(b));
      if |keys| == |nights| {
        DayTextsAt(UtcDay(a), UtcDay(b), 0);
        DayTextsAt(DayNumber(a), DayNumber(b), 0);
        IsoOrder(DateOf(UtcDay(a)), DateOf(DayNumber(a)));
      }
    } else {
      LateYearsStay(a);
      LateYearsStay(b);
    }
  }

  lemma LateYearsStay(a: Date)
    requires ValidDate(a) && a.year >= 100
    ensures UtcDay(a) == DayNumber(a)
  {
    hide UtcDay, DayNumber;
    UtcDayOfMonth(a);
  }

  lemma EarlyYearsMove(a: Date)
    requires ValidDate(a) && a.year < 100
    ensures UtcDay(a) != DayNumber(a)
  {
    UtcDayOfMonth(a);
    hide UtcDay;
    var first := Date(1900, 1, 1);
    OrderIsDayNumber(a, first);
    OrderIsDayNumber(first, Date(a.year + 1900, a.month, 1));
  }

  lemma NewYearTexts()
    ensures Iso(Date(0, 1, 1)) == "0000-01-01" && Iso(Date(1900, 1, 1)) == "1900-01-01"
  {
    ZeroYear();
    Year1900();
    assert Digits(0, 1) == "0" && Digits(1, 2) == "01";
    hide Digits;
  }

  lemma ZeroYear()
    ensures Digits(0, 4) == "0000"
  {
    assert Digits(0, 1) == "0";
    assert Digits(0, 2) == "00";
    assert Digits(0, 3) == "000";
  }

  lemma Year1900()
    ensures Digits(1900, 4) == "1900"
  {
    assert Digits(1, 1) == "1";
    assert Digits(19, 2) == "19";
    assert Digits(190, 3) == "190";
  }

  lemma NewYearDays()
    ensures DayNumber(Date(0, 1, 2)) == DayNumber(Date(0, 1, 1)) + 1
    ensures UtcDay(Date(0, 1, 1)) == DayNumber(Date(1900, 1, 1))
    ensures UtcDay(Date(0, 1, 2)) == DayNumber(Date(1900, 1, 1)) + 1
  {
    hide UtcDay, DayNumber;
    UtcDayOfMonth(Date(0, 1, 1));
    UtcDayOfMonth(Date(0, 1, 2));
    DayShift(Date(0, 1, 2));
    DayShift(Date(1900, 1, 2));
  }

  /** A failing stay: its one night, the first day of year 0, is priced as a night of 1900. */
  lemma EarlyStayDiffers()
    ensures
      var a, b := Date(0, 1, 1), Date(0, 1, 2);
      && ValidDate(a) && ValidDate(b) && Before(a, b)
      && FourDigitDay(UtcDay(a)) && FourDigitDay(UtcDay(b)) && FourDigitDay(DayNumber(a)) && FourDigitDay(DayNumber(b))
      && DayTexts(DayNumber(a), DayNumber(b)) == ["0000-01-01"]
      && DayTexts(UtcDay(a), UtcDay(b)) == ["1900-01-01"]
  {
    hide Iso, DayNumber, UtcDay, DateOf;
    var a, b, moved := Date(0, 1, 1), Date(0, 1, 2), Date(1900, 1, 1);
    ValidDayRange(a);
    ValidDayRange(b);
    ValidDayRange(moved);
    UtcDayRange(b);
    NewYearDays();
    NewYearTexts();
    DayTextsAt(DayNumber(a), DayNumber(b), 0);
    DayTextsAt(UtcDay(a), UtcDay(b), 0);
  }
}
