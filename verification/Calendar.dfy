/** The proleptic Gregorian calendar of section 21.4.1 of ECMA-262, and its yyyy-MM-dd texts. */
module Calendar {
  datatype Date = Date(year: int, month: int, day: int)

  predicate Divides(k: int, y: int)
    requires k > 0
  {
    y % k == 0
  }

  predicate Leap(y: int) {
    Divides(4, y) && (!Divides(100, y) || Divides(400, y))
  }

  function DaysInMonth(y: int, m: int): int
    requires 1 <= m <= 12
  {
    if m == 2 then (if Leap(y) then 29 else 28)
    else if m in {4, 6, 9, 11} then 30
    else 31
  }

  /** A date of the calendar whose year has four digits. */
  predicate ValidDate(d: Date) {
    0 <= d.year <= 9999 && 1 <= d.month <= 12 && 1 <= d.day <= DaysInMonth(d.year, d.month)
  }

  /** Number of the first day of a year, counted from 1970-01-01 (section 21.4.1.6 of ECMA-262). */
  function DayFromYear(y: int): int {
    365 * (y - 1970) + Quotient(y - 1969, 4) - Quotient(y - 1901, 100) + Quotient(y - 1601, 400)
  }

  function Quotient(a: int, k: int): int
    requires k > 0
  {
    a / k
  }

  function DaysBeforeMonth(y: int, m: int): int
    requires 1 <= m <= 13
    decreases m
  {
    if m == 1 then 0 else DaysBeforeMonth(y, m - 1) + DaysInMonth(y, m - 1)
  }

  /** Day number of a date; a day past the end of its month counts on into the next one. */
  function DayNumber(d: Date): int
    requires 1 <= d.month <= 12
  {
    DayFromYear(d.year) + DaysBeforeMonth(d.year, d.month) + d.day - 1
  }

  function NextDay(d: Date): Date
    requires 1 <= d.month <= 12
  {
    if d.day < DaysInMonth(d.year, d.month) then d.(day := d.day + 1)
    else if d.month < 12 then Date(d.year, d.month + 1, 1)
    else Date(d.year + 1, 1, 1)
  }

  lemma YearLength(y: int)
    ensures DayFromYear(y + 1) == DayFromYear(y) + if Leap(y) then 366 else 365
  {
    hide Quotient, Divides;
    YearQuotient(y, 4, 492);
    YearQuotient(y, 100, 19);
    YearQuotient(y, 400, 4);
    CenturyFacts(y);
    assert y + 1 - 1969 == y - 4 * 492 && y - 1969 == y - 1 - 4 * 492;
    assert y + 1 - 1901 == y - 100 * 19 && y - 1901 == y - 1 - 100 * 19;
    assert y + 1 - 1601 == y - 400 * 4 && y - 1601 == y - 1 - 400 * 4;
  }

  /** Passing from y - 1 to y passes one more multiple of k exactly when k divides y. */
  lemma YearQuotient(y: int, k: int, j: int)
    requires k > 1
    ensures Quotient(y - k * j, k) - Quotient(y - 1 - k * j, k) == if Divides(k, y) then 1 else 0
  {
    hide Quotient;
    var q, r := y / k, y % k;
    assert k * (q - j) == k * q - k * j;
    QuotientStep(y - k * j, k, q - j, r);
  }

  lemma QuotientStep(a: int, k: int, q: int, r: int)
    requires k > 1 && 0 <= r < k && a == k * q + r
    ensures Quotient(a, k) == q && Quotient(a - 1, k) == if r == 0 then q - 1 else q
  {
    DivisionIs(a, k, q, r);
    if r == 0 {
      assert k * (q - 1) == k * q - k;
      DivisionIs(a - 1, k, q - 1, k - 1);
    } else {
      DivisionIs(a - 1, k, q, r - 1);
    }
  }

  /** Quotient and remainder are unique. */
  lemma DivisionIs(a: int, k: int, q: int, r: int)
    requires 0 <= r < k && a == k * q + r
    ensures a / k == q && a % k == r
  {
    var n := a / k - q;
    assert k * n == k * (a / k) - k * q;
    MultipleIsFar(k, n);
  }

  lemma MultipleIsFar(k: int, n: int)
    requires k > 0
    ensures (n >= 1 ==> k * n >= k) && (n <= -1 ==> k * n <= -k) && (n == 0 ==> k * n == 0)
  {
    if n >= 1 { assert k * (n - 1) >= 0; }
    if n <= -1 { assert k * (-n - 1) >= 0; }
  }

  lemma CenturyFacts(y: int)
    ensures Divides(400, y) ==> Divides(100, y)
    ensures Divides(100, y) ==> Divides(4, y)
  {
    if Divides(400, y) {
      DivisionIs(y, 100, 4 * (y / 400), 0);
    }
    if Divides(100, y) {
      DivisionIs(y, 4, 25 * (y / 100), 0);
    }
  }

  lemma DaysInYear(y: int)
    ensures DaysBeforeMonth(y, 13) == if Leap(y) then 366 else 365
  {
    assert DaysBeforeMonth(y, 2) == 31;
    assert DaysBeforeMonth(y, 4) == DaysBeforeMonth(y, 3) + 31;
    assert DaysBeforeMonth(y, 6) == DaysBeforeMonth(y, 4) + 61;
    assert DaysBeforeMonth(y, 8) == DaysBeforeMonth(y, 6) + 61;
    assert DaysBeforeMonth(y, 10) == DaysBeforeMonth(y, 8) + 61;
    assert DaysBeforeMonth(y, 12) == DaysBeforeMonth(y, 10) + 61;
  }

  /** The calendar successor has the next day number. */
  lemma NextDayNumber(d: Date)
    requires 1 <= d.month <= 12 && d.day <= DaysInMonth(d.year, d.month)
    ensures DayNumber(NextDay(d)) == DayNumber(d) + 1
  {
    if d.day == DaysInMonth(d.year, d.month) && d.month == 12 {
      YearLength(d.year);
      DaysInYear(d.year);
    }
  }

  /** Earlier in the calendar: year first, then month, then day. */
  predicate Before(a: Date, b: Date) {
    a.year < b.year || (a.year == b.year && (a.month < b.month || (a.month == b.month && a.day < b.day)))
  }

  lemma {:induction false} MonthsAddUp(y: int, m: int, n: int)
    requires 1 <= m < n <= 13
    ensures DaysBeforeMonth(y, m) + DaysInMonth(y, m) <= DaysBeforeMonth(y, n)
    decreases n
  {
    if m + 1 < n {
      MonthsAddUp(y, m, n - 1);
    }
  }

  lemma {:induction false} YearsAddUp(y: int, z: int)
    requires y < z
    ensures DayFromYear(y) + DaysBeforeMonth(y, 13) <= DayFromYear(z)
    decreases z - y
  {
    YearLength(z - 1);
    if y + 1 < z {
      YearsAddUp(y, z - 1);
    } else {
      DaysInYear(y);
    }
  }

  /** Calendar order is day-number order. */
  lemma OrderIsDayNumber(a: Date, b: Date)
    requires ValidDate(a) && ValidDate(b)
    ensures Before(a, b) <==> DayNumber(a) < DayNumber(b)
    ensures a == b <==> DayNumber(a) == DayNumber(b)
  {
    if Before(a, b) {
      BeforeHasSmallerNumber(a, b);
    } else if Before(b, a) {
      BeforeHasSmallerNumber(b, a);
    }
  }

  lemma BeforeHasSmallerNumber(a: Date, b: Date)
    requires ValidDate(a) && ValidDate(b) && Before(a, b)
    ensures DayNumber(a) < DayNumber(b)
  {
    if a.year < b.year {
      YearsAddUp(a.year, b.year);
      MonthsAddUp(a.year, a.month, 13);
      if b.month > 1 { MonthsAddUp(b.year, 1, b.month); }
    } else if a.month < b.month {
      MonthsAddUp(a.year, a.month, b.month);
    }
  }

  // ----- From day numbers back to dates ---------------------------------------

  const FIRST := Date(0, 1, 1)
  const LAST := Date(9999, 12, 31)

  const FIRST_DAY := -719528
  const LAST_DAY := 2932896

  lemma FirstAndLastDay()
    ensures DayNumber(FIRST) == FIRST_DAY && DayNumber(LAST) == LAST_DAY
  {
    DaysInYear(9999);
  }

  predicate FourDigitDay(n: int) {
    FIRST_DAY <= n <= LAST_DAY
  }

  /** The date shown for a day number (the date part of toISOString). */
  function DateOf(n: int): (d: Date)
    requires FourDigitDay(n)
    ensures ValidDate(d) && DayNumber(d) == n
    decreases n - FIRST_DAY
  {
    FirstAndLastDay();
    if n == FIRST_DAY then FIRST
    else
      var p := DateOf(n - 1);
      NextDayNumber(p);
      NotLast(p, n - 1);
      NextDay(p)
  }

  lemma NotLast(p: Date, n: int)
    requires ValidDate(p) && DayNumber(p) == n < LAST_DAY
    ensures ValidDate(NextDay(p))
  {
    FirstAndLastDay();
  }

  lemma ValidDayRange(d: Date)
    requires ValidDate(d)
    ensures FourDigitDay(DayNumber(d)) && DateOf(DayNumber(d)) == d
  {
    FirstAndLastDay();
    OrderIsDayNumber(d, LAST);
    OrderIsDayNumber(FIRST, d);
    OrderIsDayNumber(d, DateOf(DayNumber(d)));
  }

  // ----- Texts ----------------------------------------------------------------

  /** JavaScript's `<` on strings: the first differing code unit decides. */
  predicate StrLess(a: string, b: string) {
    if b == "" then false
    else if a == "" then true
    else if a[0] != b[0] then a[0] < b[0]
    else StrLess(a[1..], b[1..])
  }

  lemma {:induction false} StrLessConcat(p: string, q: string, s: string, t: string)
    requires |p| == |q|
    ensures StrLess(p + s, q + t) <==> StrLess(p, q) || (p == q && StrLess(s, t))
    ensures p + s == q + t <==> p == q && s == t
  {
    if p == "" {
      assert p + s == s && q + t == t;
    } else {
      assert (p + s)[1..] == p[1..] + s && (q + t)[1..] == q[1..] + t;
      StrLessConcat(p[1..], q[1..], s, t);
      assert p == [p[0]] + p[1..] && q == [q[0]] + q[1..];
      assert p + s == [p[0]] + (p[1..] + s) && q + t == [q[0]] + (q[1..] + t);
    }
  }

  function Pow10(k: nat): nat {
    if k == 0 then 1 else 10 * Pow10(k - 1)
  }

  function Digit(n: int): char
    requires 0 <= n < 10
  {
    '0' + n as char
  }

  predicate IsDigit(c: char) {
    '0' <= c <= '9'
  }

  /** The decimal text of n, zero-padded to k digits. */
  function Digits(n: int, k: nat): (s: string)
    requires 0 <= n
    ensures |s| == k && forall i :: 0 <= i < k ==> IsDigit(s[i])
  {
    if k == 0 then "" else Digits(n / 10, k - 1) + [Digit(n % 10)]
  }

  lemma {:induction false} DigitsOrder(a: int, b: int, k: nat)
    requires 0 <= a < Pow10(k) && 0 <= b < Pow10(k)
    ensures StrLess(Digits(a, k), Digits(b, k)) <==> a < b
    ensures Digits(a, k) == Digits(b, k) <==> a == b
  {
    if k > 0 {
      DigitsOrder(a / 10, b / 10, k - 1);
      var x, y := [Digit(a % 10)], [Digit(b % 10)];
      StrLessConcat(Digits(a / 10, k - 1), Digits(b / 10, k - 1), x, y);
      assert x[1..] == "" && y[1..] == "";
    }
  }

  function Iso(d: Date): string
    requires ValidDate(d)
  {
    Digits(d.year, 4) + ("-" + (Digits(d.month, 2) + ("-" + Digits(d.day, 2))))
  }

  /** String order on yyyy-MM-dd texts is calendar order, and different dates have different texts. */
  lemma IsoOrder(a: Date, b: Date)
    requires ValidDate(a) && ValidDate(b)
    ensures StrLess(Iso(a), Iso(b)) <==> Before(a, b)
    ensures Iso(a) == Iso(b) <==> a == b
  {
    assert Pow10(2) == 100 && Pow10(4) == 10000;
    DigitsOrder(a.year, b.year, 4);
    DigitsOrder(a.month, b.month, 2);
    DigitsOrder(a.day, b.day, 2);
    var dayA, dayB := "-" + Digits(a.day, 2), "-" + Digits(b.day, 2);
    var monthA, monthB := "-" + (Digits(a.month, 2) + dayA), "-" + (Digits(b.month, 2) + dayB);
    StrLessConcat("-", "-", Digits(a.day, 2), Digits(b.day, 2));
    StrLessConcat(Digits(a.month, 2), Digits(b.month, 2), dayA, dayB);
    StrLessConcat("-", "-", Digits(a.month, 2) + dayA, Digits(b.month, 2) + dayB);
    StrLessConcat(Digits(a.year, 4), Digits(b.year, 4), monthA, monthB);
    assert !StrLess("-", "-");
  }

  /** /^\d{4}-\d{2}-\d{2}$/ */
  predicate IsoShaped(s: string) {
    |s| == 10 && forall i :: 0 <= i < 10 ==> if i == 4 || i == 7 then s[i] == '-' else IsDigit(s[i])
  }

  lemma IsoIsShaped(d: Date)
    requires ValidDate(d)
    ensures IsoShaped(Iso(d))
  {}
}
