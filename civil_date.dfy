/**
 * Calendar arithmetic the application gets from JavaScript's `Date`: month lengths,
 * `new Date(y, m, d)` with month/day overflow, `getDay()`, and the `"YYYY-MM-DD"`
 * keys it reads and writes. A date at local midnight is represented by an integer
 * day number (day 0 is 0001-01-01 of the proleptic Gregorian calendar, a Monday).
 * Months are numbered 0..11, as `getMonth()` numbers them.
 */
module CivilDate {
  import opened Wrappers
  import opened Text

  predicate IsLeapYear(y: int)
  {
    y % 4 == 0 && (y % 100 != 0 || y % 400 == 0)
  }

  /** Gregorian length of month `m` (0 = January) of year `y`. */
  function DaysInMonth(y: int, m: int): (n: int)
    requires 0 <= m < 12
    ensures 28 <= n <= 31
    ensures n == 29 <==> m == 1 && IsLeapYear(y)
    ensures n == 30 <==> m in {3, 5, 8, 10}
  {
    if m == 1 then (if IsLeapYear(y) then 29 else 28)
    else if m == 3 || m == 5 || m == 8 || m == 10 then 30
    else 31
  }

  /** Days from 0001-01-01 to January 1st of year `y`. */
  function DaysBeforeYear(y: int): int
  {
    365 * (y - 1) + (y - 1) / 4 - (y - 1) / 100 + (y - 1) / 400
  }

  /** Days from January 1st of year `y` to the first of month `m` (`m == 12` is the next January). */
  function DaysBeforeMonth(y: int, m: int): (n: int)
    requires 0 <= m <= 12
    ensures 0 <= n <= 366
  {
    [0, 31, 59, 90, 120, 151, 181, 212, 243, 273, 304, 334, 365][m]
      + (if IsLeapYear(y) && m >= 2 then 1 else 0)
  }

  /** The months before `m + 1` are those before `m` and `m` itself. */
  lemma DaysBeforeNextMonth(y: int, m: int)
    requires 0 <= m < 12
    ensures DaysBeforeMonth(y, m + 1) == DaysBeforeMonth(y, m) + DaysInMonth(y, m)
  {
  }

  /** A year has 366 days if it is a leap year and 365 otherwise. */
  lemma YearLength(y: int)
    ensures DaysBeforeYear(y + 1) - DaysBeforeYear(y) == if IsLeapYear(y) then 366 else 365
  {
    MultiplesStep4(y);
    MultiplesStep100(y);
    MultiplesStep400(y);
  }

  // Going from `y - 1` to `y`, the count of multiples of 4 (100, 400) grows by one exactly
  // when `y` is such a multiple.

  lemma MultiplesStep4(y: int)
    ensures y / 4 - (y - 1) / 4 == if y % 4 == 0 then 1 else 0
  {
  }

  lemma MultiplesStep100(y: int)
    ensures y / 100 - (y - 1) / 100 == if y % 100 == 0 then 1 else 0
  {
  }

  lemma MultiplesStep400(y: int)
    ensures y / 400 - (y - 1) / 400 == if y % 400 == 0 then 1 else 0
  {
  }

  /**
   * `new Date(y, m, d)` at local midnight, as a day number: a month outside 0..11 moves
   * into a neighbouring year and a day outside the month moves into a neighbouring month.
   */
  function MakeDay(y: int, m: int, d: int): int
  {
    var yy := y + m / 12;
    var mm := m % 12;
    DaysBeforeYear(yy) + DaysBeforeMonth(yy, mm) + d - 1
  }

  /** `getDay()` of a day number: 0 is Sunday, 6 is Saturday. */
  function Weekday(n: int): (w: int)
    ensures 0 <= w <= 6
  {
    (n + 1) % 7
  }

  /**
   * "Day 0 of the next month" is the last day of this month, so reading its day of month
   * gives the length of the month.
   */
  lemma DayZeroOfNextMonth(y: int, m: int)
    requires 0 <= m < 12
    ensures MakeDay(y, m + 1, 0) == MakeDay(y, m, DaysInMonth(y, m))
  {
    assert m / 12 == 0 && m % 12 == m;
    if m == 11 {
      assert (m + 1) / 12 == 1 && (m + 1) % 12 == 0;
      YearLength(y);
    } else {
      assert (m + 1) / 12 == 0 && (m + 1) % 12 == m + 1;
      DaysBeforeNextMonth(y, m);
    }
  }

  /** Consecutive days of one month have consecutive day numbers. */
  lemma MakeDayNext(y: int, m: int, d: int)
    ensures MakeDay(y, m, d + 1) == MakeDay(y, m, d) + 1
  {
  }

  // ---------------------------------------------------------------- "YYYY-MM-DD" keys

  /** The key the calendar builds for a day: `${year}-${pad2(month + 1)}-${pad2(day)}`. */
  function FormatDateKey(y: int, m: int, d: nat): (k: string)
    requires 0 <= m < 12
  {
    IntToString(y) + "-" + PadTwo(m + 1) + "-" + PadTwo(d)
  }

  /**
   * `new Date("YYYY-MM-DD")` at midnight, as a day number; absent (an Invalid Date, which
   * compares false with everything) when the string is not of that form.
   */
  function ParseDateKey(s: string): (r: Option<int>)
    ensures r.Some? ==> |s| == 10 && 'T' !in s
  {
    if |s| == 10 && s[4] == '-' && s[7] == '-'
      && AllDigits(s[..4]) && AllDigits(s[5..7]) && AllDigits(s[8..])
    then
      var y, mo, d := DigitsValue(s[..4]), DigitsValue(s[5..7]), DigitsValue(s[8..]);
      if 1 <= mo <= 12 && 1 <= d <= 31 then Some(MakeDay(y, mo - 1, d)) else None
    else None
  }

  /** A key the calendar writes for a four-digit year reads back as the same day. */
  lemma DateKeyRoundTrip(y: int, m: int, d: nat)
    requires 1000 <= y <= 9999 && 0 <= m < 12 && 1 <= d <= 31
    ensures ParseDateKey(FormatDateKey(y, m, d)) == Some(MakeDay(y, m, d))
  {
    var k := FormatDateKey(y, m, d);
    NatToStringFourDigits(y);
    NatToStringRoundTrip(y);
    assert k[..4] == NatToString(y);
    assert k[5..7] == PadTwo(m + 1);
    assert k[8..] == PadTwo(d);
  }

  /**
   * `new Date(s)` for the strings the ticket form stores: a bare date, or a date and a
   * local time `THH:MM` or `THH:MM:SS`; seconds since day 0, absent when unreadable.
   */
  function ParseInstant(s: string): (r: Option<int>)
    ensures r.Some? ==> |s| >= 10 && ParseDateKey(s[..10]).Some?
    ensures r.Some? ==> var day := ParseDateKey(s[..10]).value;
                        day * 86400 <= r.value < (day + 1) * 86400
  {
    if |s| < 10 then None
    else
      var day := ParseDateKey(s[..10]);
      if day.None? then None
      else if |s| == 10 then Some(day.value * 86400)
      else if (|s| == 16 || (|s| == 19 && s[16] == ':' && AllDigits(s[17..19])))
        && s[10] == 'T' && s[13] == ':' && AllDigits(s[11..13]) && AllDigits(s[14..16])
      then
        var hh, mm := DigitsValue(s[11..13]), DigitsValue(s[14..16]);
        var ss := if |s| == 19 then DigitsValue(s[17..19]) else 0;
        if hh <= 23 && mm <= 59 && ss <= 59 then Some(day.value * 86400 + hh * 3600 + mm * 60 + ss)
        else None
      else None
  }
}
