/** Calendar dates as the `DATEONLY` columns hold them, and the calendar-month interval that
  * `new Date(year, month - 1, 1)` and `new Date(year, month, 0)` describe. */
module Calendar {

  /** A calendar day, `YYYY-MM-DD`. */
  datatype Date = Date(year: int, month: int, day: int)

  /** The Gregorian leap-year rule (Dafny's `%` is never negative, as the proleptic rule needs). */
  predicate IsLeapYear(y: int) {
    y % 4 == 0 && (y % 100 != 0 || y % 400 == 0)
  }

  /** The number of days of month `m` (1..12) of year `y`. */
  function DaysInMonth(y: int, m: int): (n: int)
    requires 1 <= m <= 12
    ensures 28 <= n <= 31
  {
    if m == 2 then (if IsLeapYear(y) then 29 else 28)
    else if m == 4 || m == 6 || m == 9 || m == 11 then 30
    else 31
  }

  /** February has 29 days exactly in leap years. */
  lemma FebruaryLength(y: int)
    ensures DaysInMonth(y, 2) == 29 <==> IsLeapYear(y)
    ensures DaysInMonth(y, 2) == 28 <==> !IsLeapYear(y)
  {
  }

  /** A day that exists in the Gregorian calendar. */
  predicate ValidDate(d: Date) {
    1 <= d.month <= 12 && 1 <= d.day <= DaysInMonth(d.year, d.month)
  }

  /** Chronological order on days: year, then month, then day. */
  predicate DateLe(a: Date, b: Date) {
    a.year < b.year
    || (a.year == b.year && (a.month < b.month || (a.month == b.month && a.day <= b.day)))
  }

  /** `DateLe` is a total order: reflexive, antisymmetric, transitive and total. */
  lemma DateLeTotalOrder(a: Date, b: Date, c: Date)
    ensures DateLe(a, a)
    ensures DateLe(a, b) && DateLe(b, a) ==> a == b
    ensures DateLe(a, b) && DateLe(b, c) ==> DateLe(a, c)
    ensures DateLe(a, b) || DateLe(b, a)
  {
  }

  /** An interval of days, both ends included (SQL `BETWEEN first AND last`). */
  datatype Interval = Interval(first: Date, last: Date)

  predicate InInterval(d: Date, iv: Interval) {
    DateLe(iv.first, d) && DateLe(d, iv.last)
  }

  /** The `Date` constructor reads a year argument of 0..99 as 1900..1999. */
  function JsYear(y: int): int {
    if 0 <= y <= 99 then 1900 + y else y
  }

  /** `new Date(y, mi, 1)`: month index `mi` counts from 0 and overflows into the year
    * (floor division, which Dafny's `/` is for a positive divisor). */
  function FirstOfMonthIndex(y: int, mi: int): Date {
    Date(JsYear(y) + mi / 12, mi % 12 + 1, 1)
  }

  /** `new Date(y, mi, 0)`: day 0 of month index `mi`, the last day of month index `mi - 1`. */
  function DayZeroOfMonthIndex(y: int, mi: int): Date {
    var year := JsYear(y) + (mi - 1) / 12;
    var month := (mi - 1) % 12 + 1;
    Date(year, month, DaysInMonth(year, month))
  }

  /** The period of a budget for `(month, year)`, or the current month on the dashboard: from
    * `new Date(year, month - 1, 1)` to `new Date(year, month, 0)`. For a month in 1..12 it runs
    * from the first to the last calendar day of that month. */
  function MonthInterval(year: int, month: int): (iv: Interval)
    ensures ValidDate(iv.first) && ValidDate(iv.last)
    ensures iv.first.day == 1 && iv.last.day == DaysInMonth(iv.last.year, iv.last.month)
    ensures iv.first.year == iv.last.year && iv.first.month == iv.last.month
    ensures 1 <= month <= 12 ==> iv.first.year == JsYear(year) && iv.first.month == month
  {
    Interval(FirstOfMonthIndex(year, month - 1), DayZeroOfMonthIndex(year, month))
  }

  /** A real day lies in the interval of `(month, year)` exactly when it falls in that month
    * of that (JavaScript-adjusted) year. */
  lemma InMonthIntervalIff(d: Date, year: int, month: int)
    requires ValidDate(d) && 1 <= month <= 12
    ensures InInterval(d, MonthInterval(year, month)) <==> (d.year == JsYear(year) && d.month == month)
  {
    var iv := MonthInterval(year, month);
    assert iv.last == Date(JsYear(year), month, DaysInMonth(JsYear(year), month));
  }

  /** The interval of February in a leap year ends on the 29th, otherwise on the 28th. */
  lemma FebruaryInterval(year: int)
    requires !(0 <= year <= 99)
    ensures MonthInterval(year, 2).last == Date(year, 2, if IsLeapYear(year) then 29 else 28)
  {
  }
}
