/**
 The calendar rules themselves, independent of any formula: month lengths, leap
 years, and the day that follows a day. sgp_time.c is proved against them.
 */
module Gregorian {
  datatype Date = Date(year: int, month: int, day: int)

  predicate Leap(year: int) {
    year % 4 == 0 && (year % 100 != 0 || year % 400 == 0)
  }

  function MonthLength(year: int, month: int): (n: int)
    ensures 28 <= n <= 31
  {
    if month == 2 then (if Leap(year) then 29 else 28)
    else if month == 4 || month == 6 || month == 9 || month == 11 then 30
    else 31
  }

  predicate Valid(d: Date) {
    1 <= d.month <= 12 && 1 <= d.day <= MonthLength(d.year, d.month)
  }

  function Next(d: Date): Date {
    if d.day < MonthLength(d.year, d.month) then d.(day := d.day + 1)
    else if d.month < 12 then Date(d.year, d.month + 1, 1)
    else Date(d.year + 1, 1, 1)
  }

  /** Dates in calendar order. */
  predicate Before(a: Date, b: Date) {
    a.year < b.year || (a.year == b.year && (a.month < b.month || (a.month == b.month && a.day < b.day)))
  }

  /** The inception of the Gregorian calendar. */
  const INCEPTION := Date(1582, 10, 15)

  /** The date n days after the inception. */
  function DateAfter(n: nat): (d: Date)
    ensures Valid(d)
  {
    if n == 0 then INCEPTION else Next(DateAfter(n - 1))
  }
}
