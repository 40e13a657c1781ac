/**
 * Abstract calendar dates and instants. A date input ("YYYY-MM-DD") is a
 * (year, month, day) triple with month 1..12; time zones are not modelled.
 */
module Calendar {

  datatype Date = Date(year: int, month: int, day: int)

  /** A date a date picker can produce. */
  predicate ValidDate(d: Date) {
    1 <= d.month <= 12 && 1 <= d.day <= 31
  }

  /** Months since year 0: the year*12 + month arithmetic, ignoring the day. */
  function MonthIndex(d: Date): int {
    d.year * 12 + (d.month - 1)
  }

  /** `a < b` on calendar dates (month first, then day of month). */
  predicate Before(a: Date, b: Date) {
    MonthIndex(a) < MonthIndex(b) || (MonthIndex(a) == MonthIndex(b) && a.day < b.day)
  }

  /** `setMonth(getMonth() + n)`, keeping the day of month. */
  function AddMonths(d: Date, n: int): (r: Date)
    ensures 1 <= r.month <= 12 && r.day == d.day
    ensures MonthIndex(r) == MonthIndex(d) + n
  {
    var m := MonthIndex(d) + n;
    Date(m / 12, m % 12 + 1, d.day)
  }

  /** Days since 1970-01-01 (proleptic Gregorian calendar). */
  function DayNumber(d: Date): int {
    var y := if d.month <= 2 then d.year - 1 else d.year;
    var era := y / 400;
    var yoe := y - era * 400;
    var mp := (d.month + 9) % 12;
    var doy := (153 * mp + 2) / 5 + d.day - 1;
    var doe := yoe * 365 + yoe / 4 - yoe / 100 + doy;
    era * 146097 + doe - 719468
  }

  /** A point in time: a calendar date and the milliseconds since its midnight. */
  datatype Instant = Instant(date: Date, millis: int)

  /** `a < b` on instants. */
  predicate InstantBefore(a: Instant, b: Instant) {
    Before(a.date, b.date) || (a.date == b.date && a.millis < b.millis)
  }
}
