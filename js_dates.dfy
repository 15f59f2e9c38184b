/** Date values as the dashboard builds them with `new Date(y, mo, d, h, mi, s)`
    and reads them back with `getTime()`. A date is kept as the components it was
    constructed from; its time value is the one ECMA-262 assigns to them
    (MakeDay, MakeTime and MakeDate of section 21.4.1), with local time taken to
    be UTC. Those formulas are linear in the month overflow and in the
    day/hour/minute/second components, so an out-of-range component moves the
    time value exactly as `new Date` normalises it. */
module JsDates {

  /** The arguments of `new Date(year, monthIndex, day, hours, minutes, seconds)`. */
  datatype DateTime = DateTime(year: int, month: int, day: int, hour: int, minute: int, second: int)

  const MsPerSecond: int := 1000
  const MsPerMinute: int := 60000
  const MsPerHour: int := 3600000
  const MsPerDay: int := 86400000

  /** The day number of 1 January of `y` (section 21.4.1.3). Dafny's `/` with a
      positive divisor is the floor division the standard uses. */
  function DayFromYear(y: int): int
  {
    365 * (y - 1970) + (y - 1969) / 4 - (y - 1901) / 100 + (y - 1601) / 400
  }

  predicate InLeapYear(y: int)
  {
    y % 4 == 0 && (y % 100 != 0 || y % 400 == 0)
  }

  /** The number of days in the months of `y` before month `m` (0-based). */
  function DaysBeforeMonth(m: int, leap: bool): int
    requires 0 <= m < 12
  {
    var table := [0, 31, 59, 90, 120, 151, 181, 212, 243, 273, 304, 334];
    table[m] + (if leap && m >= 2 then 1 else 0)
  }

  /** MakeDay (section 21.4.1.28): the day number of `date` in month `month` of `year`;
      months beyond 0-11 carry into the year. */
  function MakeDay(year: int, month: int, date: int): int
  {
    var ym := year + month / 12;
    var mn := month % 12;
    DayFromYear(ym) + DaysBeforeMonth(mn, InLeapYear(ym)) + date - 1
  }

  /** MakeTime (section 21.4.1.27), with no milliseconds. */
  function MakeTime(hour: int, minute: int, second: int): (t: int)
    ensures 0 <= hour < 24 && 0 <= minute < 60 && 0 <= second < 60 ==> 0 <= t < MsPerDay
  {
    hour * MsPerHour + minute * MsPerMinute + second * MsPerSecond
  }

  /** `new Date(y, mo, d, h, mi, s).getTime()`: a year 0-99 means 1900-1999
      (section 21.4.2.1, step 5.j). */
  function TimeValue(t: DateTime): int
  {
    var y := if 0 <= t.year <= 99 then 1900 + t.year else t.year;
    MakeDay(y, t.month, t.day) * MsPerDay + MakeTime(t.hour, t.minute, t.second)
  }

  /** The day number a time value falls on. */
  function DayOf(tv: int): int
  {
    tv / MsPerDay
  }

  /** `new Date(d.getFullYear(), d.getMonth(), d.getDate()).getTime()`: midnight
      of the day a time value falls on. */
  function StartOfDay(tv: int): (r: int)
    ensures r <= tv < r + MsPerDay
  {
    DayOf(tv) * MsPerDay
  }

  /** A date whose components are already in range, as the getters of a `Date` report them. */
  predicate IsCalendarDate(t: DateTime)
  {
    0 <= t.month < 12 && 1 <= t.day <= 31 && 0 <= t.hour < 24 && 0 <= t.minute < 60 && 0 <= t.second < 60
  }

  /** A calendar date's midnight is the start of its day and its time is within that day. */
  lemma {:induction false} CalendarDateDay(t: DateTime)
    requires IsCalendarDate(t) && !(0 <= t.year <= 99)
    ensures DayOf(TimeValue(t)) == MakeDay(t.year, t.month, t.day)
    ensures StartOfDay(TimeValue(t)) == MakeDay(t.year, t.month, t.day) * MsPerDay
  {
    var tod := MakeTime(t.hour, t.minute, t.second);
    assert 0 <= tod < MsPerDay;
    var d := MakeDay(t.year, t.month, t.day);
    assert TimeValue(t) == d * MsPerDay + tod;
    assert (d * MsPerDay + tod) / MsPerDay == d;
  }
}
