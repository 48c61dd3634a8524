/** Local time as the site sees it: a timestamp is a number of milliseconds
    of local time, a day is a whole number of days since 1970-01-01 (a
    Thursday), and the weekday numbering is JavaScript's `getDay()` (0 is
    Sunday, 6 is Saturday). Daylight-saving shifts are not modelled. */
module Time {

  const MsPerHour: int := 3_600_000
  const MsPerDay: int := 86_400_000

  /** The day a timestamp falls on (floor division, also before 1970). */
  function DayOf(t: int): int {
    t / 86_400_000
  }

  /** Local midnight of day `d`, `new Date(y, m, d)`. */
  function DayStart(d: int): int {
    d * 86_400_000
  }

  /** `new Date(y, m, d, h, 0, 0, 0)`: hour `h` of day `d`. */
  function HourStart(d: int, h: int): int {
    d * 86_400_000 + h * 3_600_000
  }

  /** date-fns `addDays`: the same local time `n` days later. */
  function AddDays(t: int, n: int): int {
    t + n * 86_400_000
  }

  /** `getDay()` of day `d`: 0 = Sunday ... 6 = Saturday. */
  function Weekday(d: int): (w: int)
    ensures 0 <= w < 7
  {
    (d + 4) % 7
  }

  predicate IsWeekendDay(d: int) {
    Weekday(d) == 0 || Weekday(d) == 6
  }

  /** date-fns `isWeekend`: the timestamp falls on a Saturday or a Sunday. */
  predicate IsWeekend(t: int) {
    IsWeekendDay(DayOf(t))
  }

  /** date-fns `isSameDay`. */
  predicate IsSameDay(t: int, u: int) {
    DayOf(t) == DayOf(u)
  }

  lemma DayOfWithin(d: int, offset: int)
    requires 0 <= offset < 86_400_000
    ensures DayOf(DayStart(d) + offset) == d
  {
  }

  lemma DayOfAddDays(t: int, n: int)
    ensures DayOf(AddDays(t, n)) == DayOf(t) + n
  {
  }

  lemma WeekdayNext(d: int)
    ensures Weekday(d + 1) == (Weekday(d) + 1) % 7
  {
  }
}
