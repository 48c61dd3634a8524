/** The booking page's month calendar: the civil-date arithmetic behind
    JavaScript's `new Date(y, m, d)`, the month grid padded to whole weeks,
    the CSS classes of a day cell, the click guard and the month navigation.
    Local time is taken to be UTC (no time zone, no daylight saving). */
module Calendar {
  import opened Wrappers
  import opened Time
  import opened Availability

  /** The calendar fields of a `Date`: `getFullYear()`, `getMonth()`
      (0 = January ... 11 = December) and `getDate()`. */
  datatype CivilDate = CivilDate(year: int, month: int, day: int)

  predicate IsLeapYear(y: int) {
    y % 4 == 0 && (y % 100 != 0 || y % 400 == 0)
  }

  /** The number of days of month `m` (0-based) of year `y`, as date-fns
      `endOfMonth` finds it. */
  function DaysInMonth(y: int, m: int): (n: int)
    requires 0 <= m < 12
    ensures 28 <= n <= 31
    ensures n == 28 <==> m == 1 && !IsLeapYear(y)
  {
    if m == 1 then (if IsLeapYear(y) then 29 else 28)
    else if m == 3 || m == 5 || m == 8 || m == 10 then 30
    else 31
  }

  /** The day of month `m` (0-based) day `d` of year `y` counted from
      1970-01-01 in the proleptic Gregorian calendar (`Date.UTC(y, m, d)`
      divided by the length of a day). The year is taken to start in March,
      so that the leap day comes last: the days before March-year `y` are
      365 per year plus one per leap year. */
  function DayNumber(c: CivilDate): int
    requires 0 <= c.month < 12
  {
    var y := if c.month <= 1 then c.year - 1 else c.year;
    var mp := if c.month >= 2 then c.month - 2 else c.month + 10;
    365 * y + y / 4 - y / 100 + y / 400 + DaysBeforeMonth(mp) + c.day - 1 - 719468
  }

  /** The days in a March-year before its month `mp` (March is 0), the
      values of `(153 * mp + 2) / 5`. */
  function DaysBeforeMonth(mp: int): int
    requires 0 <= mp < 12
  {
    [0, 31, 61, 92, 122, 153, 184, 214, 245, 275, 306, 337][mp]
  }

  /** `new Date(y, m, d)` as a timestamp: local midnight of that day. */
  function Midnight(c: CivilDate): int
    requires 0 <= c.month < 12
  {
    DayStart(DayNumber(c))
  }

  /** 1970-01-01 is day 0, a Thursday; 2024-01-01 is day 19723, a Monday. */
  lemma DayNumberExamples()
    ensures DayNumber(CivilDate(1970, 0, 1)) == 0 && Weekday(0) == 4
    ensures DayNumber(CivilDate(2024, 0, 1)) == 19723 && Weekday(19723) == 1
  {
  }

  /** Consecutive days of a month have consecutive day numbers. */
  lemma DayNumberOffset(y: int, m: int, d: int, k: int)
    requires 0 <= m < 12
    ensures DayNumber(CivilDate(y, m, d + k)) == DayNumber(CivilDate(y, m, d)) + k
  {
  }

  /** The year and month of `new Date(y, m + delta, 1)`: JavaScript carries
      a month outside 0..11 into the year. */
  function ShiftMonth(c: CivilDate, delta: int): (r: CivilDate)
    ensures 0 <= r.month < 12 && r.day == 1
    ensures r.year * 12 + r.month == c.year * 12 + c.month + delta
  {
    CivilDate(c.year + (c.month + delta) / 12, (c.month + delta) % 12, 1)
  }

  /** Day 1 of the month of `c`. */
  function MonthStart(c: CivilDate): CivilDate {
    CivilDate(c.year, c.month, 1)
  }

  /** Moving one month forward, then one back, lands on day 1 of the month
      started from; the year rolls over at December and January. */
  lemma NextThenPrevious(c: CivilDate)
    requires 0 <= c.month < 12
    ensures ShiftMonth(ShiftMonth(c, 1), -1) == MonthStart(c)
    ensures ShiftMonth(ShiftMonth(c, -1), 1) == MonthStart(c)
    ensures c.month == 11 ==> ShiftMonth(c, 1) == CivilDate(c.year + 1, 0, 1)
    ensures c.month == 0 ==> ShiftMonth(c, -1) == CivilDate(c.year - 1, 11, 1)
  {
    var n := ShiftMonth(c, 1);
    var p := ShiftMonth(c, -1);
    MonthIndexInjective(ShiftMonth(n, -1), MonthStart(c));
    MonthIndexInjective(ShiftMonth(p, 1), MonthStart(c));
  }

  /** A year and a month in 0..11 are determined by their month count. */
  lemma MonthIndexInjective(a: CivilDate, b: CivilDate)
    requires 0 <= a.month < 12 && 0 <= b.month < 12 && a.day == b.day
    requires a.year * 12 + a.month == b.year * 12 + b.month
    ensures a == b
  {
  }

  /** The first day of the next month comes right after the last day of
      this one: the month lengths agree with the day numbering. */
  lemma MonthLength(y: int, m: int)
    requires 0 <= m < 12
    ensures DayNumber(ShiftMonth(CivilDate(y, m, 1), 1)) == DayNumber(CivilDate(y, m, 1)) + DaysInMonth(y, m)
  {
    var next := ShiftMonth(CivilDate(y, m, 1), 1);
    if m == 1 {
      assert next == CivilDate(y, 2, 1);
      LeapDay(y);
    } else if m == 11 {
      assert next == CivilDate(y + 1, 0, 1);
    } else {
      assert next == CivilDate(y, m + 1, 1);
    }
  }

  /** March 1st follows February 28th, or the 29th in a leap year. */
  lemma LeapDay(y: int)
    ensures DayNumber(CivilDate(y, 2, 1)) - DayNumber(CivilDate(y, 1, 1)) ==
            if IsLeapYear(y) then 29 else 28
  {
    assert DayNumber(CivilDate(y, 2, 1)) == 365 * y + y / 4 - y / 100 + y / 400 - 719468;
    assert DayNumber(CivilDate(y, 1, 1)) == 365 * (y - 1) + (y - 1) / 4 - (y - 1) / 100 + (y - 1) / 400 + 337 - 719468;
    FloorStep(y);
  }

  /** Going from year `y - 1` to `y` adds one to `y / k` exactly when `k`
      divides `y`, for the three divisors of the leap-year rule. */
  lemma FloorStep(y: int)
    ensures y / 4 - (y - 1) / 4 == if y % 4 == 0 then 1 else 0
    ensures y / 100 - (y - 1) / 100 == if y % 100 == 0 then 1 else 0
    ensures y / 400 - (y - 1) / 400 == if y % 400 == 0 then 1 else 0
  {
  }

  /** `new Date(y, m, d)` of a cell is midnight of a day, and that day is
      the cell's day. */
  lemma MidnightDay(c: CivilDate)
    requires 0 <= c.month < 12
    ensures DayOf(Midnight(c)) == DayNumber(c) && Midnight(c) % MsPerDay == 0
  {
    DayOfWithin(DayNumber(c), 0);
  }

  /** `getDay()` moves on by one each day. */
  lemma WeekdayAdd(d: int, k: int)
    ensures Weekday(d + k) == (Weekday(d) + k) % 7
  {
  }

  // ---------------------------------------------------------------- the grid

  /** `monthStart.getDay()`: how many blank cells precede day 1. */
  function LeadingBlanks(c: CivilDate): (n: int)
    requires 0 <= c.month < 12
    ensures 0 <= n < 7
  {
    Weekday(DayNumber(MonthStart(c)))
  }

  /** `eachDayOfInterval(startOfMonth, endOfMonth)`, each at midnight. */
  function MonthDays(c: CivilDate): (days: seq<int>)
    requires 0 <= c.month < 12
    ensures |days| == DaysInMonth(c.year, c.month)
    ensures forall k :: 0 <= k < |days| ==>
              days[k] % MsPerDay == 0 && DayOf(days[k]) == DayNumber(MonthStart(c)) + k
  {
    var days := seq(DaysInMonth(c.year, c.month), k requires 0 <= k => Midnight(CivilDate(c.year, c.month, k + 1)));
    forall k | 0 <= k < |days|
      ensures days[k] % MsPerDay == 0 && DayOf(days[k]) == DayNumber(MonthStart(c)) + k
    {
      var day := CivilDate(c.year, c.month, k + 1);
      assert days[k] == Midnight(day);
      MidnightDay(day);
      DayNumberOffset(c.year, c.month, 1, k);
    }
    days
  }

  /** `(7 - (count % 7)) % 7`: the blanks that complete the last week. */
  function TrailingBlanks(count: int): (t: int)
    ensures 0 <= t < 7 && (count + t) % 7 == 0
  {
    (7 - count % 7) % 7
  }

  function Blanks(n: int): (r: seq<Option<int>>)
    ensures |r| == if n < 0 then 0 else n
    ensures forall i :: 0 <= i < |r| ==> r[i] == None
  {
    seq(if n < 0 then 0 else n, _ => None)
  }

  function Present(days: seq<int>): (r: seq<Option<int>>)
    ensures |r| == |days|
    ensures forall i :: 0 <= i < |r| ==> r[i] == Some(days[i])
  {
    seq(|days|, i requires 0 <= i < |days| => Some(days[i]))
  }

  /** The cells of the month of `c`: `null` for a blank, the day otherwise. */
  function Grid(c: CivilDate): seq<Option<int>>
    requires 0 <= c.month < 12
  {
    var lead := LeadingBlanks(c);
    var n := DaysInMonth(c.year, c.month);
    Blanks(lead) + Present(MonthDays(c)) + Blanks(TrailingBlanks(lead + n))
  }

  /** The grid is whole weeks: `leadingBlanks` (0..6) blanks, the days of
      the month from the 1st in order, then 0..6 blanks; the day after the
      last cell day is the 1st of the next month. */
  lemma GridShape(c: CivilDate)
    requires 0 <= c.month < 12
    ensures var g := Grid(c);
            var lead := LeadingBlanks(c);
            var n := DaysInMonth(c.year, c.month);
            |g| % 7 == 0 && lead + n <= |g| < lead + n + 7 &&
            (forall i :: 0 <= i < lead ==> g[i] == None) &&
            (forall i :: lead <= i < lead + n ==> g[i] == Some(MonthDays(c)[i - lead])) &&
            (forall i :: lead + n <= i < |g| ==> g[i] == None) &&
            DayNumber(CivilDate(c.year, c.month, n)) + 1 == DayNumber(ShiftMonth(c, 1))
  {
    GridCells(c);
    MonthEnd(c);
  }

  lemma GridCells(c: CivilDate)
    requires 0 <= c.month < 12
    ensures var g := Grid(c);
            var lead := LeadingBlanks(c);
            var n := DaysInMonth(c.year, c.month);
            |g| % 7 == 0 && lead + n <= |g| < lead + n + 7 &&
            (forall i :: 0 <= i < lead ==> g[i] == None) &&
            (forall i :: lead <= i < lead + n ==> g[i] == Some(MonthDays(c)[i - lead])) &&
            (forall i :: lead + n <= i < |g| ==> g[i] == None)
  {
    var lead := LeadingBlanks(c);
    var n := DaysInMonth(c.year, c.month);
    var a, b, t := Blanks(lead), Present(MonthDays(c)), Blanks(TrailingBlanks(lead + n));
    var g := a + b + t;
    assert Grid(c) == g;
    forall i | lead <= i < lead + n
      ensures g[i] == Some(MonthDays(c)[i - lead])
    {
      assert g[i] == b[i - lead];
    }
    forall i | lead + n <= i < |g|
      ensures g[i] == None
    {
      assert g[i] == t[i - lead - n];
    }
  }

  lemma MonthEnd(c: CivilDate)
    requires 0 <= c.month < 12
    ensures DayNumber(CivilDate(c.year, c.month, DaysInMonth(c.year, c.month))) + 1 == DayNumber(ShiftMonth(c, 1))
  {
    var n := DaysInMonth(c.year, c.month);
    MonthLength(c.year, c.month);
    DayNumberOffset(c.year, c.month, 1, n - 1);
    assert ShiftMonth(c, 1) == ShiftMonth(CivilDate(c.year, c.month, 1), 1);
  }

  /** Every cell sits in the column of its weekday: column 0 is Sunday,
      matching the header row Sun..Sat. */
  lemma GridColumns(c: CivilDate)
    requires 0 <= c.month < 12
    ensures var g := Grid(c);
            forall i :: 0 <= i < |g| && g[i].Some? ==> Weekday(DayOf(g[i].value)) == i % 7
  {
    var g := Grid(c);
    var lead := LeadingBlanks(c);
    GridCells(c);
    forall i | 0 <= i < |g| && g[i].Some?
      ensures Weekday(DayOf(g[i].value)) == i % 7
    {
      WeekdayAdd(DayNumber(MonthStart(c)), i - lead);
    }
  }

  /** The number of day cells (`day` truthy in the render loop). */
  function CountDays(cells: seq<Option<int>>): nat {
    if cells == [] then 0 else CountDays(cells[..|cells| - 1]) + (if cells[|cells| - 1].Some? then 1 else 0)
  }

  lemma {:induction false} CountDaysAppend(a: seq<Option<int>>, b: seq<Option<int>>)
    ensures CountDays(a + b) == CountDays(a) + CountDays(b)
    decreases |b|
  {
    if b != [] {
      assert (a + b)[..|a + b| - 1] == a + b[..|b| - 1];
      CountDaysAppend(a, b[..|b| - 1]);
    } else {
      assert a + b == a;
    }
  }

  lemma {:induction false} CountDaysBlanks(n: int)
    ensures CountDays(Blanks(n)) == 0
    decreases if n < 0 then 0 else n
  {
    if n > 0 {
      assert Blanks(n)[..n - 1] == Blanks(n - 1);
      CountDaysBlanks(n - 1);
    }
  }

  lemma {:induction false} CountDaysPresent(days: seq<int>)
    ensures CountDays(Present(days)) == |days|
    decreases |days|
  {
    if days != [] {
      assert Present(days)[..|days| - 1] == Present(days[..|days| - 1]);
      CountDaysPresent(days[..|days| - 1]);
    }
  }

  /** The grid shows each day of the month once: its day cells are as many
      as the month has days. */
  lemma GridDayCount(c: CivilDate)
    requires 0 <= c.month < 12
    ensures CountDays(Grid(c)) == DaysInMonth(c.year, c.month)
  {
    var lead := LeadingBlanks(c);
    var n := DaysInMonth(c.year, c.month);
    var a, b, t := Blanks(lead), Present(MonthDays(c)), Blanks(TrailingBlanks(lead + n));
    CountDaysAppend(a + b, t);
    CountDaysAppend(a, b);
    CountDaysBlanks(lead);
    CountDaysBlanks(TrailingBlanks(lead + n));
    CountDaysPresent(MonthDays(c));
  }

  // ------------------------------------------------------ the day's classes

  /** The CSS classes a day cell can get. */
  datatype DayClass = CalendarDay | Today | Selected | Weekend | Available | Unavailable

  function ClassName(c: DayClass): (name: string)
    ensures ' ' !in name
  {
    match c
    case CalendarDay => "calendar-day"
    case Today => "today"
    case Selected => "selected"
    case Weekend => "weekend"
    case Available => "available"
    case Unavailable => "unavailable"
  }

  /** Different classes have different names. */
  lemma ClassNameInjective(c: DayClass, d: DayClass)
    ensures ClassName(c) == ClassName(d) ==> c == d
  {
    if c != d {
      assert |ClassName(c)| != |ClassName(d)|;
    }
  }

  function Names(cs: seq<DayClass>): (r: seq<string>)
    ensures |r| == |cs| && forall i :: 0 <= i < |cs| ==> r[i] == ClassName(cs[i])
  {
    seq(|cs|, i requires 0 <= i < |cs| => ClassName(cs[i]))
  }

  /** The classes of a day cell, in the order `getDayClass` adds them. */
  function DayClasses(isToday: bool, isSelected: bool, weekend: bool, fullyBooked: bool): seq<DayClass> {
    FlagClasses(isToday, isSelected) + StatusClasses(weekend, fullyBooked)
  }

  /** `calendar-day`, then `today` and `selected` when they apply. */
  function FlagClasses(isToday: bool, isSelected: bool): (head: seq<DayClass>)
    ensures |head| >= 1 && head[0] == CalendarDay && CalendarDay !in head[1..]
    ensures forall c :: c in head <==> c == CalendarDay || (c == Today && isToday) || (c == Selected && isSelected)
  {
    [CalendarDay] + (if isToday then [Today] else []) + (if isSelected then [Selected] else [])
  }

  /** `weekend`, or `available` followed by `unavailable` when the day is full. */
  function StatusClasses(weekend: bool, fullyBooked: bool): (tail: seq<DayClass>)
    ensures forall c :: c in tail <==>
      (c == Weekend && weekend) || (c == Available && !weekend) || (c == Unavailable && !weekend && fullyBooked)
  {
    if weekend then [Weekend] else [Available] + (if fullyBooked then [Unavailable] else [])
  }

  /** Each flag's class is there exactly when the flag is set; `available`
      exactly on weekdays; `unavailable` only on a fully booked weekday;
      `calendar-day` once, in front. */
  lemma DayClassesRules(isToday: bool, isSelected: bool, weekend: bool, fullyBooked: bool)
    ensures var cs := DayClasses(isToday, isSelected, weekend, fullyBooked);
            |cs| >= 1 && cs[0] == CalendarDay && CalendarDay !in cs[1..]
    ensures forall c :: c in DayClasses(isToday, isSelected, weekend, fullyBooked) <==>
      c == CalendarDay || (c == Today && isToday) || (c == Selected && isSelected) ||
      (c == Weekend && weekend) || (c == Available && !weekend) || (c == Unavailable && !weekend && fullyBooked)
  {
    var head := FlagClasses(isToday, isSelected);
    var tail := StatusClasses(weekend, fullyBooked);
    assert DayClasses(isToday, isSelected, weekend, fullyBooked)[1..] == head[1..] + tail;
  }

  /** The class attribute for a list of class names: `+= ' ' + name` from
      the first one on. */
  function JoinSpaced(ts: seq<string>): string
    requires |ts| >= 1
  {
    if |ts| == 1 then ts[0] else JoinSpaced(ts[..|ts| - 1]) + " " + ts[|ts| - 1]
  }

  /** The position of the last space in `s`. */
  function LastSpace(s: string): (r: Option<nat>)
    ensures r.None? <==> ' ' !in s
    ensures r.Some? ==> r.value < |s| && s[r.value] == ' ' && ' ' !in s[r.value + 1..]
  {
    if s == [] then None
    else if s[|s| - 1] == ' ' then Some(|s| - 1)
    else match LastSpace(s[..|s| - 1])
      case None => None
      case Some(k) => assert s[k + 1..] == s[..|s| - 1][k + 1..] + [s[|s| - 1]]; Some(k)
  }

  /** `className.split(' ')`: the class list the browser reads. */
  function SplitSpaces(s: string): (r: seq<string>)
    ensures |r| >= 1
    decreases |s|
  {
    match LastSpace(s)
    case None => [s]
    case Some(j) => SplitSpaces(s[..j]) + [s[j + 1..]]
  }

  /** Class names without spaces are read back as written. */
  lemma {:induction false} SplitJoin(ts: seq<string>)
    requires |ts| >= 1 && forall i :: 0 <= i < |ts| ==> ' ' !in ts[i]
    ensures SplitSpaces(JoinSpaced(ts)) == ts
    decreases |ts|
  {
    if |ts| > 1 {
      var init, last := ts[..|ts| - 1], ts[|ts| - 1];
      LastSpaceOf(JoinSpaced(init), last);
      SplitJoin(init);
      assert init + [last] == ts;
    }
  }

  lemma LastSpaceOf(a: string, b: string)
    requires ' ' !in b
    ensures LastSpace(a + " " + b) == Some(|a|)
    ensures (a + " " + b)[..|a|] == a && (a + " " + b)[|a| + 1..] == b
  {
    var s := a + " " + b;
    assert s[|a|] == ' ' && s[|a| + 1..] == b;
  }

  /** The classes `getDayClass` gives the cell of `date`, with `now` the
      current time and `selected` the page's selected date. Every date is
      first moved to its local midnight. */
  function CellClasses(bookings: seq<Booking>, blocked: seq<int>, hours: WorkingHours,
                       date: int, now: int, selected: Option<int>): seq<DayClass>
  {
    var clean := DayStart(DayOf(date));
    var weekend := IsWeekend(clean);
    DayClasses(IsSameDay(clean, DayStart(DayOf(now))),
               selected.Some? && IsSameDay(clean, selected.value),
               weekend,
               !weekend && IsFullyBooked(bookings, blocked, hours, clean))
  }

  /** The cell's classes: `calendar-day` first; `today` and `selected` on
      those days; `weekend` on Saturdays and Sundays, which never get
      `available` or `unavailable`; `available` on every weekday, with
      `unavailable` added exactly when the day is fully booked. */
  lemma CellClassRules(bookings: seq<Booking>, blocked: seq<int>, hours: WorkingHours,
                       date: int, now: int, selected: Option<int>)
    ensures var cs := CellClasses(bookings, blocked, hours, date, now, selected);
            var clean := DayStart(DayOf(date));
            cs[0] == CalendarDay &&
            (Weekend in cs <==> IsWeekend(date)) &&
            (Available in cs <==> !IsWeekend(date)) &&
            (Unavailable in cs <==> !IsWeekend(date) && IsFullyBooked(bookings, blocked, hours, clean)) &&
            (Today in cs <==> IsSameDay(date, now)) &&
            (Selected in cs <==> selected.Some? && IsSameDay(date, selected.value))
  {
    var clean := DayStart(DayOf(date));
    DayOfWithin(DayOf(date), 0);
    DayOfWithin(DayOf(now), 0);
    assert DayOf(clean) == DayOf(date) && DayOf(DayStart(DayOf(now))) == DayOf(now);
    var isToday := IsSameDay(clean, DayStart(DayOf(now)));
    var isSelected := selected.Some? && IsSameDay(clean, selected.value);
    var weekend := IsWeekend(clean);
    assert isToday == IsSameDay(date, now);
    assert isSelected == (selected.Some? && IsSameDay(date, selected.value));
    assert weekend == IsWeekend(date);
    var fullyBooked := !weekend && IsFullyBooked(bookings, blocked, hours, clean);
    var cs := DayClasses(isToday, isSelected, weekend, fullyBooked);
    assert CellClasses(bookings, blocked, hours, date, now, selected) == cs;
    DayClassesRules(isToday, isSelected, weekend, fullyBooked);
    assert Weekend in cs <==> weekend;
    assert Available in cs <==> !weekend;
    assert Unavailable in cs <==> fullyBooked;
    assert Today in cs <==> isToday;
    assert Selected in cs <==> isSelected;
  }

  /** The browser reads the class attribute back as the list of classes:
      no class is lost, added or merged with another. */
  lemma ClassAttributeRoundTrip(cs: seq<DayClass>)
    requires |cs| >= 1
    ensures SplitSpaces(JoinSpaced(Names(cs))) == Names(cs)
    ensures forall c :: ClassName(c) in SplitSpaces(JoinSpaced(Names(cs))) <==> c in cs
  {
    SplitJoin(Names(cs));
    forall c
      ensures ClassName(c) in Names(cs) <==> c in cs
    {
      if ClassName(c) in Names(cs) {
        var i :| 0 <= i < |cs| && Names(cs)[i] == ClassName(c);
        ClassNameInjective(cs[i], c);
      }
      if c in cs {
        var i :| 0 <= i < |cs| && cs[i] == c;
        assert Names(cs)[i] == ClassName(c);
      }
    }
  }

  /** What a click on a day asks of the page, in call order. */
  datatype CalendarCall =
    | DateChange(date: int)   // onDateChange(cleanDate)
    | SelectSlot(start: int)  // onSelectSlot({ start: cleanDate })

  /** The month calendar component: the month on show and the store it
      reads. */
  class SimpleCalendar {
    var currentDate: CivilDate
    const service: AvailabilityService

    predicate Valid()
      reads this
    {
      0 <= currentDate.month < 12
    }

    /** The component opens on the month of today. */
    constructor (service: AvailabilityService, today: CivilDate)
      requires 0 <= today.month < 12
      ensures Valid() && currentDate == today && this.service == service
    {
      currentDate := today;
      this.service := service;
    }

    /** The grid of the month on show: the three `push` loops. */
    method Cells() returns (cells: seq<Option<int>>)
      requires Valid()
      ensures cells == Grid(currentDate)
    {
      var monthDays := MonthDays(currentDate);
      var leadingBlanks := Weekday(DayNumber(CivilDate(currentDate.year, currentDate.month, 1)));
      cells := [];
      for i := 0 to leadingBlanks
        invariant cells == Blanks(i)
      {
        cells := cells + [None];
      }
      for k := 0 to |monthDays|
        invariant cells == Blanks(leadingBlanks) + Present(monthDays[..k])
      {
        assert monthDays[..k + 1] == monthDays[..k] + [monthDays[k]];
        cells := cells + [Some(monthDays[k])];
      }
      assert monthDays[..|monthDays|] == monthDays;
      var trailingBlanks := (7 - (|cells| % 7)) % 7;
      ghost var filled := cells;
      for i := 0 to trailingBlanks
        invariant cells == filled + Blanks(i)
      {
        cells := cells + [None];
      }
    }

    /** `handleDateClick`: a weekend or a day without a free slot is
        ignored; otherwise the page is told the day, at local midnight, by
        both callbacks in turn. */
    method HandleDateClick(date: int) returns (calls: seq<CalendarCall>)
      ensures var clean := DayStart(DayOf(date));
              (calls != [] <==>
                 !IsWeekend(date) && HasAvailability(service.bookedSlots, service.blockedDates, service.workingHours, clean)) &&
              (calls != [] ==> calls == [DateChange(clean), SelectSlot(clean)])
      ensures forall i :: 0 <= i < |calls| ==>
                var d := if calls[i].DateChange? then calls[i].date else calls[i].start;
                d % MsPerDay == 0 && DayOf(d) == DayOf(date)
    {
      var cleanDate := DayStart(DayOf(date));
      DayOfWithin(DayOf(date), 0);
      if IsWeekend(cleanDate) {
        return [];
      }
      calls := [];
      if HasAvailability(service.bookedSlots, service.blockedDates, service.workingHours, cleanDate) {
        calls := calls + [DateChange(cleanDate)];
        calls := calls + [SelectSlot(cleanDate)];
      }
    }

    /** `goToPreviousMonth`: day 1 of the month before. */
    method GoToPreviousMonth()
      modifies this
      ensures Valid() && currentDate == ShiftMonth(old(currentDate), -1)
    {
      currentDate := CivilDate(currentDate.year + (currentDate.month - 1) / 12, (currentDate.month - 1) % 12, 1);
    }

    /** `goToNextMonth`: day 1 of the month after. */
    method GoToNextMonth()
      modifies this
      ensures Valid() && currentDate == ShiftMonth(old(currentDate), 1)
    {
      currentDate := CivilDate(currentDate.year + (currentDate.month + 1) / 12, (currentDate.month + 1) % 12, 1);
    }

    /** `getDayClass`: the class attribute of the cell of `date`, built by
        appending one class name at a time. */
    method GetDayClass(date: int, now: int, selectedDate: Option<int>) returns (className: string)
      ensures className ==
                JoinSpaced(Names(CellClasses(service.bookedSlots, service.blockedDates, service.workingHours,
                                             date, now, selectedDate)))
    {
      var cleanDate := DayStart(DayOf(date));
      var cleanToday := DayStart(DayOf(now));
      var isToday := IsSameDay(cleanDate, cleanToday);
      var isSelected := selectedDate.Some? && IsSameDay(cleanDate, selectedDate.value);
      var weekend := IsWeekend(cleanDate);
      var fullyBooked := !weekend && IsFullyBooked(service.bookedSlots, service.blockedDates, service.workingHours, cleanDate);
      ghost var cs;
      className, cs := FlagAttribute(isToday, isSelected);
      className, cs := StatusAttribute(className, cs, weekend, fullyBooked);
    }
  }

  /** The start of `getDayClass`: `calendar-day`, then ` today` and
      ` selected` when they apply. */
  method FlagAttribute(isToday: bool, isSelected: bool) returns (className: string, ghost cs: seq<DayClass>)
    ensures cs == FlagClasses(isToday, isSelected) && className == JoinSpaced(Names(cs))
  {
    className := ClassName(CalendarDay);
    cs := [CalendarDay];
    if isToday {
      className, cs := Append(className, cs, Today);
    }
    if isSelected {
      className, cs := Append(className, cs, Selected);
    }
  }

  /** The rest of `getDayClass`: ` weekend`, or ` available` followed by
      ` unavailable` on a fully booked day. */
  method StatusAttribute(className: string, ghost cs: seq<DayClass>, weekend: bool, fullyBooked: bool)
    returns (className': string, ghost cs': seq<DayClass>)
    requires |cs| >= 1 && className == JoinSpaced(Names(cs))
    ensures cs' == cs + StatusClasses(weekend, fullyBooked) && className' == JoinSpaced(Names(cs'))
  {
    if weekend {
      className', cs' := Append(className, cs, Weekend);
    } else {
      className', cs' := Append(className, cs, Available);
      if fullyBooked {
        className', cs' := Append(className', cs', Unavailable);
      }
    }
  }

  /** The names of a list of classes grow one name at a time. */
  lemma NamesSnoc(cs: seq<DayClass>, c: DayClass)
    ensures Names(cs + [c]) == Names(cs) + [ClassName(c)]
  {
  }

  /** `className += ' ' + name`, with the list of classes so far. */
  method Append(className: string, ghost cs: seq<DayClass>, c: DayClass)
    returns (className': string, ghost cs': seq<DayClass>)
    requires |cs| >= 1 && className == JoinSpaced(Names(cs))
    ensures cs' == cs + [c] && className' == JoinSpaced(Names(cs'))
  {
    className' := className + " " + ClassName(c);
    cs' := cs + [c];
    NamesSnoc(cs, c);
    assert (Names(cs) + [ClassName(c)])[..|cs|] == Names(cs);
  }
}
