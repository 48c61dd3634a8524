/** The availability and booking engine: one store of booked intervals and
    blocked dates, the hourly slots of a day (9:00 to 17:00), the open-interval
    conflict test, the day-level status the calendar colours by, the forward
    scan for days with free slots, and the one mutating operation, booking a
    slot. */
module Availability {
  import opened Wrappers
  import opened Text
  import opened Time

  /** The store's working hours: slots start on the hour from `start` up to
      `end - 1`. `days` is declared but no operation reads it. */
  datatype WorkingHours = WorkingHours(start: int, end: int, days: seq<int>)

  /** 9:00 to 17:00, Monday to Friday. */
  const DefaultHours: WorkingHours := WorkingHours(9, 17, [1, 2, 3, 4, 5])

  const WeekendError: string := "Weekends are unavailable"
  const ConflictError: string := "Selected time is already booked"
  const SampleTitle: string := "Client Meeting"
  const TitlePrefix: string := "Meeting with "
  const CodePrefix: string := "SOT-"

  /** What the booking form collects about the client. */
  datatype ClientInfo = ClientInfo(
    name: string, email: string, phone: string,
    service: string, message: string, notifyByEmail: bool)

  /** A booked interval. The sample booking carries no client. */
  datatype Booking = Booking(start: int, end: int, title: string, clientInfo: Option<ClientInfo>)

  /** One offered hour `[start, end)`; `available` is always set. */
  datatype Slot = Slot(start: int, end: int, available: bool)

  /** An entry of the forward scan: a day, its number of free slots, and up
      to three of them as examples. */
  datatype DayAvailability = DayAvailability(date: int, availableSlots: nat, slots: seq<Slot>)

  /** A suggestion for the chat assistant before it is rendered as text:
      the day and the start times of its example slots. */
  datatype Suggestion = Suggestion(date: int, times: seq<int>)

  /** A booking as handed to the calendar widget. */
  datatype CalendarEvent = CalendarEvent(id: string, title: string, start: int, end: int, resource: Booking)

  datatype BookResult = Booked(booking: Booking, confirmationCode: string) | Rejected(error: string)

  /** A message the assistant bot is asked to send at time `when`. */
  datatype Notification = Notification(to: string, subject: string, when: int)

  function Min(a: int, b: int): int {
    if a <= b then a else b
  }

  /** The open-interval overlap test: touching endpoints do not overlap. */
  predicate Overlaps(start: int, end: int, b: Booking) {
    start < b.end && end > b.start
  }

  /** `isSlotBooked`: some booking overlaps `[start, end)`. */
  predicate IsSlotBooked(bookings: seq<Booking>, start: int, end: int) {
    exists i :: 0 <= i < |bookings| && Overlaps(start, end, bookings[i])
  }

  /** `isDateBlocked`: some blocked date falls on the same day as `date`. */
  predicate IsDateBlocked(blocked: seq<int>, date: int) {
    exists i :: 0 <= i < |blocked| && DayOf(blocked[i]) == DayOf(date)
  }

  /** `isWeekday`, declared by the store and never called. */
  function IsWeekday(date: int): (r: bool)
    ensures r <==> !IsWeekend(date)
  {
    var w := Weekday(DayOf(date));
    1 <= w <= 5
  }

  /** The slot of hour `h` on day `day`. */
  function HourSlot(day: int, h: int): Slot {
    Slot(HourStart(day, h), HourStart(day, h + 1), true)
  }

  /** No two bookings overlap under the `isSlotBooked` test. */
  predicate NoOverlap(bookings: seq<Booking>) {
    forall i, j :: 0 <= i < j < |bookings| ==>
      !Overlaps(bookings[j].start, bookings[j].end, bookings[i])
  }

  /** The free hourly slots of `day` from hour `h` up to the closing hour `end`. */
  function FreeSlotsFrom(bookings: seq<Booking>, day: int, h: int, end: int): (r: seq<Slot>)
    decreases end - h
    ensures |r| <= if h < end then end - h else 0
    ensures forall i :: 0 <= i < |r| ==>
      (exists k :: h <= k < end && r[i] == HourSlot(day, k)) &&
      !IsSlotBooked(bookings, r[i].start, r[i].end)
    ensures forall i, j :: 0 <= i < j < |r| ==> r[i].end <= r[j].start
  {
    if h >= end then []
    else
      var here := if IsSlotBooked(bookings, HourStart(day, h), HourStart(day, h + 1))
                  then [] else [HourSlot(day, h)];
      here + FreeSlotsFrom(bookings, day, h + 1, end)
  }

  /** `getAvailableSlots`: nothing on a blocked day or a weekend; otherwise
      every working hour of the day that no booking overlaps, in order. */
  function AvailableSlots(bookings: seq<Booking>, blocked: seq<int>, hours: WorkingHours, date: int)
    : (r: seq<Slot>)
    ensures IsDateBlocked(blocked, date) || IsWeekend(date) ==> r == []
    ensures |r| <= if hours.start < hours.end then hours.end - hours.start else 0
    ensures forall i :: 0 <= i < |r| ==>
      (exists h :: hours.start <= h < hours.end && r[i] == HourSlot(DayOf(date), h)) &&
      !IsSlotBooked(bookings, r[i].start, r[i].end)
    ensures forall i, j :: 0 <= i < j < |r| ==> r[i].start < r[j].start && r[i].end <= r[j].start
  {
    if IsDateBlocked(blocked, date) || IsWeekend(date) then []
    else FreeSlotsFrom(bookings, DayOf(date), hours.start, hours.end)
  }

  /** The slot of hour `h` is among the free slots from `h0` exactly when no
      booking overlaps it. */
  lemma {:induction false} FreeSlotsFromMembership(bookings: seq<Booking>, day: int, h0: int, h: int, end: int)
    requires h0 <= h < end
    ensures HourSlot(day, h) in FreeSlotsFrom(bookings, day, h0, end)
        <==> !IsSlotBooked(bookings, HourStart(day, h), HourStart(day, h + 1))
    decreases h - h0
  {
    var rest := FreeSlotsFrom(bookings, day, h0 + 1, end);
    if h0 < h {
      FreeSlotsFromMembership(bookings, day, h0 + 1, h, end);
    }
  }

  /** On an open weekday, the slot of a working hour is offered exactly when
      no booking `b` has `slotStart < b.end && slotEnd > b.start`. */
  lemma SlotOfferedIff(bookings: seq<Booking>, blocked: seq<int>, hours: WorkingHours, date: int, h: int)
    requires !IsDateBlocked(blocked, date) && !IsWeekend(date)
    requires hours.start <= h < hours.end
    ensures HourSlot(DayOf(date), h) in AvailableSlots(bookings, blocked, hours, date)
        <==> forall b :: b in bookings ==>
               !(HourStart(DayOf(date), h) < b.end && HourStart(DayOf(date), h + 1) > b.start)
  {
    FreeSlotsFromMembership(bookings, DayOf(date), hours.start, h, hours.end);
  }

  /** A booking added to the store conflicts with an interval exactly when
      it overlaps it; the earlier answers are kept. */
  lemma IsSlotBookedAppend(bookings: seq<Booking>, b: Booking, start: int, end: int)
    ensures IsSlotBooked(bookings + [b], start, end)
        <==> IsSlotBooked(bookings, start, end) || Overlaps(start, end, b)
  {
    var all := bookings + [b];
    if IsSlotBooked(all, start, end) {
      var i :| 0 <= i < |all| && Overlaps(start, end, all[i]);
      if i < |bookings| { assert all[i] == bookings[i]; }
    }
    if IsSlotBooked(bookings, start, end) {
      var i :| 0 <= i < |bookings| && Overlaps(start, end, bookings[i]);
      assert all[i] == bookings[i];
    }
    if Overlaps(start, end, b) {
      assert all[|bookings|] == b;
    }
  }

  /** A booking that only touches a slot at an endpoint (back to back) does
      not take that slot away. */
  lemma TouchingBookingKeepsSlot(bookings: seq<Booking>, blocked: seq<int>, hours: WorkingHours,
                                 date: int, h: int, b: Booking)
    requires !IsDateBlocked(blocked, date) && !IsWeekend(date)
    requires hours.start <= h < hours.end
    requires b.end == HourStart(DayOf(date), h) || b.start == HourStart(DayOf(date), h + 1)
    ensures HourSlot(DayOf(date), h) in AvailableSlots(bookings + [b], blocked, hours, date)
        <==> HourSlot(DayOf(date), h) in AvailableSlots(bookings, blocked, hours, date)
  {
    var day := DayOf(date);
    FreeSlotsFromMembership(bookings, day, hours.start, h, hours.end);
    FreeSlotsFromMembership(bookings + [b], day, hours.start, h, hours.end);
    IsSlotBookedAppend(bookings, b, HourStart(day, h), HourStart(day, h + 1));
  }

  /** With no booking at all, the slots from hour `h` are every hour up to
      the closing hour. */
  lemma {:induction false} FreeSlotsWithoutBookings(day: int, h: int, end: int)
    requires h <= end
    ensures FreeSlotsFrom([], day, h, end) == seq(end - h, i => HourSlot(day, h + i))
    decreases end - h
  {
    if h < end {
      FreeSlotsWithoutBookings(day, h + 1, end);
      assert !IsSlotBooked([], HourStart(day, h), HourStart(day, h + 1));
    }
  }

  /** An open weekday with no bookings offers every working hour in order:
      under the default hours, the eight slots 9:00-10:00 ... 16:00-17:00. */
  lemma EmptyWeekdayHasAllSlots(blocked: seq<int>, hours: WorkingHours, date: int)
    requires !IsDateBlocked(blocked, date) && !IsWeekend(date)
    requires hours.start <= hours.end
    ensures AvailableSlots([], blocked, hours, date) ==
              seq(hours.end - hours.start, i => HourSlot(DayOf(date), hours.start + i))
    ensures hours == DefaultHours ==> |AvailableSlots([], blocked, hours, date)| == 8
  {
    FreeSlotsWithoutBookings(DayOf(date), hours.start, hours.end);
  }

  /** `hasAnyBookingOnDate`: some booking intersects the day span
      00:00:00.000 to 23:59:59.999. */
  predicate HasAnyBookingOnDate(bookings: seq<Booking>, date: int) {
    var dayStart := DayStart(DayOf(date));
    var dayEnd := dayStart + 86_399_999;
    exists i :: 0 <= i < |bookings| && bookings[i].start < dayEnd && bookings[i].end > dayStart
  }

  /** `isFullyBooked`: an open weekday with no free slot and some booking on it. */
  predicate IsFullyBooked(bookings: seq<Booking>, blocked: seq<int>, hours: WorkingHours, date: int) {
    if IsWeekend(date) || IsDateBlocked(blocked, date) then false
    else |AvailableSlots(bookings, blocked, hours, date)| == 0 && HasAnyBookingOnDate(bookings, date)
  }

  /** `hasAvailability`: an open weekday with at least one free slot. */
  predicate HasAvailability(bookings: seq<Booking>, blocked: seq<int>, hours: WorkingHours, date: int) {
    if IsDateBlocked(blocked, date) || IsWeekend(date) then false
    else |AvailableSlots(bookings, blocked, hours, date)| > 0
  }

  /** The blocked/weekend guard of `hasAvailability` is the one of the slot
      list: a day has availability exactly when it has a slot. */
  lemma HasAvailabilityIff(bookings: seq<Booking>, blocked: seq<int>, hours: WorkingHours, date: int)
    ensures HasAvailability(bookings, blocked, hours, date) <==> AvailableSlots(bookings, blocked, hours, date) != []
    ensures HasAvailability(bookings, blocked, hours, date) ==> !IsWeekend(date) && !IsDateBlocked(blocked, date)
  {
  }

  /** A day is never both fully booked and available, and a weekend or a
      blocked day is neither. */
  lemma FullyBookedExcludesAvailable(bookings: seq<Booking>, blocked: seq<int>, hours: WorkingHours, date: int)
    ensures !(IsFullyBooked(bookings, blocked, hours, date) && HasAvailability(bookings, blocked, hours, date))
    ensures IsWeekend(date) || IsDateBlocked(blocked, date) ==>
              !IsFullyBooked(bookings, blocked, hours, date) && !HasAvailability(bookings, blocked, hours, date)
  {
  }

  /** If every working hour of an open weekday is taken, the day is fully
      booked (working hours end before the last hour of the day, whose
      final millisecond the day-span test leaves out). */
  lemma AllHoursTakenIsFullyBooked(bookings: seq<Booking>, blocked: seq<int>, hours: WorkingHours, date: int)
    requires !IsDateBlocked(blocked, date) && !IsWeekend(date)
    requires 0 <= hours.start < hours.end < 24
    requires forall h :: hours.start <= h < hours.end ==>
               IsSlotBooked(bookings, HourStart(DayOf(date), h), HourStart(DayOf(date), h + 1))
    ensures IsFullyBooked(bookings, blocked, hours, date)
  {
    var day := DayOf(date);
    var slots := AvailableSlots(bookings, blocked, hours, date);
    if slots != [] {
      var h :| hours.start <= h < hours.end && slots[0] == HourSlot(day, h);
      assert false;
    }
    assert IsSlotBooked(bookings, HourStart(day, hours.start), HourStart(day, hours.start + 1));
    var i :| 0 <= i < |bookings| &&
             Overlaps(HourStart(day, hours.start), HourStart(day, hours.start + 1), bookings[i]);
    assert DayStart(DayOf(date)) == DayStart(day);
    assert 0 <= hours.start * MsPerHour && (hours.start + 1) * MsPerHour <= 23 * MsPerHour;
  }

  /** `bookSlot`'s checks, first failure wins: a weekend start or end, then
      a conflict with an existing booking. Blocked dates, working hours and
      `end > start` are not checked. */
  function Rejection(bookings: seq<Booking>, start: int, end: int): (r: Option<string>)
    ensures r == Some(WeekendError) <==> IsWeekend(start) || IsWeekend(end)
    ensures r == Some(ConflictError) <==>
              !IsWeekend(start) && !IsWeekend(end) && IsSlotBooked(bookings, start, end)
    ensures r == None <==>
              !IsWeekend(start) && !IsWeekend(end) && !IsSlotBooked(bookings, start, end)
  {
    if IsWeekend(start) || IsWeekend(end) then Some(WeekendError)
    else if IsSlotBooked(bookings, start, end) then Some(ConflictError)
    else None
  }

  /** Appending a booking that passed the conflict check keeps the store
      free of overlaps. */
  lemma AppendKeepsNoOverlap(bookings: seq<Booking>, b: Booking)
    requires NoOverlap(bookings)
    requires !IsSlotBooked(bookings, b.start, b.end)
    ensures NoOverlap(bookings + [b])
  {
    var all := bookings + [b];
    forall i, j | 0 <= i < j < |all|
      ensures !Overlaps(all[j].start, all[j].end, all[i])
    {
      if j == |bookings| {
        assert all[i] == bookings[i];
        assert !Overlaps(b.start, b.end, bookings[i]);
      } else {
        assert all[i] == bookings[i] && all[j] == bookings[j];
      }
    }
  }

  /** The confirmation code: "SOT-" and the last six digits of the clock,
      which read back as the clock modulo a million. */
  function ConfirmationCode(now: nat): (r: string)
    ensures StartsWith(r, CodePrefix)
    ensures 5 <= |r| <= 10 && AllDigits(r[4..])
    ensures DigitsValue(r[4..]) == now % 1_000_000
  {
    var digits := LastChars(DecimalString(now), 6);
    LastDigitsValue(now, 6);
    assert Pow10(6) == 1_000_000;
    assert (CodePrefix + digits)[4..] == digits;
    CodePrefix + digits
  }

  /** `sendConfirmationEmail`, as the messages it asks the bot to queue:
      nothing without consent; otherwise a confirmation now and a reminder
      24 hours before the booking starts, both to the client's address. */
  function ConfirmationEmails(clientInfo: ClientInfo, booking: Booking, code: string, now: int)
    : (r: seq<Notification>)
    ensures !clientInfo.notifyByEmail <==> r == []
    ensures clientInfo.notifyByEmail ==>
              |r| == 2 && r[0].to == clientInfo.email && r[1].to == clientInfo.email &&
              r[0].when == now && r[1].when + 24 * MsPerHour == booking.start &&
              r[0].subject == "Appointment Confirmation - " + code &&
              r[1].subject == "Appointment Reminder (24 hours)"
  {
    if !clientInfo.notifyByEmail then []
    else [Notification(clientInfo.email, "Appointment Confirmation - " + code, now),
          Notification(clientInfo.email, "Appointment Reminder (24 hours)", booking.start - 24 * 60 * 60 * 1000)]
  }

  /** `getBookings`: every booking, in order, as a calendar event titled and
      identified by its title. */
  function CalendarEvents(bookings: seq<Booking>): (r: seq<CalendarEvent>)
    ensures |r| == |bookings|
    ensures forall i :: 0 <= i < |r| ==>
              r[i].resource == bookings[i] && r[i].id == r[i].title == bookings[i].title &&
              r[i].start == bookings[i].start && r[i].end == bookings[i].end
  {
    seq(|bookings|, i requires 0 <= i < |bookings| =>
      CalendarEvent(bookings[i].title, bookings[i].title, bookings[i].start, bookings[i].end, bookings[i]))
  }

  /** The entry the forward scan records for a day: the number of free
      slots and the first three of them. */
  function ScanEntry(bookings: seq<Booking>, blocked: seq<int>, hours: WorkingHours, date: int): (e: DayAvailability)
    ensures e.date == date
    ensures e.availableSlots == |AvailableSlots(bookings, blocked, hours, date)|
    ensures e.slots == AvailableSlots(bookings, blocked, hours, date)[..Min(3, e.availableSlots)]
  {
    var slots := AvailableSlots(bookings, blocked, hours, date);
    DayAvailability(date, |slots|, slots[..Min(3, |slots|)])
  }

  /** The forward scan over the days `today + 1` ... `today + n`, in order. */
  function ScanDays(bookings: seq<Booking>, blocked: seq<int>, hours: WorkingHours, today: int, n: int)
    : (r: seq<DayAvailability>)
    decreases if n < 0 then 0 else n
    ensures |r| <= if n < 0 then 0 else n
    ensures forall k :: 0 <= k < |r| ==> AddDays(today, 1) <= r[k].date <= AddDays(today, n)
    ensures forall a, b :: 0 <= a < b < |r| ==> r[a].date < r[b].date
  {
    if n < 1 then []
    else ScanDays(bookings, blocked, hours, today, n - 1) + ScanDay(bookings, blocked, hours, AddDays(today, n))
  }

  /** What the forward scan collects for one day: an entry when the day is
      an open weekday with free slots, nothing otherwise. */
  function ScanDay(bookings: seq<Booking>, blocked: seq<int>, hours: WorkingHours, date: int): (r: seq<DayAvailability>)
    ensures |r| <= 1
    ensures r != [] <==> HasAvailability(bookings, blocked, hours, date)
    ensures r != [] ==> r[0] == ScanEntry(bookings, blocked, hours, date)
  {
    if HasAvailability(bookings, blocked, hours, date) then [ScanEntry(bookings, blocked, hours, date)] else []
  }

  /** Scanning one more day appends what that day yields. */
  lemma ScanDaysSnoc(bookings: seq<Booking>, blocked: seq<int>, hours: WorkingHours, today: int, n: int)
    requires n >= 1
    ensures ScanDays(bookings, blocked, hours, today, n) ==
            ScanDays(bookings, blocked, hours, today, n - 1) + ScanDay(bookings, blocked, hours, AddDays(today, n))
  {
  }

  /** What a day yields, in terms of its slot list: nothing on a weekend, a
      blocked day or a day with no slot; otherwise the entry built from the
      slots. */
  lemma ScanDayOfSlots(bookings: seq<Booking>, blocked: seq<int>, hours: WorkingHours, date: int)
    ensures var slots := AvailableSlots(bookings, blocked, hours, date);
            ScanDay(bookings, blocked, hours, date) ==
              if IsWeekend(date) || IsDateBlocked(blocked, date) || slots == [] then []
              else [DayAvailability(date, |slots|, slots[..Min(3, |slots|)])]
  {
  }

  /** Each entry of the scan is a day of the scanned range that has
      availability, with its slot count and its first three slots. */
  lemma {:induction false} ScanDaysSound(bookings: seq<Booking>, blocked: seq<int>, hours: WorkingHours, today: int, n: int, k: int)
    requires 0 <= k < |ScanDays(bookings, blocked, hours, today, n)|
    ensures var e := ScanDays(bookings, blocked, hours, today, n)[k];
            HasAvailability(bookings, blocked, hours, e.date) &&
            e == ScanEntry(bookings, blocked, hours, e.date) &&
            exists d :: 1 <= d <= n && e.date == AddDays(today, d)
    decreases if n < 0 then 0 else n
  {
    var r := ScanDays(bookings, blocked, hours, today, n);
    var prefix := ScanDays(bookings, blocked, hours, today, n - 1);
    var date := AddDays(today, n);
    assert n >= 1 && r == prefix + ScanDay(bookings, blocked, hours, date);
    if k < |prefix| {
      ScanDaysSound(bookings, blocked, hours, today, n - 1, k);
      assert r[k] == prefix[k];
      var d :| 1 <= d <= n - 1 && prefix[k].date == AddDays(today, d);
      assert 1 <= d <= n && r[k].date == AddDays(today, d);
    } else {
      assert r[k] == ScanDay(bookings, blocked, hours, date)[0];
      assert 1 <= n <= n && r[k].date == AddDays(today, n);
    }
  }

  /** `getUpcomingAvailableDates(limit)`: `limit` is the number of days
      scanned after today, not a cap on the entries. */
  function UpcomingAvailableDates(bookings: seq<Booking>, blocked: seq<int>, hours: WorkingHours, today: int, limit: int)
    : seq<DayAvailability>
  {
    ScanDays(bookings, blocked, hours, today, limit)
  }

  /** Every scanned day that has availability appears in the scan. */
  lemma ScanDaysComplete(bookings: seq<Booking>, blocked: seq<int>, hours: WorkingHours, today: int,
                         n: int, d: int)
    requires 1 <= d <= n
    requires HasAvailability(bookings, blocked, hours, AddDays(today, d))
    ensures exists k :: 0 <= k < |ScanDays(bookings, blocked, hours, today, n)| &&
              ScanDays(bookings, blocked, hours, today, n)[k].date == AddDays(today, d)
  {
    var k := ScanDaysIndex(bookings, blocked, hours, today, n, d);
  }

  /** Where the day `d` sits in the scan of `n` days. */
  lemma {:induction false} ScanDaysIndex(bookings: seq<Booking>, blocked: seq<int>, hours: WorkingHours, today: int,
                                         n: int, d: int) returns (k: int)
    requires 1 <= d <= n
    requires HasAvailability(bookings, blocked, hours, AddDays(today, d))
    ensures 0 <= k < |ScanDays(bookings, blocked, hours, today, n)|
    ensures ScanDays(bookings, blocked, hours, today, n)[k].date == AddDays(today, d)
    decreases n - d
  {
    if d == n {
      ScanDaysLast(bookings, blocked, hours, today, n);
      k := |ScanDays(bookings, blocked, hours, today, n - 1)|;
    } else {
      k := ScanDaysIndex(bookings, blocked, hours, today, n - 1, d);
      ScanDaysExtends(bookings, blocked, hours, today, n, k);
    }
  }

  /** One more day keeps the earlier entries in place. */
  lemma ScanDaysExtends(bookings: seq<Booking>, blocked: seq<int>, hours: WorkingHours, today: int, n: int, k: int)
    requires 1 <= n && 0 <= k < |ScanDays(bookings, blocked, hours, today, n - 1)|
    ensures k < |ScanDays(bookings, blocked, hours, today, n)|
    ensures ScanDays(bookings, blocked, hours, today, n)[k] == ScanDays(bookings, blocked, hours, today, n - 1)[k]
  {
  }

  /** A last day with availability is the last entry. */
  lemma ScanDaysLast(bookings: seq<Booking>, blocked: seq<int>, hours: WorkingHours, today: int, n: int)
    requires 1 <= n && HasAvailability(bookings, blocked, hours, AddDays(today, n))
    ensures var prefix := ScanDays(bookings, blocked, hours, today, n - 1);
            |prefix| < |ScanDays(bookings, blocked, hours, today, n)| &&
            ScanDays(bookings, blocked, hours, today, n)[|prefix|].date == AddDays(today, n)
  {
  }

  /** `getSuggestedDatesForBot` before rendering: the first three entries
      with the start times of their example slots. */
  function Suggestions(upcoming: seq<DayAvailability>): (r: seq<Suggestion>)
    ensures |r| == Min(3, |upcoming|)
    ensures forall k :: 0 <= k < |r| ==>
              r[k].date == upcoming[k].date && |r[k].times| == |upcoming[k].slots| &&
              forall j :: 0 <= j < |r[k].times| ==> r[k].times[j] == upcoming[k].slots[j].start
  {
    seq(Min(3, |upcoming|), k requires 0 <= k < Min(3, |upcoming|) =>
      Suggestion(upcoming[k].date,
                 seq(|upcoming[k].slots|, j requires 0 <= j < |upcoming[k].slots| => upcoming[k].slots[j].start)))
  }

  /** The booking the store is seeded with: 10:00-11:00 on day `d`. */
  function SampleBooking(d: int): Booking {
    Booking(HourStart(d, 10), HourStart(d, 11), SampleTitle, None)
  }

  /** Days left before a weekday: 2 from a Saturday, 1 from a Sunday. */
  function WeekendDaysLeft(d: int): nat {
    if Weekday(d) == 6 then 2 else if Weekday(d) == 0 then 1 else 0
  }

  /** The store: booked intervals and blocked dates, mutated only by
      `BookSlot` and the seeding. */
  class AvailabilityService {
    var bookedSlots: seq<Booking>
    var blockedDates: seq<int>
    var workingHours: WorkingHours

    /** The singleton's construction: empty store, then seeded. */
    constructor (today: int)
      ensures blockedDates == [] && workingHours == DefaultHours
      ensures |bookedSlots| == 1 && NoOverlap(bookedSlots)
      ensures var d := DayOf(bookedSlots[0].start);
              DayOf(today) < d <= DayOf(today) + 3 && !IsWeekendDay(d) &&
              bookedSlots == [SampleBooking(d)]
    {
      bookedSlots := [];
      blockedDates := [];
      workingHours := DefaultHours;
      new;
      InitializeSampleData(today);
    }

    /** Replaces the bookings by one sample booking on the first weekday
        after today. */
    method InitializeSampleData(today: int)
      modifies this
      ensures blockedDates == old(blockedDates) && workingHours == old(workingHours)
      ensures |bookedSlots| == 1
      ensures var d := DayOf(bookedSlots[0].start);
              DayOf(today) < d <= DayOf(today) + 3 && !IsWeekendDay(d) &&
              (forall e :: DayOf(today) < e < d ==> IsWeekendDay(e)) &&
              bookedSlots == [SampleBooking(d)]
    {
      var tomorrow := AddDays(today, 1);
      DayOfAddDays(today, 1);
      if !IsWeekend(tomorrow) {
        bookedSlots := [SampleBooking(DayOf(tomorrow))];
        DayOfWithin(DayOf(tomorrow), 10 * MsPerHour);
      } else {
        var next := AddDays(tomorrow, 1);
        DayOfAddDays(tomorrow, 1);
        WeekdayNext(DayOf(tomorrow));
        while IsWeekend(next)
          invariant DayOf(today) + 2 <= DayOf(next)
          invariant DayOf(next) - DayOf(today) + WeekendDaysLeft(DayOf(next)) <= 3
          invariant forall e :: DayOf(today) < e < DayOf(next) ==> IsWeekendDay(e)
          invariant blockedDates == old(blockedDates) && workingHours == old(workingHours)
          decreases WeekendDaysLeft(DayOf(next))
        {
          WeekdayNext(DayOf(next));
          DayOfAddDays(next, 1);
          next := AddDays(next, 1);
        }
        bookedSlots := [SampleBooking(DayOf(next))];
        DayOfWithin(DayOf(next), 10 * MsPerHour);
      }
    }

    /** `getAvailableSlots`, filling the list hour by hour. */
    method GetAvailableSlots(date: int) returns (slots: seq<Slot>)
      ensures slots == AvailableSlots(bookedSlots, blockedDates, workingHours, date)
    {
      if IsDateBlocked(blockedDates, date) || IsWeekend(date) {
        return [];
      }
      var day := DayOf(date);
      slots := [];
      var start, end := workingHours.start, workingHours.end;
      if end <= start {
        return [];
      }
      for hour := start to end
        invariant slots + FreeSlotsFrom(bookedSlots, day, hour, end) == FreeSlotsFrom(bookedSlots, day, start, end)
      {
        var slotStart := HourStart(day, hour);
        var slotEnd := HourStart(day, hour + 1);
        ghost var rest := FreeSlotsFrom(bookedSlots, day, hour + 1, end);
        if !IsSlotBooked(bookedSlots, slotStart, slotEnd) {
          assert FreeSlotsFrom(bookedSlots, day, hour, end) == [Slot(slotStart, slotEnd, true)] + rest;
          slots := slots + [Slot(slotStart, slotEnd, true)];
        } else {
          assert FreeSlotsFrom(bookedSlots, day, hour, end) == rest;
        }
      }
    }

    /** `getUpcomingAvailableDates(limit)`, scanning the days after today. */
    method GetUpcomingAvailableDates(today: int, limit: int) returns (result: seq<DayAvailability>)
      ensures result == UpcomingAvailableDates(bookedSlots, blockedDates, workingHours, today, limit)
      ensures |result| <= if limit < 0 then 0 else limit
    {
      result := [];
      var i := 1;
      while i <= limit
        invariant 1 <= i && (limit < 1 ==> i == 1) && (limit >= 1 ==> i <= limit + 1)
        invariant result == ScanDays(bookedSlots, blockedDates, workingHours, today, i - 1)
        decreases limit - i + 1
      {
        var date := AddDays(today, i);
        ScanDaysSnoc(bookedSlots, blockedDates, workingHours, today, i);
        if !IsWeekend(date) && !IsDateBlocked(blockedDates, date) {
          var slots := GetAvailableSlots(date);
          ScanDayOfSlots(bookedSlots, blockedDates, workingHours, date);
          if |slots| > 0 {
            result := result + [DayAvailability(date, |slots|, slots[..Min(3, |slots|)])];
          }
        }
        i := i + 1;
      }
    }

    /** `getSuggestedDatesForBot`: at most three days with free slots among
        the next seven, in date order. */
    method GetSuggestedDatesForBot(today: int) returns (r: seq<Suggestion>)
      ensures r == Suggestions(UpcomingAvailableDates(bookedSlots, blockedDates, workingHours, today, 7))
      ensures |r| <= 3
      ensures forall k :: 0 <= k < |r| ==>
                HasAvailability(bookedSlots, blockedDates, workingHours, r[k].date) &&
                exists n :: 1 <= n <= 7 && r[k].date == AddDays(today, n)
      ensures forall a, b :: 0 <= a < b < |r| ==> r[a].date < r[b].date
    {
      var upcoming := GetUpcomingAvailableDates(today, 7);
      r := Suggestions(upcoming);
      forall k | 0 <= k < |r|
        ensures HasAvailability(bookedSlots, blockedDates, workingHours, r[k].date)
        ensures exists n :: 1 <= n <= 7 && r[k].date == AddDays(today, n)
      {
        ScanDaysSound(bookedSlots, blockedDates, workingHours, today, 7, k);
      }
    }

    /** `bookSlot`: weekend check, then conflict check, then append. A
        rejected request changes nothing; an accepted one appends exactly
        the new booking and returns the code and the bot's messages. The
        code and the send time come from two readings of the clock: `now`
        is the `Date.now()` of the code, `sendAt` the `new Date()` of the
        confirmation. */
    method BookSlot(start: int, end: int, clientInfo: ClientInfo, now: nat, sendAt: int)
      returns (result: BookResult, outbox: seq<Notification>)
      modifies this
      ensures blockedDates == old(blockedDates) && workingHours == old(workingHours)
      ensures result.Rejected? <==> Rejection(old(bookedSlots), start, end).Some?
      ensures result.Rejected? ==>
                result.error == Rejection(old(bookedSlots), start, end).value &&
                bookedSlots == old(bookedSlots) && outbox == []
      ensures result.Booked? ==>
                result.booking == Booking(start, end, TitlePrefix + clientInfo.name, Some(clientInfo)) &&
                bookedSlots == old(bookedSlots) + [result.booking] &&
                result.confirmationCode == ConfirmationCode(now) &&
                outbox == ConfirmationEmails(clientInfo, result.booking, result.confirmationCode, sendAt)
      ensures NoOverlap(old(bookedSlots)) ==> NoOverlap(bookedSlots)
    {
      if IsWeekend(start) || IsWeekend(end) {
        return Rejected(WeekendError), [];
      }
      if IsSlotBooked(bookedSlots, start, end) {
        return Rejected(ConflictError), [];
      }
      var newBooking := Booking(start, end, TitlePrefix + clientInfo.name, Some(clientInfo));
      if NoOverlap(bookedSlots) {
        AppendKeepsNoOverlap(bookedSlots, newBooking);
      }
      bookedSlots := bookedSlots + [newBooking];
      var code := ConfirmationCode(now);
      outbox := ConfirmationEmails(clientInfo, newBooking, code, sendAt);
      result := Booked(newBooking, code);
    }
  }
}
