/** The booking page: the calendar, the booking form and the confirmation,
    switched by four pieces of React state that the page's handlers
    overwrite. */
module Pages {
  import opened Wrappers
  import Forms
  import Calendar

  /** The four state variables of the page, as one value. */
  datatype PageState = PageState(
    selectedDate: Option<int>, showBookingForm: bool,
    bookingData: Option<Forms.BookingData>, showConfirmation: bool)

  /** The `useState` initial values: no date, no form, no data, no
      confirmation. */
  const Initial: PageState := PageState(None, false, None, false)

  /** What can happen to the page: the calendar's two callbacks, the form's
      two callbacks and the confirmation's two buttons. */
  datatype PageEvent =
    | DateSelect(start: int)                 // onSelectSlot({ start })
    | DateChange(date: int)                  // onDateChange, that is setSelectedDate
    | BookingSuccess(data: Forms.BookingData) // onBookingSuccess(data)
    | CloseConfirmation                      // the confirmation's onClose
    | NewBooking                             // the confirmation's onNewBooking
    | CloseForm                              // the form's onClose

  /** The booking form is on screen. */
  predicate ShowsForm(s: PageState) {
    s.showBookingForm
  }

  /** The confirmation is on screen: the flag is set and there is data to
      show. */
  predicate ShowsConfirmation(s: PageState) {
    s.showConfirmation && s.bookingData.Some?
  }

  /** The confirmation flag and the booking data are set and cleared
      together. */
  predicate ConfirmationHasData(s: PageState) {
    s.showConfirmation <==> s.bookingData.Some?
  }

  /** The page state after one handler has run. Every handler keeps the
      confirmation flag and the data in step. */
  function Step(s: PageState, e: PageEvent): (r: PageState)
    ensures ConfirmationHasData(s) ==> ConfirmationHasData(r)
  {
    match e
    case DateSelect(start) => s.(selectedDate := Some(start), showBookingForm := true)
    case DateChange(date) => s.(selectedDate := Some(date))
    case BookingSuccess(data) => s.(bookingData := Some(data), showConfirmation := true, showBookingForm := false)
    case CloseConfirmation => s.(showConfirmation := false, bookingData := None, selectedDate := None)
    case NewBooking => PageState(None, false, None, false)
    case CloseForm => s.(showBookingForm := false, selectedDate := None)
  }

  /** The page state after a series of handlers, in order. */
  function Run(s: PageState, es: seq<PageEvent>): PageState
    decreases |es|
  {
    if es == [] then s else Run(Step(s, es[0]), es[1..])
  }

  /** From the initial state, whatever the handlers do, the confirmation is
      shown exactly when its flag is set: the `bookingData &&` guard of the
      render never hides a confirmation whose flag is up. */
  lemma {:induction false} ConfirmationGuard(es: seq<PageEvent>)
    ensures ConfirmationHasData(Run(Initial, es))
    ensures ShowsConfirmation(Run(Initial, es)) <==> Run(Initial, es).showConfirmation
  {
    RunKeepsConfirmationData(Initial, es);
  }

  lemma {:induction false} RunKeepsConfirmationData(s: PageState, es: seq<PageEvent>)
    requires ConfirmationHasData(s)
    ensures ConfirmationHasData(Run(s, es))
    decreases |es|
  {
    if es != [] {
      RunKeepsConfirmationData(Step(s, es[0]), es[1..]);
    }
  }

  /** `handleDateSelect`: the date is the slot's start and the form opens;
      the confirmation state is left alone. */
  lemma DateSelectOpensForm(s: PageState, start: int)
    ensures var r := Step(s, DateSelect(start));
            ShowsForm(r) && r.selectedDate == Some(start) &&
            r.bookingData == s.bookingData && r.showConfirmation == s.showConfirmation
  {
  }

  /** `handleBookingSuccess`: the data is kept, the confirmation shows and
      the form closes; the selected date is left alone. */
  lemma BookingSuccessShowsConfirmation(s: PageState, data: Forms.BookingData)
    ensures var r := Step(s, BookingSuccess(data));
            ShowsConfirmation(r) && !ShowsForm(r) && r.bookingData == Some(data) &&
            r.selectedDate == s.selectedDate
  {
  }

  /** `handleCloseConfirmation`: the confirmation goes, with the data and
      the date, but the form stays as it was. */
  lemma CloseConfirmationKeepsForm(s: PageState)
    ensures var r := Step(s, CloseConfirmation);
            !ShowsConfirmation(r) && r.bookingData.None? && r.selectedDate.None? &&
            r.showBookingForm == s.showBookingForm
  {
  }

  /** `handleNewBooking`: the page is back in its initial state, whatever
      state it was in. */
  lemma NewBookingResets(s: PageState)
    ensures Step(s, NewBooking) == Initial
    ensures !ShowsForm(Step(s, NewBooking)) && !ShowsConfirmation(Step(s, NewBooking))
  {
  }

  /** `handleCloseForm`: the form closes and the date is cleared; the
      confirmation state is left alone. */
  lemma CloseFormKeepsConfirmation(s: PageState)
    ensures var r := Step(s, CloseForm);
            !ShowsForm(r) && r.selectedDate.None? &&
            r.bookingData == s.bookingData && r.showConfirmation == s.showConfirmation
  {
  }

  /** The page's reaction to the calendar: `onDateChange` is
      `setSelectedDate`, `onSelectSlot` is `handleDateSelect`. */
  function CalendarEvent(c: Calendar.CalendarCall): (e: PageEvent)
    ensures e.DateChange? || e.DateSelect?
  {
    match c
    case DateChange(date) => DateChange(date)
    case SelectSlot(start) => DateSelect(start)
  }

  function CalendarEvents(calls: seq<Calendar.CalendarCall>): (es: seq<PageEvent>)
    ensures |es| == |calls| && forall i :: 0 <= i < |calls| ==> es[i] == CalendarEvent(calls[i])
  {
    seq(|calls|, i requires 0 <= i < |calls| => CalendarEvent(calls[i]))
  }

  /** A click on an available weekday opens the form on that day and
      leaves the confirmation state alone. */
  lemma CalendarClickOpensForm(s: PageState, clean: int)
    ensures var r := Run(s, CalendarEvents([Calendar.DateChange(clean), Calendar.SelectSlot(clean)]));
            ShowsForm(r) && r.selectedDate == Some(clean) &&
            r.bookingData == s.bookingData && r.showConfirmation == s.showConfirmation
  {
    var es := CalendarEvents([Calendar.DateChange(clean), Calendar.SelectSlot(clean)]);
    assert es == [DateChange(clean), DateSelect(clean)];
    var s1 := Step(s, DateChange(clean));
    assert Run(s, es) == Run(s1, [DateSelect(clean)]);
    assert Run(s1, [DateSelect(clean)]) == Run(Step(s1, DateSelect(clean)), []);
  }

  /** The handlers do not tie the open form to a date: a date selected
      while the confirmation is up, followed by closing the confirmation,
      leaves the form open with no date. */
  lemma FormWithoutDate(d1: int, d2: int, data: Forms.BookingData)
    ensures var r := Run(Initial, [DateSelect(d1), BookingSuccess(data), DateSelect(d2), CloseConfirmation]);
            ShowsForm(r) && r.selectedDate.None? && !ShowsConfirmation(r)
  {
    var s1 := Step(Initial, DateSelect(d1));
    var s2 := Step(s1, BookingSuccess(data));
    var s3 := Step(s2, DateSelect(d2));
    assert Run(Initial, [DateSelect(d1), BookingSuccess(data), DateSelect(d2), CloseConfirmation]) ==
           Run(s1, [BookingSuccess(data), DateSelect(d2), CloseConfirmation]);
    assert Run(s1, [BookingSuccess(data), DateSelect(d2), CloseConfirmation]) ==
           Run(s2, [DateSelect(d2), CloseConfirmation]);
    assert Run(s2, [DateSelect(d2), CloseConfirmation]) == Run(s3, [CloseConfirmation]);
    assert Run(s3, [CloseConfirmation]) == Run(Step(s3, CloseConfirmation), []);
  }

  /** The `Booking` component: its four state variables and the handlers
      that overwrite them. */
  class BookingPage {
    var selectedDate: Option<int>
    var showBookingForm: bool
    var bookingData: Option<Forms.BookingData>
    var showConfirmation: bool

    function State(): PageState
      reads this
    {
      PageState(selectedDate, showBookingForm, bookingData, showConfirmation)
    }

    constructor ()
      ensures State() == Initial
    {
      selectedDate := None;
      showBookingForm := false;
      bookingData := None;
      showConfirmation := false;
    }

    /** `handleDateSelect`. */
    method HandleDateSelect(start: int)
      modifies this
      ensures State() == Step(old(State()), DateSelect(start))
    {
      selectedDate := Some(start);
      showBookingForm := true;
    }

    /** `setSelectedDate`, handed to the calendar as `onDateChange`. */
    method SetSelectedDate(date: int)
      modifies this
      ensures State() == Step(old(State()), DateChange(date))
    {
      selectedDate := Some(date);
    }

    /** `handleBookingSuccess`. */
    method HandleBookingSuccess(data: Forms.BookingData)
      modifies this
      ensures State() == Step(old(State()), BookingSuccess(data))
    {
      bookingData := Some(data);
      showConfirmation := true;
      showBookingForm := false;
    }

    /** `handleCloseConfirmation`. */
    method HandleCloseConfirmation()
      modifies this
      ensures State() == Step(old(State()), CloseConfirmation)
    {
      showConfirmation := false;
      bookingData := None;
      selectedDate := None;
    }

    /** `handleNewBooking`. */
    method HandleNewBooking()
      modifies this
      ensures State() == Step(old(State()), NewBooking)
    {
      showConfirmation := false;
      bookingData := None;
      selectedDate := None;
      showBookingForm := false;
    }

    /** `handleCloseForm`. */
    method HandleCloseForm()
      modifies this
      ensures State() == Step(old(State()), CloseForm)
    {
      showBookingForm := false;
      selectedDate := None;
    }

    /** One callback from the calendar, sent to the handler the page wired
        it to. */
    method OnCalendarCall(c: Calendar.CalendarCall)
      modifies this
      ensures State() == Step(old(State()), CalendarEvent(c))
    {
      match c
      case DateChange(date) => SetSelectedDate(date);
      case SelectSlot(start) => HandleDateSelect(start);
    }

    /** What the page renders besides the calendar: the form and the
        confirmation, by the two guards of its markup. */
    method Render() returns (form: bool, confirmation: bool)
      ensures form == ShowsForm(State()) && confirmation == ShowsConfirmation(State())
    {
      form := showBookingForm;
      confirmation := showConfirmation && bookingData.Some?;
    }
  }
}
