# SOT Agency booking: a verified model

This project models the booking core of the SOT Agency web site in Dafny.

- **The availability store.** It holds the booked intervals, the blocked dates and the working hours (9 to 17). It computes a day's free hourly slots, scans the coming days for availability and turns that into suggestions for the chat assistant. It books a slot after a weekend check and a conflict check, and it returns the confirmation and reminder messages the booking asks its bot to send.
- **The booking form.** Its state is the client's details, the chosen slot, the slot list and the validation errors. It validates the details rule by rule and submits the booking to the store.
- **The chat assistant.** It sorts a message into an intent with the site's seven regular-expression tests. It answers with canned text; a booking answer quotes the days the store has free. It appends a follow-up when the user says yes or no. It can also read busy days from an iCalendar feed.
- **The month calendar.** It lays out the month grid: blank cells before day 1, the days of the month, then blank cells after. It gives each day its CSS classes, forwards a click on an available weekday to the page, and moves between months.
- **The booking page.** Four state variables decide whether the booking form and the confirmation are on screen. Five handlers overwrite them.

The model follows the shape of the code.

- **Pure functions become Dafny functions.** Examples are the slot list, the intent matcher, the error map and the day's classes.
- **State becomes classes.** Every component or object whose state the code overwrites becomes a class with `modifies` clauses: `AvailabilityService`, `BookingForm`, `ChatAgent`, `SimpleCalendar` and `BookingPage`.
- **Loops become `while` and `for` methods.** The slot loop, the day scan, the ICS reader and the three `push` loops of the grid are each proved equal to the function that specifies them.

Timestamps are integers: milliseconds of local time, with day 0 being 1970-01-01 (a Thursday). Weekdays are numbered like `getDay()`, with 0 for Sunday. The current time, today's date and the build-time settings (`VITE_CALENDLY_URL`, `VITE_ICS_FEED_URL`, `VITE_PHONE`) are parameters.

Files:

- `wrappers.dfy`: `Option` and `Result`.
- `time.dfy`: days, hours, `addDays`, `isWeekend`, `isSameDay`.
- `text.dfy`: the JavaScript string operations the code uses.
- `availability.dfy`: the store.
- `forms.dfy`: the booking form.
- `chat.dfy`: the assistant.
- `simple_calendar.dfy`: the month calendar.
- `booking_page.dfy`: the page.

Design notes on the code, which the model follows:

- `bookSlot` checks only weekends and conflicts. It does not reject blocked dates. Its errors are the two message strings.
- `getUpcomingAvailableDates(limit)` scans `limit` days. It does not stop after `limit` entries.
- The confirmation code is taken from the clock. `bookSlot` reads the clock twice, once for the code (`Date.now()`) and once for the send time of the confirmation (`new Date()`); both readings are parameters.
- There is no single day-status operation. The calendar combines `isWeekend`, `isFullyBooked` and `hasAvailability`.

## Model

| member | source | states |
|---|---|---|
| Availability.IsDateBlocked | src/services/availabilityService.js:93-97 | no contract of its own: some blocked date falls on the same day; `AvailableSlots` and `HasAvailabilityIff` state that such a day offers nothing |
| Availability.IsSlotBooked | src/services/availabilityService.js:106-110 | no contract of its own: some booking overlaps the interval strictly; see `SlotOfferedIff`, `IsSlotBookedAppend`, `TouchingBookingKeepsSlot` and `Rejection` |
| Availability.IsWeekday | src/services/availabilityService.js:100-103 | `isWeekday` holds exactly on the days that are not a Saturday or a Sunday |
| Availability.FreeSlotsFrom | src/services/availabilityService.js:75-87 | the hours of the loop that no booking overlaps: each is a working hour of the day, none conflicts with a booking, they come in increasing order |
| Availability.AvailableSlots | src/services/availabilityService.js:62-90 | nothing on a blocked day or a weekend; otherwise at most `end - start` slots, each a whole working hour of that day free of every booking, in strictly increasing order |
| Availability.FreeSlotsFromMembership | src/services/availabilityService.js:75-87 | the slot of an hour is pushed exactly when `isSlotBooked` is false for it |
| Availability.SlotOfferedIff | src/services/availabilityService.js:106-110 | on an open weekday, an hour's slot is offered exactly when no booking `b` has `slotStart < b.end && slotEnd > b.start` |
| Availability.IsSlotBookedAppend | src/services/availabilityService.js:106-110 | after a booking is added, an interval conflicts exactly when it conflicted before or overlaps the new booking |
| Availability.TouchingBookingKeepsSlot | src/services/availabilityService.js:106-110 | a booking that only touches a slot at an endpoint does not take it |
| Availability.EmptyWeekdayHasAllSlots | src/services/availabilityService.js:71-89 | with no bookings, an open weekday offers every working hour in order; the default hours give 8 slots |
| Availability.HasAnyBookingOnDate | src/services/availabilityService.js:214-219 | no contract of its own: some booking meets the day from 00:00:00.000 to 23:59:59.999; see `AllHoursTakenIsFullyBooked` |
| Availability.IsFullyBooked | src/services/availabilityService.js:222-226 | no contract of its own: an open weekday with no slot and some booking; see `FullyBookedExcludesAvailable` and `AllHoursTakenIsFullyBooked` |
| Availability.HasAvailability | src/services/availabilityService.js:229-240 | no contract of its own: an open weekday with a slot; see `HasAvailabilityIff` and `FullyBookedExcludesAvailable` |
| Availability.HasAvailabilityIff | src/services/availabilityService.js:229-240 | `hasAvailability` holds exactly when the slot list is non-empty, and never on a weekend or a blocked day |
| Availability.FullyBookedExcludesAvailable | src/services/availabilityService.js:222-240 | no day is both fully booked and available; a weekend or blocked day is neither |
| Availability.AllHoursTakenIsFullyBooked | src/services/availabilityService.js:214-226 | an open weekday whose working hours are all booked is fully booked |
| Availability.Rejection | src/services/availabilityService.js:149-158 | the weekend error exactly when start or end is on a weekend; else the conflict error exactly when the interval is booked; else no error |
| Availability.AppendKeepsNoOverlap | src/services/availabilityService.js:156-167 | appending a booking that passed the conflict check keeps the bookings pairwise non-overlapping |
| Availability.ConfirmationCode | src/services/availabilityService.js:169 | the code starts with "SOT-", followed by 1 to 6 decimal digits that read back as the clock modulo 1 000 000 |
| Availability.ConfirmationEmails | src/services/availabilityService.js:182-200 | no message without consent; with it, the confirmation now and the reminder 24 hours before the start, both to the client, with their subjects |
| Availability.CalendarEvents | src/services/availabilityService.js:203-211 | one event per booking, in order, with id and title the booking's title, its start and end, and the booking as resource |
| Availability.ScanEntry | src/services/availabilityService.js:124-128 | an entry holds the day, its slot count and its first three slots |
| Availability.ScanDay | src/services/availabilityService.js:120-130 | a day yields an entry exactly when it has availability |
| Availability.ScanDays | src/services/availabilityService.js:117-131 | at most one entry per scanned day, inside the scanned range, in strictly increasing date order |
| Availability.ScanDaysSound | src/services/availabilityService.js:113-134 | every entry is a scanned day with availability, with its slot count and first three slots |
| Availability.UpcomingAvailableDates | src/services/availabilityService.js:113-134 | no contract of its own: the scan of `limit` days; see `ScanDays`, `ScanDaysSound` and `ScanDaysComplete` |
| Availability.ScanDaysComplete | src/services/availabilityService.js:113-134 | every scanned day with availability has an entry |
| Availability.Suggestions | src/services/availabilityService.js:137-146 | the first three entries, each with the start times of its example slots |
| Availability.AvailabilityService.constructor | src/services/availabilityService.js:25-28 | a fresh store has no blocked dates, the default hours and one 10:00-11:00 sample booking on a weekday 1 to 3 days after today |
| Availability.AvailabilityService.InitializeSampleData | src/services/availabilityService.js:31-59 | the bookings become one 10:00-11:00 booking on the first weekday after today, 1 to 3 days ahead, with only weekend days skipped |
| Availability.AvailabilityService.GetAvailableSlots | src/services/availabilityService.js:62-90 | the loop returns exactly `AvailableSlots` for the store |
| Availability.AvailabilityService.GetUpcomingAvailableDates | src/services/availabilityService.js:113-134 | the loop returns exactly the scan of the next `limit` days, so at most `limit` entries |
| Availability.AvailabilityService.GetSuggestedDatesForBot | src/services/availabilityService.js:137-146 | at most three days among the next seven, each with availability, in date order |
| Availability.AvailabilityService.BookSlot | src/services/availabilityService.js:149-179 | rejected exactly when `Rejection` gives an error, changing nothing; otherwise appends exactly the new booking, keeps bookings non-overlapping, returns the code of the first clock reading and the bot's messages sent at the second |
| Forms.WithField | src/components/BookingForm.jsx:30-36 | the named field takes the value and every other field keeps its own |
| Forms.ClearError | src/components/BookingForm.jsx:37-43 | a shown error for the field is overwritten with the empty message; the other keys are kept and an unshown error changes nothing |
| Forms.RegexTestIff | src/components/BookingForm.jsx:61 | `/\S+@\S+\.\S+/` matches exactly when the string has a non-space, an `@`, non-spaces, a dot and a non-space |
| Forms.EmailExamples | src/components/BookingForm.jsx:61 | "jo@site.io" passes; "jo@site" and "jo @site.io" fail |
| Forms.ErrorsOf | src/components/BookingForm.jsx:52-72 | each key is set exactly when its rule fails, with that rule's message, and no other key is set |
| Forms.FormErrors | src/components/BookingForm.jsx:52-72 | no contract of its own: the error map of the four rules; see `FormErrorsRules`, `FormErrorsEmptyIff` and `BookingForm.CollectErrors` |
| Forms.FormErrorsRules | src/components/BookingForm.jsx:52-72 | name, phone and slot errors exactly when blank or missing; the email error is "required" when blank, else "invalid" when the pattern fails |
| Forms.FormErrorsEmptyIff | src/components/BookingForm.jsx:52-75 | the form validates exactly when name, email and phone are not blank, the email matches and a slot is chosen |
| Forms.BookingForm.constructor | src/components/BookingForm.jsx:6-27 | initial state, then the slots of the given date loaded from the store |
| Forms.BookingForm.SetSelectedDate | src/components/BookingForm.jsx:21-27 | a date reloads the slots and resets the chosen slot; no date leaves them |
| Forms.BookingForm.HandleInputChange | src/components/BookingForm.jsx:30-44 | the field is updated and its error cleared; nothing else changes |
| Forms.BookingForm.HandleNotifyChange | src/components/BookingForm.jsx:211 | only the consent flag changes |
| Forms.BookingForm.HandleSlotSelect | src/components/BookingForm.jsx:47-49 | only the chosen slot changes |
| Forms.BookingForm.CollectErrors | src/components/BookingForm.jsx:52-72 | the rules applied in order build exactly `FormErrors` of the form |
| Forms.BookingForm.ValidateForm | src/components/BookingForm.jsx:52-75 | stores `FormErrors` and returns true exactly when it is empty |
| Forms.BookingForm.HandleSubmit | src/components/BookingForm.jsx:78-112 | an invalid form books nothing; a valid one calls `bookSlot` with the chosen slot, and success data exists exactly when the store accepts |
| Assistant.FirstMatch | src/components/ChatAgent.jsx:9-16 | the intent of the first matching test from a position, or fallback exactly when none matches |
| Assistant.MatchIntent | src/components/ChatAgent.jsx:7-17 | fallback exactly when no test matches the lowercased text; otherwise the intent of the first test that matches |
| Assistant.MatchIntentIgnoresCase | src/components/ChatAgent.jsx:8 | a message and its lowercase form get the same intent |
| Assistant.EarlierRuleWins | src/components/ChatAgent.jsx:9-10 | "book this" is a greeting, because "this" contains "hi" |
| Assistant.PhoneNumber | src/components/ChatAgent.jsx:21 | the shown number has no white space and is the configured one when that has none |
| Assistant.DefaultPhoneShown | src/components/ChatAgent.jsx:21 | with no configured number the default one is shown |
| Assistant.PhoneNumberGroups | src/components/ChatAgent.jsx:21 | a configured number written as three groups separated by spaces is shown with the groups run together |
| Assistant.GetReply | src/components/ChatAgent.jsx:19-47 | no contract of its own: the canned text of each intent; see `BookingReplyOrder`, `CallReplyShowsPhone` and `FixedReplies` |
| Assistant.BookingReplyOrder | src/components/ChatAgent.jsx:26-33 | suggested times win over the booking link, which wins over the default text, and the reply quotes what it chose |
| Assistant.CallReplyShowsPhone | src/components/ChatAgent.jsx:34-35 | the call reply opens with the phone number and contains it |
| Assistant.FixedReplies | src/components/ChatAgent.jsx:23-46 | replies other than booking and call do not depend on the settings or the suggestions |
| Assistant.SuggestedDatesText | src/components/ChatAgent.jsx:120 | empty exactly when there is no suggestion |
| Assistant.FollowUp | src/components/ChatAgent.jsx:124-128 | the yes follow-up exactly when a yes-word occurs; the no follow-up exactly when only a no-word does; none otherwise |
| Assistant.WordNeedsBoundary | src/components/ChatAgent.jsx:126 | "No thanks" has the word "no" and "nobody" does not |
| Assistant.Exchange | src/components/ChatAgent.jsx:116-128 | the user's message with the first clock reading as id, the reply with the second reading plus one, and the follow-up when there is one with the third reading plus two; the ids increase whenever the clock does not run backwards |
| Assistant.SecondField | src/components/ChatAgent.jsx:73-74 | no contract of its own: `split(':')[1]`; `SecondFieldAt` states what it returns |
| Assistant.SecondFieldAt | src/components/ChatAgent.jsx:73-74 | nothing exactly when there is no colon; otherwise the value is the text right after the first colon, contains no colon, and runs to the next colon or to the end of the line |
| Assistant.DayKey | src/components/ChatAgent.jsx:76-79 | `yyyy-mm-dd` from the first eight characters |
| Assistant.Step | src/components/ChatAgent.jsx:71-82 | BEGIN:VEVENT opens an empty event; DTSTART or DTEND with an open event sets its start or end to the line's second field, and with none fails; END:VEVENT of an event with a start adds its day and closes it; other lines change nothing; the busy days never shrink |
| Assistant.SplitLines | src/components/ChatAgent.jsx:68 | at least one piece, none containing a line break |
| Assistant.SplitLinesRoundTrip | src/components/ChatAgent.jsx:68 | without carriage returns, joining the pieces with line breaks gives back the text |
| Assistant.JoinSplitRoundTrip | src/components/ChatAgent.jsx:68 | lines without line breaks, joined with `\n` or `\r\n`, split back into the same lines (for `\n`, when no line but the last ends in a carriage return) |
| Assistant.IndexOfFirst | src/components/ChatAgent.jsx:73 | `indexOf` finds nothing exactly when the character is absent, and otherwise no earlier position holds it |
| Assistant.ScanDaysGrow | src/components/ChatAgent.jsx:67-84 | a read that succeeds succeeded on every prefix, with no more busy days |
| Assistant.DayKept | src/components/ChatAgent.jsx:67-84 | a day collected on a prefix of a read that succeeds is in its result |
| Assistant.EventStarted | src/components/ChatAgent.jsx:71-74 | after a BEGIN:VEVENT and a DTSTART with no BEGIN:VEVENT, DTSTART or END:VEVENT between, the open event starts at the DTSTART value |
| Assistant.EventClosed | src/components/ChatAgent.jsx:74-81 | an event open with a non-empty start, closed by the next END:VEVENT with no BEGIN:VEVENT or DTSTART between, has its day among the busy days once that line is read |
| Assistant.ScanComplete | src/components/ChatAgent.jsx:67-84 | every BEGIN:VEVENT, DTSTART with a non-empty value, END:VEVENT run of a successful read puts that start's day among the busy days |
| Assistant.Scan | src/components/ChatAgent.jsx:67-84 | no contract of its own: `Step` over the lines from no days and no open event, stopping at the first failure; see `ScanSound`, `ScanComplete`, `ScanErrPersists`, `ScanSkipsOtherLines` |
| Assistant.IcsBusyDates | src/components/ChatAgent.jsx:67-84 | no contract of its own: the busy days of `Scan` of the split text, or the failure; see `ChatAgent.ParseIcsBusyDates` and `ChatAgent.ApplyIcsText` |
| Assistant.ScanSound | src/components/ChatAgent.jsx:67-84 | every busy day comes from a non-empty DTSTART value of the feed |
| Assistant.ScanSkipsOtherLines | src/components/ChatAgent.jsx:71-82 | lines with none of the four prefixes change nothing |
| Assistant.ScanErrPersists | src/components/ChatAgent.jsx:71-82 | a failed read stays failed |
| Assistant.NullEventFails | src/components/ChatAgent.jsx:70-74 | a DTSTART or DTEND line before any BEGIN:VEVENT fails the read |
| Assistant.NoEventBeforeBegin | src/components/ChatAgent.jsx:70-72 | no event is open before the first BEGIN:VEVENT |
| Assistant.ChatAgent.constructor | src/components/ChatAgent.jsx:51-64 | closed, empty input, no busy days, the welcome message |
| Assistant.ChatAgent.Toggle | src/components/ChatAgent.jsx:135 | flips the panel and nothing else |
| Assistant.ChatAgent.Close | src/components/ChatAgent.jsx:142 | closes the panel and nothing else |
| Assistant.ChatAgent.SetInput | src/components/ChatAgent.jsx:162 | sets the input and nothing else |
| Assistant.ChatAgent.ParseIcsBusyDates | src/components/ChatAgent.jsx:67-84 | the line loop returns exactly the reader's result |
| Assistant.ChatAgent.ApplyIcsText | src/components/ChatAgent.jsx:86-96 | no feed URL, empty text or a failed read keeps the busy days; otherwise they are replaced by the read's days |
| Assistant.ChatAgent.Answer | src/components/ChatAgent.jsx:117-121 | the reply to the message's intent, with the store's suggestions for the next seven days |
| Assistant.ChatAgent.Post | src/components/ChatAgent.jsx:129-130 | appends the items and empties the input |
| Assistant.ChatAgent.SendMessage | src/components/ChatAgent.jsx:111-131 | blank input changes nothing; otherwise the exchange for the trimmed text is appended and the input cleared |
| Calendar.DaysInMonth | src/components/SimpleCalendar.jsx:10 | 28 to 31 days; 28 exactly for February of a common year |
| Calendar.DayNumberExamples | src/components/SimpleCalendar.jsx:16 | 1970-01-01 is day 0, a Thursday; 2024-01-01 is day 19723, a Monday |
| Calendar.ShiftMonth | src/components/SimpleCalendar.jsx:33-39 | day 1 of the month `delta` months away, with the year carried |
| Calendar.NextThenPrevious | src/components/SimpleCalendar.jsx:33-39 | next then previous, or previous then next, returns to day 1 of the month; December moves to January of the next year and back |
| Calendar.MonthLength | src/components/SimpleCalendar.jsx:10 | the 1st of the next month comes `DaysInMonth` days after the 1st of this one |
| Calendar.LeapDay | src/components/SimpleCalendar.jsx:10 | March 1st follows February 28th, or the 29th in a leap year |
| Calendar.LeadingBlanks | src/components/SimpleCalendar.jsx:16 | between 0 and 6 blanks |
| Calendar.MonthDays | src/components/SimpleCalendar.jsx:9-13 | one midnight per day of the month, on consecutive days from the 1st |
| Calendar.TrailingBlanks | src/components/SimpleCalendar.jsx:20 | between 0 and 6 blanks, completing a multiple of 7 |
| Calendar.Grid | src/components/SimpleCalendar.jsx:15-21 | no contract of its own: leading blanks, the days, trailing blanks; see `GridShape`, `GridColumns`, `GridDayCount` and `SimpleCalendar.Cells` |
| Calendar.GridShape | src/components/SimpleCalendar.jsx:15-21 | whole weeks: `leadingBlanks` blanks, every day of the month in order, 0 to 6 blanks; the last day is followed by the next month's 1st |
| Calendar.GridColumns | src/components/SimpleCalendar.jsx:15-16 | each day sits in the column of its weekday, Sunday first |
| Calendar.GridDayCount | src/components/SimpleCalendar.jsx:17-21 | the grid has as many day cells as the month has days |
| Calendar.FlagClasses | src/components/SimpleCalendar.jsx:42-55 | `calendar-day` first and once, then `today` and `selected` exactly when they apply |
| Calendar.StatusClasses | src/components/SimpleCalendar.jsx:57-67 | `weekend` exactly on weekends; `available` exactly on weekdays; `unavailable` exactly on fully booked weekdays |
| Calendar.DayClassesRules | src/components/SimpleCalendar.jsx:41-70 | a class is in the list exactly when its condition holds, with `calendar-day` first and once |
| Calendar.CellClasses | src/components/SimpleCalendar.jsx:41-70 | no contract of its own: the classes of a cell from its day, today and the selection; see `CellClassRules` and `SimpleCalendar.GetDayClass` |
| Calendar.CellClassRules | src/components/SimpleCalendar.jsx:41-70 | for a cell: `today` exactly on the current day; `selected` exactly on the selected day; `weekend` exactly on Saturdays and Sundays; `available` on every weekday; `unavailable` exactly when a weekday is fully booked |
| Calendar.ClassAttributeRoundTrip | src/components/SimpleCalendar.jsx:42-67 | splitting the built attribute at spaces gives back the class names, so a class is read exactly when it was added |
| Calendar.SimpleCalendar.constructor | src/components/SimpleCalendar.jsx:7 | the calendar opens on the given month |
| Calendar.SimpleCalendar.Cells | src/components/SimpleCalendar.jsx:15-21 | the three `push` loops build exactly `Grid` of the current month |
| Calendar.SimpleCalendar.HandleDateClick | src/components/SimpleCalendar.jsx:23-31 | callbacks exactly for an available weekday: `onDateChange` then `onSelectSlot`, both with that day's midnight |
| Calendar.SimpleCalendar.GoToPreviousMonth | src/components/SimpleCalendar.jsx:33-35 | the month before, on day 1 |
| Calendar.SimpleCalendar.GoToNextMonth | src/components/SimpleCalendar.jsx:37-39 | the month after, on day 1 |
| Calendar.SimpleCalendar.GetDayClass | src/components/SimpleCalendar.jsx:41-70 | the attribute is the cell's classes joined by spaces |
| Calendar.FlagAttribute | src/components/SimpleCalendar.jsx:42-55 | the attribute after the `today` and `selected` steps spells `FlagClasses` |
| Calendar.StatusAttribute | src/components/SimpleCalendar.jsx:57-67 | the weekend/available/unavailable steps append `StatusClasses` |
| Calendar.Append | src/components/SimpleCalendar.jsx:50 | `className += ' ' + name` appends one class to the spelled list |
| Pages.Step | src/pages/Booking.jsx:14-41 | every handler keeps the confirmation flag and the booking data set and cleared together |
| Pages.RunKeepsConfirmationData | src/pages/Booking.jsx:14-41 | any sequence of handlers keeps the flag and the data together |
| Pages.ConfirmationGuard | src/pages/Booking.jsx:74 | from the initial state, the confirmation is rendered exactly when its flag is set |
| Pages.DateSelectOpensForm | src/pages/Booking.jsx:14-17 | the date becomes the slot's start and the form opens; the confirmation state is unchanged |
| Pages.BookingSuccessShowsConfirmation | src/pages/Booking.jsx:19-23 | the data is stored, the confirmation shows and the form closes; the date is unchanged |
| Pages.CloseConfirmationKeepsForm | src/pages/Booking.jsx:25-29 | the confirmation, the data and the date are cleared; the form flag is unchanged |
| Pages.NewBookingResets | src/pages/Booking.jsx:31-36 | from any state, back to the initial values of lines 9-12 |
| Pages.CloseFormKeepsConfirmation | src/pages/Booking.jsx:38-41 | the form closes and the date is cleared; the confirmation state is unchanged |
| Pages.CalendarEvent | src/pages/Booking.jsx:56-60 | the calendar's callbacks are wired to `setSelectedDate` and `handleDateSelect` |
| Pages.CalendarClickOpensForm | src/pages/Booking.jsx:56-60 | a click on an available day opens the form on that day and leaves the confirmation alone |
| Pages.FormWithoutDate | src/pages/Booking.jsx:14-41 | select, book, select again, close the confirmation: the form is open with no date |
| Pages.BookingPage.constructor | src/pages/Booking.jsx:9-12 | the initial state |
| Pages.BookingPage.HandleDateSelect | src/pages/Booking.jsx:14-17 | the page state moves by one `DateSelect` step |
| Pages.BookingPage.SetSelectedDate | src/pages/Booking.jsx:59 | the page state moves by one `DateChange` step |
| Pages.BookingPage.HandleBookingSuccess | src/pages/Booking.jsx:19-23 | the page state moves by one `BookingSuccess` step |
| Pages.BookingPage.HandleCloseConfirmation | src/pages/Booking.jsx:25-29 | the page state moves by one `CloseConfirmation` step |
| Pages.BookingPage.HandleNewBooking | src/pages/Booking.jsx:31-36 | the page state moves by one `NewBooking` step |
| Pages.BookingPage.HandleCloseForm | src/pages/Booking.jsx:38-41 | the page state moves by one `CloseForm` step |
| Pages.BookingPage.OnCalendarCall | src/pages/Booking.jsx:56-60 | a calendar callback moves the state by the step it is wired to |
| Pages.BookingPage.Render | src/pages/Booking.jsx:63-80 | the form is rendered exactly when its flag is set; the confirmation exactly when its flag and data are |
| Text.Trim | src/components/ChatAgent.jsx:113 | the result is no longer than the input, and neither starts nor ends with white space |
| Text.TrimInfix | src/components/ChatAgent.jsx:113 | `trim` keeps an infix and cuts only white space on either side |
| Text.TrimEmptyIff | src/components/BookingForm.jsx:55 | a string trims to nothing exactly when it is all white space |
| Text.ToLower | src/components/ChatAgent.jsx:8 | same length, no upper-case ASCII letter left, and every character either kept or an upper-case letter lowered |
| Text.RemoveSpaces | src/components/ChatAgent.jsx:21 | no white space is left, a string without any is unchanged, and a single character is dropped exactly when it is white space |
| Text.RemoveSpacesAppend | src/components/ChatAgent.jsx:21 | removing white space from two strings joined is joining the two results |
| Text.RemoveSpacesGroups | src/components/ChatAgent.jsx:21 | groups without white space separated by single spaces are run together |
| Text.Substring | src/components/ChatAgent.jsx:76-78 | for `from <= to`, the length is the distance between the clamped ends, and within the string it is the slice `from..to` |
| Text.DecimalRoundTrip | src/services/availabilityService.js:169 | reading back the decimal rendering of a number gives the number |
| Text.LastChars | src/services/availabilityService.js:169 | `slice(-k)` keeps the last `k` characters, or all of a shorter string |
| Text.LastDigitsValue | src/services/availabilityService.js:169 | the last `k` characters of `n.toString()` are digits that read back as `n % 10^k` |
| Time.DayOfAddDays | src/services/availabilityService.js:118 | `addDays(t, n)` falls `n` days after `t` |

## Left out

- Date formatting (`'MMM dd'`, `'HH:mm'`, `'MMMM yyyy'`, `'d'`): the assistant's date and time labels are parameters, and the other formats are display only.
- Time zones and daylight saving: local time is one fixed offset.
- `fetch` of the ICS feed, `console.log`, `setTimeout` (the booking delay), `scrollIntoView` and the rest of the markup: I/O or presentation. The ICS text is a parameter of `ApplyIcsText`.
- Concurrency: React runs the handlers one at a time, and the model does too.
- The submit `catch`: no step of the modelled submit throws, so the "Failed to book appointment" error is not produced.
- The working hours' `days` field: it is declared but no operation reads it.
- `BookingConfirmation`, `Calendar`, `Layout` and the static pages are not part of this model.
- Text.ToLower: only ASCII letters are lowercased, not the full Unicode case mapping of `toLowerCase`.
- Text.Substring: it requires `from <= to`; the argument swap of `substring` is not modelled, because the only callers pass constant ranges.
- Calendar.SimpleCalendar.constructor: it takes the current month as a date, in place of reading `new Date()`.
- Assistant.CallReplyShowsPhone: it does not state that the reply ends with the `tel:` link.
- Strings: a Dafny `char` is a Unicode scalar value while a JavaScript string is a sequence of UTF-16 code units, so `substring`, `slice(-6)`, `trim` and the lengths differ from the browser's on text outside the Basic Multilingual Plane; all the constants and the digits involved lie inside it.
- Pages.FormWithoutDate: the trace needs a calendar click while the confirmation overlay is up; whether the overlay lets that click through depends on CSS that is not part of this model.
