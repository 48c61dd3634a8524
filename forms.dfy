/** The booking form: the client's details, the chosen slot, the slot list
    of the selected day and the validation errors, with the handlers that
    change them and the submit decision. The details collected are the
    store's `ClientInfo`. */
module Forms {
  import opened Wrappers
  import opened Text
  import opened Availability

  const NameRequired: string := "Name is required"
  const EmailRequired: string := "Email is required"
  const EmailInvalid: string := "Email is invalid"
  const PhoneRequired: string := "Phone number is required"
  const SlotRequired: string := "Please select a time slot"

  /** The keys the validator may set. */
  const ErrorKeys: set<string> := {"name", "email", "phone", "slot"}

  /** The text inputs wired to `handleInputChange`, by their `name`. */
  datatype Field = Name | Email | Phone | Service | Message

  function Key(f: Field): (k: string)
    ensures k in {"name", "email", "phone", "service", "message"}
  {
    match f
    case Name => "name"
    case Email => "email"
    case Phone => "phone"
    case Service => "service"
    case Message => "message"
  }

  /** The form's initial contents: everything empty, emails wanted. */
  const EmptyForm: ClientInfo := ClientInfo("", "", "", "", "", true)

  /** What `onBookingSuccess` receives: the booking result together with
      the form contents, the date and the slot. */
  datatype BookingData = BookingData(
    booking: Booking, confirmationCode: string, clientInfo: ClientInfo,
    selectedDate: Option<int>, selectedSlot: Slot)

  function FieldValue(form: ClientInfo, f: Field): string {
    match f
    case Name => form.name
    case Email => form.email
    case Phone => form.phone
    case Service => form.service
    case Message => form.message
  }

  /** `{ ...prev, [name]: value }`: the named field takes the new value and
      every other field keeps its own. */
  function WithField(form: ClientInfo, f: Field, value: string): (r: ClientInfo)
    ensures FieldValue(r, f) == value
    ensures forall g :: g != f ==> FieldValue(r, g) == FieldValue(form, g)
    ensures r.notifyByEmail == form.notifyByEmail
  {
    match f
    case Name => form.(name := value)
    case Email => form.(email := value)
    case Phone => form.(phone := value)
    case Service => form.(service := value)
    case Message => form.(message := value)
  }

  /** An error is shown for `key` when it is set to a non-empty message. */
  predicate HasError(errors: map<string, string>, key: string) {
    key in errors && errors[key] != ""
  }

  /** The clearing step of `handleInputChange`: an error shown for `key` is
      overwritten with the empty message; otherwise nothing changes. */
  function ClearError(errors: map<string, string>, key: string): (r: map<string, string>)
    ensures !HasError(r, key)
    ensures r.Keys == errors.Keys
    ensures forall k :: k in errors && k != key ==> r[k] == errors[k]
    ensures !HasError(errors, key) ==> r == errors
  {
    if HasError(errors, key) then errors[key := ""] else errors
  }

  /** One match of `\S+@\S+\.\S+` occupying `s[a..e]`, with the `@` at `p`
      and the escaped dot at `q`. */
  predicate RegexMatchAt(s: string, a: int, p: int, q: int, e: int) {
    0 <= a < p && p + 1 < q && q + 1 < e <= |s| &&
    s[p] == '@' && s[q] == '.' &&
    (forall i :: a <= i < p ==> !IsSpace(s[i])) &&
    (forall i :: p < i < q ==> !IsSpace(s[i])) &&
    (forall i :: q < i < e ==> !IsSpace(s[i]))
  }

  /** `/\S+@\S+\.\S+/.test(s)`: the unanchored pattern matches somewhere. */
  predicate RegexTest(s: string) {
    exists a, p, q, e | 0 <= a < p < q < e <= |s| :: RegexMatchAt(s, a, p, q, e)
  }

  /** The shortest form of a match: one non-space before the `@`, only
      non-spaces between the `@` and a later dot, and one non-space after it. */
  predicate EmailShapeAt(s: string, p: int, q: int) {
    0 < p && p + 1 < q && q + 1 < |s| &&
    s[p] == '@' && s[q] == '.' && !IsSpace(s[p - 1]) && !IsSpace(s[q + 1]) &&
    forall i :: p < i < q ==> !IsSpace(s[i])
  }

  predicate LooksLikeEmail(s: string) {
    exists p, q | 0 < p < q < |s| :: EmailShapeAt(s, p, q)
  }

  /** The pattern matches exactly when the string has the shortest shape:
      each `\S+` can be cut down to one character at its outer end. */
  lemma RegexTestIff(s: string)
    ensures RegexTest(s) <==> LooksLikeEmail(s)
  {
    if RegexTest(s) {
      var a, p, q, e :| RegexMatchAt(s, a, p, q, e);
      assert RegexMatchAt(s, a, p, q, e);
      assert EmailShapeAt(s, p, q);
    }
    if LooksLikeEmail(s) {
      var p, q :| EmailShapeAt(s, p, q);
      assert EmailShapeAt(s, p, q);
      assert RegexMatchAt(s, p - 1, p, q, q + 2);
    }
  }

  /** A typical address passes and strings without a dot after the `@`, or
      with a blank inside, do not. */
  lemma EmailExamples()
    ensures LooksLikeEmail("jo@site.io")
    ensures !LooksLikeEmail("jo@site")
    ensures !LooksLikeEmail("jo @site.io")
  {
    assert EmailShapeAt("jo@site.io", 2, 7);
    var s := "jo@site";
    forall p, q ensures !EmailShapeAt(s, p, q) {
      if 0 < p && p + 1 < q && q + 1 < |s| && s[p] == '@' {
        assert q < 6;
      }
    }
    var t := "jo @site.io";
    forall p, q ensures !EmailShapeAt(t, p, q) {
      if 0 < p && p < |t| && t[p] == '@' {
        assert p == 3;
      }
    }
  }

  /** The e-mail rule: "required" when blank, else "invalid" when the
      pattern does not match. */
  function EmailError(email: string): Option<string> {
    if IsBlank(email) then Some(EmailRequired)
    else if !RegexTest(email) then Some(EmailInvalid)
    else None
  }

  /** Records the message of a failed rule under `key`. */
  function Put(errors: map<string, string>, key: string, message: Option<string>): map<string, string> {
    if message.Some? then errors[key := message.value] else errors
  }

  /** The error map `validateForm` builds from the outcome of each rule, in
      its order: name, email, phone, slot. */
  function ErrorsOf(nameBlank: bool, emailError: Option<string>, phoneBlank: bool, slotMissing: bool)
    : (e: map<string, string>)
    ensures ("name" in e <==> nameBlank) && ("name" in e ==> e["name"] == NameRequired)
    ensures ("email" in e <==> emailError.Some?) && ("email" in e ==> e["email"] == emailError.value)
    ensures ("phone" in e <==> phoneBlank) && ("phone" in e ==> e["phone"] == PhoneRequired)
    ensures ("slot" in e <==> slotMissing) && ("slot" in e ==> e["slot"] == SlotRequired)
    ensures e.Keys <= ErrorKeys
  {
    var e1 := Put(map[], "name", if nameBlank then Some(NameRequired) else None);
    var e2 := Put(e1, "email", emailError);
    var e3 := Put(e2, "phone", if phoneBlank then Some(PhoneRequired) else None);
    Put(e3, "slot", if slotMissing then Some(SlotRequired) else None)
  }

  /** The errors `validateForm` produces for a form and a slot choice. */
  function FormErrors(form: ClientInfo, slot: Option<Slot>): map<string, string> {
    ErrorsOf(IsBlank(form.name), EmailError(form.email), IsBlank(form.phone), slot.None?)
  }

  /** The validation rules, field by field: name, phone and slot errors
      exactly when the field is blank or no slot is chosen; at most one email
      error, "required" before "invalid"; no other key. */
  lemma FormErrorsRules(form: ClientInfo, slot: Option<Slot>)
    ensures var e := FormErrors(form, slot);
      ("name" in e <==> IsBlank(form.name)) && ("name" in e ==> e["name"] == NameRequired) &&
      ("email" in e <==> IsBlank(form.email) || !LooksLikeEmail(form.email)) &&
      ("email" in e ==> e["email"] == if IsBlank(form.email) then EmailRequired else EmailInvalid) &&
      ("phone" in e <==> IsBlank(form.phone)) && ("phone" in e ==> e["phone"] == PhoneRequired) &&
      ("slot" in e <==> slot.None?) && ("slot" in e ==> e["slot"] == SlotRequired) &&
      e.Keys <= ErrorKeys
  {
    RegexTestIff(form.email);
  }

  /** The form is accepted exactly when every rule passes. */
  lemma FormErrorsEmptyIff(form: ClientInfo, slot: Option<Slot>)
    ensures FormErrors(form, slot) == map[] <==>
              !IsBlank(form.name) && !IsBlank(form.email) && LooksLikeEmail(form.email) &&
              !IsBlank(form.phone) && slot.Some?
  {
    FormErrorsRules(form, slot);
    var e := FormErrors(form, slot);
    if e != map[] {
      var k :| k in e;
    }
  }

  /** The form component's state. `service` is the shared availability
      store. */
  class BookingForm {
    var formData: ClientInfo
    var selectedSlot: Option<Slot>
    var availableSlots: seq<Slot>
    var isSubmitting: bool
    var errors: map<string, string>
    var selectedDate: Option<int>
    const service: AvailabilityService

    /** Mounting: initial state, then the date effect for the given date. */
    constructor (service: AvailabilityService, selectedDate: Option<int>)
      ensures this.service == service
      ensures formData == EmptyForm && errors == map[] && !isSubmitting
      ensures this.selectedDate == selectedDate && selectedSlot == None
      ensures selectedDate.Some? ==>
                availableSlots == AvailableSlots(service.bookedSlots, service.blockedDates,
                                                 service.workingHours, selectedDate.value)
      ensures selectedDate.None? ==> availableSlots == []
    {
      this.service := service;
      formData := EmptyForm;
      selectedSlot := None;
      availableSlots := [];
      isSubmitting := false;
      errors := map[];
      this.selectedDate := None;
      new;
      SetSelectedDate(selectedDate);
    }

    /** A new `selectedDate` prop and the effect it triggers: with a date,
        the slot list is reloaded from the store and the chosen slot reset. */
    method SetSelectedDate(date: Option<int>)
      modifies this
      ensures selectedDate == date
      ensures date.Some? ==>
                availableSlots == AvailableSlots(service.bookedSlots, service.blockedDates,
                                                 service.workingHours, date.value) &&
                selectedSlot == None
      ensures date.None? ==> availableSlots == old(availableSlots) && selectedSlot == old(selectedSlot)
      ensures formData == old(formData) && errors == old(errors) && isSubmitting == old(isSubmitting)
    {
      selectedDate := date;
      if date.Some? {
        var slots := service.GetAvailableSlots(date.value);
        availableSlots := slots;
        selectedSlot := None;
      }
    }

    /** `handleInputChange`: the named field takes the value; its error, if
        one is shown, is cleared. */
    method HandleInputChange(f: Field, value: string)
      modifies this
      ensures formData == WithField(old(formData), f, value)
      ensures errors == ClearError(old(errors), Key(f))
      ensures selectedSlot == old(selectedSlot) && availableSlots == old(availableSlots)
      ensures selectedDate == old(selectedDate) && isSubmitting == old(isSubmitting)
    {
      formData := WithField(formData, f, value);
      if HasError(errors, Key(f)) {
        errors := errors[Key(f) := ""];
      }
    }

    /** The e-mail consent checkbox. */
    method HandleNotifyChange(checked: bool)
      modifies this
      ensures formData == old(formData).(notifyByEmail := checked)
      ensures errors == old(errors) && selectedSlot == old(selectedSlot)
      ensures availableSlots == old(availableSlots) && selectedDate == old(selectedDate)
      ensures isSubmitting == old(isSubmitting)
    {
      formData := formData.(notifyByEmail := checked);
    }

    /** `handleSlotSelect`. */
    method HandleSlotSelect(slot: Slot)
      modifies this
      ensures selectedSlot == Some(slot)
      ensures formData == old(formData) && errors == old(errors)
      ensures availableSlots == old(availableSlots) && selectedDate == old(selectedDate)
      ensures isSubmitting == old(isSubmitting)
    {
      selectedSlot := Some(slot);
    }

    /** The rules of `validateForm`, applied in order to the current form:
        the error map it builds before storing it. */
    method CollectErrors() returns (newErrors: map<string, string>)
      ensures newErrors == FormErrors(formData, selectedSlot)
    {
      newErrors := map[];
      ghost var nameBlank, phoneBlank := IsBlank(formData.name), IsBlank(formData.phone);
      ghost var emailError := EmailError(formData.email);
      if IsBlank(formData.name) {
        newErrors := newErrors["name" := NameRequired];
      }
      assert newErrors == Put(map[], "name", if nameBlank then Some(NameRequired) else None);
      ghost var e1 := newErrors;
      if IsBlank(formData.email) {
        newErrors := newErrors["email" := EmailRequired];
      } else if !RegexTest(formData.email) {
        newErrors := newErrors["email" := EmailInvalid];
      }
      assert newErrors == Put(e1, "email", emailError);
      ghost var e2 := newErrors;
      if IsBlank(formData.phone) {
        newErrors := newErrors["phone" := PhoneRequired];
      }
      assert newErrors == Put(e2, "phone", if phoneBlank then Some(PhoneRequired) else None);
      if selectedSlot.None? {
        newErrors := newErrors["slot" := SlotRequired];
      }
      assert newErrors == ErrorsOf(nameBlank, emailError, phoneBlank, selectedSlot.None?);
    }

    /** `validateForm`: builds the error map rule by rule, stores it, and
        reports whether it is empty. */
    method ValidateForm() returns (valid: bool)
      modifies this
      ensures errors == FormErrors(formData, selectedSlot)
      ensures valid <==> errors == map[]
      ensures formData == old(formData) && selectedSlot == old(selectedSlot)
      ensures availableSlots == old(availableSlots) && selectedDate == old(selectedDate)
      ensures isSubmitting == old(isSubmitting)
    {
      var newErrors := CollectErrors();
      errors := newErrors;
      valid := |newErrors.Keys| == 0;
      if valid {
        assert errors == map[];
      }
    }

    /** `handleSubmit` without its delay: validation first; only a valid
        form is booked, and `onBookingSuccess` (the returned data) is called
        only when the store accepts the booking. A rejection sets no error.
        `now` and `sendAt` are the two clock readings of `bookSlot`. */
    method HandleSubmit(now: nat, sendAt: int) returns (success: Option<BookingData>, outbox: seq<Notification>)
      modifies this, service
      ensures errors == FormErrors(old(formData), old(selectedSlot))
      ensures formData == old(formData) && selectedSlot == old(selectedSlot)
      ensures selectedDate == old(selectedDate) && availableSlots == old(availableSlots)
      ensures service.blockedDates == old(service.blockedDates)
      ensures service.workingHours == old(service.workingHours)
      ensures errors != map[] ==>
                success == None && outbox == [] && service.bookedSlots == old(service.bookedSlots) &&
                isSubmitting == old(isSubmitting)
      ensures errors == map[] ==> selectedSlot.Some? && !isSubmitting
      ensures errors == map[] ==>
                var slot := selectedSlot.value;
                (success.Some? <==> Rejection(old(service.bookedSlots), slot.start, slot.end).None?) &&
                (success.None? ==> service.bookedSlots == old(service.bookedSlots) && outbox == [])
      ensures success.Some? ==> errors == map[]
      ensures success.Some? ==>
                var b := success.value.booking;
                b == Booking(selectedSlot.value.start, selectedSlot.value.end,
                             TitlePrefix + formData.name, Some(formData)) &&
                service.bookedSlots == old(service.bookedSlots) + [b] &&
                success.value == BookingData(b, ConfirmationCode(now), formData, selectedDate,
                                             selectedSlot.value) &&
                outbox == ConfirmationEmails(formData, b, ConfirmationCode(now), sendAt)
    {
      var valid := ValidateForm();
      if !valid {
        return None, [];
      }
      FormErrorsEmptyIff(formData, selectedSlot);
      isSubmitting := true;
      var slot := selectedSlot.value;
      var result;
      result, outbox := service.BookSlot(slot.start, slot.end, formData, now, sendAt);
      success := None;
      if result.Booked? {
        success := Some(BookingData(result.booking, result.confirmationCode, formData,
                                    selectedDate, slot));
      }
      isSubmitting := false;
    }
  }
}
