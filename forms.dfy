/** The submit handlers of the contact, booking and event forms: a presence
    check on the required fields, a notification, and the submit button's
    loading state while the simulated submission runs. */
module Forms {

  /** The form's fields by name, as `Object.fromEntries(new FormData(form))`
      gives them; a field the form does not send is absent. */
  type FormData = map<string, string>

  /** `data.name` is truthy: the field is present and not the empty string.
      A value of spaces only counts as filled. */
  predicate Filled(data: FormData, name: string) {
    name in data && data[name] != ""
  }

  /** The fields the booking form requires, in the order it checks them. */
  const BookingRequired: seq<string> :=
    ["bookingName", "bookingEmail", "bookingPhone", "bookingService", "bookingDate", "bookingTime"]

  /** The fields the event form requires, in the order it checks them. */
  const EventRequired: seq<string> := ["eventName", "eventEmail", "eventPhone", "eventType"]

  /** Every field of `fields` is filled in `data`. */
  function AllFilled(data: FormData, fields: seq<string>): (ok: bool)
    ensures ok <==> forall i :: 0 <= i < |fields| ==> Filled(data, fields[i])
    ensures ok ==> forall i :: 0 <= i < |fields| ==> fields[i] in data
  {
    if |fields| == 0 then true
    else Filled(data, fields[0]) && AllFilled(data, fields[1..])
  }

  /** The guard of `handleBookingForm`. */
  predicate BookingIncomplete(data: FormData) {
    !Filled(data, "bookingName") || !Filled(data, "bookingEmail") || !Filled(data, "bookingPhone")
    || !Filled(data, "bookingService") || !Filled(data, "bookingDate") || !Filled(data, "bookingTime")
  }

  /** The guard of `handleEventForm`. */
  predicate EventIncomplete(data: FormData) {
    !Filled(data, "eventName") || !Filled(data, "eventEmail") || !Filled(data, "eventPhone")
    || !Filled(data, "eventType")
  }

  /** The booking form is rejected exactly when one of its six required
      fields is missing or empty; no other field matters. */
  lemma BookingIncompleteIff(data: FormData)
    ensures BookingIncomplete(data) <==> !AllFilled(data, BookingRequired)
  {
    var f := BookingRequired;
    assert f[0] == "bookingName" && f[1] == "bookingEmail" && f[2] == "bookingPhone";
    assert f[3] == "bookingService" && f[4] == "bookingDate" && f[5] == "bookingTime";
  }

  /** The event form is rejected exactly when one of its four required
      fields is missing or empty; no other field matters. */
  lemma EventIncompleteIff(data: FormData)
    ensures EventIncomplete(data) <==> !AllFilled(data, EventRequired)
  {
    var f := EventRequired;
    assert f[0] == "eventName" && f[1] == "eventEmail" && f[2] == "eventPhone" && f[3] == "eventType";
  }

  datatype Kind = Success | Error

  /** A message shown by `showNotification`. */
  datatype Notice = Notice(message: string, kind: Kind)

  const MissingFields := Notice("Please fill in all required fields.", Error)
  const ContactSent := Notice("Message sent successfully! Tiana will get back to you soon.", Success)
  const BookingSent := Notice("Booking request submitted! Tiana will contact you to confirm your session.", Success)
  const EventSent := Notice("Event registration successful! You will receive a confirmation email shortly.", Success)

  /** What a submit handler did: rejected the form with a notice, or started
      the submission, remembering the button's original label and the notice
      its timer shows when the submission completes. */
  datatype Submission = Rejected(notice: Notice) | Started(originalText: string, onDone: Notice)

  /** A form's submit button. */
  class SubmitButton {
    var text: string
    var disabled: bool

    constructor (text: string)
      ensures this.text == text && !disabled
    {
      this.text := text;
      disabled := false;
    }

    /** The loading state: a progress label and a disabled button; the
        original label is returned so that `Finish` can restore it. */
    method StartLoading(progressText: string, onDone: Notice) returns (s: Submission)
      modifies this
      ensures s == Started(old(text), onDone) && text == progressText && disabled
    {
      s := Started(text, onDone);
      text := progressText;
      disabled := true;
    }

    /** The submission timer of a started submission fires: the button gets
        its label back and is enabled again, and the form's success notice is
        shown. */
    method Finish(s: Submission) returns (notice: Notice)
      requires s.Started?
      modifies this
      ensures text == s.originalText && !disabled && notice == s.onDone
    {
      text := s.originalText;
      disabled := false;
      notice := s.onDone;
    }
  }

  /** `handleContactForm`: no field is checked; the button shows
      "Sending..." until the submission finishes. */
  method HandleContactForm(data: FormData, button: SubmitButton) returns (s: Submission)
    modifies button
    ensures s == Started(old(button.text), ContactSent) && button.text == "Sending..." && button.disabled
  {
    s := button.StartLoading("Sending...", ContactSent);
  }

  /** `handleBookingForm`: an incomplete form gets the error notice and leaves
      the button alone; a complete one puts the button in "Submitting...". */
  method HandleBookingForm(data: FormData, button: SubmitButton) returns (s: Submission)
    modifies button
    ensures s.Rejected? <==> !AllFilled(data, BookingRequired)
    ensures s.Rejected? ==> s.notice == MissingFields && button.text == old(button.text) && button.disabled == old(button.disabled)
    ensures s.Started? ==>
      s == Started(old(button.text), BookingSent) && button.text == "Submitting..." && button.disabled
  {
    BookingIncompleteIff(data);
    if BookingIncomplete(data) {
      return Rejected(MissingFields);
    }
    s := button.StartLoading("Submitting...", BookingSent);
  }

  /** `handleEventForm`: an incomplete form gets the error notice and leaves
      the button alone; a complete one puts the button in "Registering...". */
  method HandleEventForm(data: FormData, button: SubmitButton) returns (s: Submission)
    modifies button
    ensures s.Rejected? <==> !AllFilled(data, EventRequired)
    ensures s.Rejected? ==> s.notice == MissingFields && button.text == old(button.text) && button.disabled == old(button.disabled)
    ensures s.Started? ==>
      s == Started(old(button.text), EventSent) && button.text == "Registering..." && button.disabled
  {
    EventIncompleteIff(data);
    if EventIncomplete(data) {
      return Rejected(MissingFields);
    }
    s := button.StartLoading("Registering...", EventSent);
  }

  /** A booking whose required fields hold only spaces is accepted: the check
      is for presence, not content. */
  lemma BlankBookingAccepted(data: FormData)
    requires forall i :: 0 <= i < |BookingRequired| ==> BookingRequired[i] in data && data[BookingRequired[i]] == " "
    ensures !BookingIncomplete(data)
  {
    BookingIncompleteIff(data);
  }

  /** The event form ignores booking fields, and the booking form ignores
      event fields: removing the other form's fields changes nothing. */
  lemma FormsIndependent(data: FormData, name: string)
    requires name !in BookingRequired && name !in EventRequired
    ensures BookingIncomplete(data - {name}) == BookingIncomplete(data)
    ensures EventIncomplete(data - {name}) == EventIncomplete(data)
  {
  }
}
