/** The contact form (src/components/sections/Contact.tsx): its three
    fields, the payload sent to the form-relay service, the outcome of a
    submission and the busy flag that disables the submit button. */
module ContactSection {
  import opened Wrappers

  /** The three form fields. */
  datatype FormData = FormData(name: string, email: string, message: string)

  const EmptyForm := FormData("", "", "")

  /** The input names of the three fields. */
  const NameField: string := "name"
  const EmailField: string := "email"
  const MessageField: string := "message"

  /** The value of the field an input is named after; `None` for a name that
      is not one of the three. */
  function Get(f: FormData, field: string): Option<string>
  {
    if field == NameField then Some(f.name)
    else if field == EmailField then Some(f.email)
    else if field == MessageField then Some(f.message)
    else None
  }

  /** `handleChange`: the field named by the event takes the new value and
      every other field keeps its value. */
  function WithField(f: FormData, field: string, value: string): (r: FormData)
    ensures Get(f, field).Some? ==> Get(r, field) == Some(value)
    ensures forall other :: other != field ==> Get(r, other) == Get(f, other)
    ensures Get(f, field).None? ==> r == f
  {
    if field == NameField then f.(name := value)
    else if field == EmailField then f.(email := value)
    else if field == MessageField then f.(message := value)
    else f
  }

  /** Writing back the value a field already has changes nothing. */
  lemma WithFieldOwnValue(f: FormData, field: string)
    requires Get(f, field).Some?
    ensures WithField(f, field, Get(f, field).value) == f
  {
  }

  /** A later change of the same field overrides an earlier one. */
  lemma WithFieldTwice(f: FormData, field: string, v1: string, v2: string)
    ensures WithField(WithField(f, field, v1), field, v2) == WithField(f, field, v2)
  {
  }

  const SubjectPrefix: string := "New Portfolio Contact from "

  /** The JSON body posted to the relay service. `accessKey` is read from
      the build environment. */
  datatype Payload = Payload(
    name: string, email: string, message: string,
    accessKey: string, subject: string, fromName: string, replyTo: string)

  /** The payload built from the form: the three fields unchanged, a subject
      naming the sender, the sender's name and a reply-to address taken from
      the form. */
  function BuildPayload(f: FormData, accessKey: string): (p: Payload)
    ensures FormData(p.name, p.email, p.message) == f
    ensures p.accessKey == accessKey
    ensures |p.subject| == |SubjectPrefix| + |f.name|
    ensures p.subject[..|SubjectPrefix|] == SubjectPrefix && p.subject[|SubjectPrefix|..] == f.name
    ensures p.fromName == f.name && p.replyTo == f.email
  {
    Payload(f.name, f.email, f.message, accessKey, SubjectPrefix + f.name, f.name, f.email)
  }

  /** How a submission ends: the relay gave a 2xx reply whose `success`
      field is truthy or falsy, or the post was rejected. `TransportFailed`
      covers network errors and every non-2xx reply, which the HTTP client
      raises as an error whatever the body says. */
  datatype Outcome = Replied(success: bool) | TransportFailed

  /** The status banner: its colour (`success`) and its text. */
  datatype Status = Status(success: bool, text: string)

  const SentText: string := "Message sent successfully!"
  const FailedText: string := "Failed to send message. Please try again."
  const ErrorText: string := "An error occurred. Please try again later."

  /** The banner shown after a submission. */
  function StatusFor(o: Outcome): (s: Status)
    ensures s.success <==> o == Replied(true)
    ensures o == Replied(true) ==> s.text == SentText
    ensures o == Replied(false) ==> s.text == FailedText
    ensures o == TransportFailed ==> s.text == ErrorText
  {
    match o
    case Replied(true) => Status(true, SentText)
    case Replied(false) => Status(false, FailedText)
    case TransportFailed => Status(false, ErrorText)
  }

  /** The three outcomes give three different banners, so the user can tell
      a refused message from a failed request. */
  lemma StatusTellsOutcomes(o1: Outcome, o2: Outcome)
    ensures StatusFor(o1) == StatusFor(o2) <==> o1 == o2
  {
  }

  /** The submit button: disabled, and showing "Sending...", while busy. */
  datatype Button = Button(disabled: bool, caption: string)

  function SubmitButton(isSubmitting: bool): (b: Button)
    ensures b.disabled <==> isSubmitting
    ensures b.disabled <==> b.caption == "Sending..."
  {
    if isSubmitting then Button(true, "Sending...") else Button(false, "Send Message")
  }

  /** The form's state cells. */
  class ContactForm {
    var formData: FormData
    var isSubmitting: bool
    var submitStatus: Option<Status>

    /** Empty fields, not busy, no banner. */
    constructor ()
      ensures formData == EmptyForm && !isSubmitting && submitStatus == None
    {
      formData := EmptyForm;
      isSubmitting := false;
      submitStatus := None;
    }

    /** `handleChange` for an input named `field` whose value is now `value`. */
    method HandleChange(field: string, value: string)
      modifies this`formData
      ensures formData == WithField(old(formData), field, value)
      ensures isSubmitting == old(isSubmitting) && submitStatus == old(submitStatus)
    {
      formData := WithField(formData, field, value);
    }

    /** The synchronous start of `handleSubmit`: busy, no banner, and the
        payload to post built from the current fields. */
    method StartSubmit(accessKey: string) returns (request: Payload)
      modifies this`isSubmitting, this`submitStatus
      ensures isSubmitting && submitStatus == None
      ensures formData == old(formData)
      ensures request == BuildPayload(formData, accessKey)
    {
      isSubmitting := true;
      submitStatus := None;
      request := BuildPayload(formData, accessKey);
    }

    /** The rest of `handleSubmit` once the outcome is known: the banner for
        the outcome, the fields cleared only on success, and never busy
        afterwards. */
    method FinishSubmit(outcome: Outcome)
      modifies this`formData, this`isSubmitting, this`submitStatus
      ensures submitStatus == Some(StatusFor(outcome))
      ensures formData == if outcome == Replied(true) then EmptyForm else old(formData)
      ensures !isSubmitting
    {
      match outcome {
        case Replied(success) =>
          if success {
            submitStatus := Some(Status(true, SentText));
            formData := EmptyForm;
          } else {
            submitStatus := Some(Status(false, FailedText));
          }
        case TransportFailed =>
          submitStatus := Some(Status(false, ErrorText));
      }
      isSubmitting := false;
    }

    /** The whole of `handleSubmit`, given the outcome of the post. */
    method HandleSubmit(accessKey: string, outcome: Outcome) returns (request: Payload)
      modifies this`formData, this`isSubmitting, this`submitStatus
      ensures request == BuildPayload(old(formData), accessKey)
      ensures submitStatus == Some(StatusFor(outcome))
      ensures formData == if outcome == Replied(true) then EmptyForm else old(formData)
      ensures !isSubmitting && !SubmitButton(isSubmitting).disabled
    {
      request := StartSubmit(accessKey);
      FinishSubmit(outcome);
    }
  }

  /** A failed submission leaves every field as the user typed it, so the
      form can be sent again unchanged. */
  method ResubmitAfterFailure(form: ContactForm, accessKey: string, first: Outcome, second: Outcome)
    returns (request1: Payload, request2: Payload)
    requires first != Replied(true)
    modifies form
    ensures request1 == request2
  {
    request1 := form.HandleSubmit(accessKey, first);
    request2 := form.HandleSubmit(accessKey, second);
  }
}
