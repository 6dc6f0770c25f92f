/**
 * The browser side of the contact form: collecting and checking the fields,
 * the request to the relay endpoint, and the submit button's state around it.
 */
module ContactForm {
  import opened Wrappers
  import opened JsText
  import EmailRegex
  import Subjects
  import Notifications

  /** The six form values, as read from the controls or as sent in the request body. */
  datatype FormData = FormData(
    companyName: string, yourName: string, email: string,
    phone: string, subject: string, message: string)

  const RequiredMessage := "Please fill in all required fields."
  const InvalidEmailMessage := "Please enter a valid email address."
  const SuccessMessage := "Thank you! Your message has been sent successfully. We will get back to you soon."
  const FailureMessage := "Sorry, there was an error sending your message. Please try again or contact us directly."
  const SendingText := "Sending..."
  const FallbackError := "Failed to send email"

  /**
   * The `formData` object: every value trimmed except the subject, a select's
   * value taken as is. A trimmed value is empty exactly when the control held
   * only whitespace.
   */
  function Collect(raw: FormData): (d: FormData)
    ensures d.subject == raw.subject
    ensures d.companyName == "" <==> AllSpace(raw.companyName)
    ensures d.yourName == "" <==> AllSpace(raw.yourName)
    ensures d.email == "" <==> AllSpace(raw.email)
    ensures d.phone == "" <==> AllSpace(raw.phone)
    ensures d.message == "" <==> AllSpace(raw.message)
  {
    FormData(Trim(raw.companyName), Trim(raw.yourName), Trim(raw.email),
             Trim(raw.phone), raw.subject, Trim(raw.message))
  }

  /**
   * isValidEmail: the same anchored pattern the server applies, so it holds
   * exactly for an address with no whitespace, a single `@` with text before
   * it, and a dot after the `@` with text on both sides.
   */
  predicate IsValidEmail(email: string)
    ensures IsValidEmail(email) <==>
      && EmailRegex.NoSpace(email)
      && multiset(email)['@'] == 1
      && exists i | 0 < i < |email| :: email[i] == '@' && EmailRegex.InnerDot(email[i + 1..])
  {
    EmailRegex.MatchesIff(email);
    EmailRegex.Matches(email)
  }

  /** The required-field check: phone may be empty. */
  predicate HasRequired(d: FormData)
  {
    d.companyName != "" && d.yourName != "" && d.email != "" && d.subject != "" && d.message != ""
  }

  /** The request handleFormSubmit sends for the current control values, or None when a check fails. */
  function Submission(raw: FormData): (request: Option<FormData>)
    ensures request.Some? <==>
      && !AllSpace(raw.companyName) && !AllSpace(raw.yourName) && !AllSpace(raw.email)
      && raw.subject != "" && !AllSpace(raw.message)
      && IsValidEmail(Trim(raw.email))
    ensures request.Some? ==> request.value == Collect(raw)
  {
    var d := Collect(raw);
    if HasRequired(d) && IsValidEmail(d.email) then Some(d) else None
  }

  /**
   * The error a failed check shows: the required-field check comes first, so
   * the address error appears only when every required control is filled in.
   */
  function RejectionMessage(raw: FormData): (m: string)
    ensures m == RequiredMessage || m == InvalidEmailMessage
    ensures m == RequiredMessage <==>
      || AllSpace(raw.companyName) || AllSpace(raw.yourName) || AllSpace(raw.email)
      || raw.subject == "" || AllSpace(raw.message)
  {
    MessagesDiffer();
    if !HasRequired(Collect(raw)) then RequiredMessage else InvalidEmailMessage
  }

  /** The two rejection texts are told apart by their eighth character. */
  lemma MessagesDiffer()
    ensures RequiredMessage != InvalidEmailMessage
  {
    assert RequiredMessage[7] != InvalidEmailMessage[7];
  }

  /** The parsed JSON body of a reply, as far as the client reads it. */
  datatype ServerJson = ServerJson(success: Option<bool>, message: Option<string>)

  /**
   * What `response.json()` makes of the body: the content type is not JSON
   * (the body is read as text), the body parses, or it claims to be JSON but
   * does not parse, and the promise rejects with a parse error.
   */
  datatype Body = NotJson | Parsed(json: ServerJson) | Malformed(parseError: string)

  /** The fetch response: status, status text, and its body. */
  datatype HttpResponse = HttpResponse(status: nat, statusText: string, body: Body)

  /** `response.ok`: a status in the range 200-299. */
  predicate Ok(resp: HttpResponse)
  {
    200 <= resp.status <= 299
  }

  /**
   * `result`: the parsed body, or an error object built from the status for a
   * non-JSON reply; a body that does not parse rejects with its parse error.
   */
  function ResultOf(resp: HttpResponse): (r: Result<ServerJson, string>)
    ensures r.Failure? <==> resp.body.Malformed?
    ensures resp.body.Parsed? ==> r == Success(resp.body.json)
    ensures resp.body.NotJson? ==>
      && r.value.success == Some(false) && r.value.message.Some?
      && "Server error: " <= r.value.message.value
  {
    match resp.body
    case Parsed(j) => Success(j)
    case Malformed(e) => Failure(e)
    case NotJson =>
      Success(ServerJson(Some(false), Some("Server error: " + DecimalString(resp.status) + " " + resp.statusText)))
  }

  /** The request counts as delivered: the body was read and the status is ok. */
  predicate Delivered(resp: HttpResponse)
  {
    Ok(resp) && !resp.body.Malformed?
  }

  /**
   * sendEmailWithVercel after the fetch: it throws when the body does not
   * parse, and otherwise exactly when the status is not ok, with the body's
   * message or a fixed fallback; else it returns the body, whatever its
   * success flag says.
   */
  function SendWithVercel(resp: HttpResponse): (r: Result<ServerJson, string>)
    ensures r.Success? <==> Delivered(resp)
    ensures r.Failure? <==> !Ok(resp) || resp.body.Malformed?
    ensures r.Success? ==> r == ResultOf(resp)
    ensures resp.body.Malformed? ==> r == Failure(resp.body.parseError)
    ensures r.Failure? && !resp.body.Malformed? ==> r.error != ""
    ensures r.Failure? && resp.body.NotJson? ==> "Server error: " <= r.error
  {
    match ResultOf(resp)
    case Failure(e) => Failure(e)
    case Success(result) =>
      if !Ok(resp) then
        Failure(if result.message.Some? && result.message.value != "" then result.message.value else FallbackError)
      else Success(result)
  }

  /** The subject line and phone text of formatEmailContent. */
  datatype EmailContent = EmailContent(subject: string, phone: string)

  /**
   * formatEmailContent, restricted to the subject line and the phone default:
   * the subject line names the subject's display text and the company, and an
   * empty phone reads "Not provided".
   */
  function FormatEmailContent(d: FormData): (c: EmailContent)
    ensures c.subject == "Contact Form: " + Subjects.SubjectText(d.subject) + " - " + d.companyName
    ensures "Contact Form: " <= c.subject
    ensures c.phone == (if d.phone == "" then "Not provided" else d.phone)
    ensures c.phone != ""
  {
    EmailContent("Contact Form: " + Subjects.SubjectText(d.subject) + " - " + d.companyName,
                 if d.phone != "" then d.phone else "Not provided")
  }

  /** The contact form with its submit button, across one submission. */
  class Form {
    var fields: FormData
    const defaults: FormData
    var buttonText: string
    var buttonDisabled: bool
    var savedText: string
    var pending: Option<FormData>
    const notes: Notifications.NotificationArea

    /** While a request is in flight the button is disabled and says "Sending...". */
    ghost predicate Valid()
      reads this
    {
      pending.Some? ==> buttonDisabled && buttonText == SendingText
    }

    /** A form with the given values, the values `reset()` restores, and an enabled button. */
    constructor (initial: FormData, resetValues: FormData, text: string, area: Notifications.NotificationArea)
      ensures Valid()
      ensures fields == initial && defaults == resetValues && notes == area
      ensures buttonText == text && !buttonDisabled && pending == None
    {
      fields, defaults, notes := initial, resetValues, area;
      buttonText, buttonDisabled, savedText, pending := text, false, text, None;
    }

    /**
     * handleFormSubmit up to the awaited request: collect and check the values;
     * on a failed check show the error and return with the button untouched;
     * otherwise remember the button text, disable the button and issue the request.
     */
    method Submit() returns (request: Option<FormData>)
      requires Valid() && pending.None?
      modifies this, notes
      ensures Valid() && fields == old(fields)
      ensures request == Submission(old(fields)) && pending == request
      ensures request.None? ==>
        && buttonText == old(buttonText) && buttonDisabled == old(buttonDisabled)
        && notes.shown == [Notifications.Make(RejectionMessage(old(fields)), "error")]
      ensures request.Some? ==>
        && buttonText == SendingText && buttonDisabled && savedText == old(buttonText)
        && notes.shown == old(notes.shown)
    {
      request := Submission(fields);
      if request.None? {
        notes.Show(RejectionMessage(fields), "error");
      } else {
        MarkSending(request.value);
      }
    }

    /** Remember the button's text, then disable it and record the request in flight. */
    method MarkSending(request: FormData)
      modifies this
      ensures Valid() && pending == Some(request)
      ensures buttonText == SendingText && buttonDisabled && savedText == old(buttonText)
      ensures fields == old(fields)
    {
      savedText := buttonText;
      buttonText := SendingText;
      buttonDisabled := true;
      pending := Some(request);
    }

    /**
     * handleFormSubmit after the await: on a normal return show success and
     * reset the form, on a throw show the error; in both cases (`finally`)
     * restore the remembered text and re-enable the button.
     */
    method Complete(resp: HttpResponse)
      requires Valid() && pending.Some?
      modifies this, notes
      ensures Valid() && pending.None?
      ensures buttonText == old(savedText) && !buttonDisabled
      ensures fields == if Delivered(resp) then defaults else old(fields)
      ensures notes.shown == [if Delivered(resp) then Notifications.Make(SuccessMessage, "success")
                              else Notifications.Make(FailureMessage, "error")]
    {
      match SendWithVercel(resp) {
        case Success(_) =>
          notes.Show(SuccessMessage, "success");
          fields := defaults;
        case Failure(_) =>
          notes.Show(FailureMessage, "error");
      }
      buttonText := savedText;
      buttonDisabled := false;
      pending := None;
    }

    /**
     * The whole submit handler, given the response the request will get. The
     * button text always ends as it started; the button ends enabled when the
     * request was sent and untouched when a check failed; the form is reset
     * only when the request was sent and its reply was delivered; the one
     * notification left on the page says which of the three ways it ended.
     */
    method HandleFormSubmit(resp: HttpResponse) returns (request: Option<FormData>)
      requires Valid() && pending.None?
      modifies this, notes
      ensures Valid() && pending.None?
      ensures request == Submission(old(fields))
      ensures buttonText == old(buttonText)
      ensures buttonDisabled == if request.Some? then false else old(buttonDisabled)
      ensures fields == if request.Some? && Delivered(resp) then defaults else old(fields)
      ensures notes.shown ==
        [if request.None? then Notifications.Make(RejectionMessage(old(fields)), "error")
         else if Delivered(resp) then Notifications.Make(SuccessMessage, "success")
         else Notifications.Make(FailureMessage, "error")]
    {
      request := Submit();
      if request.Some? {
        Complete(resp);
      }
    }
  }
}
