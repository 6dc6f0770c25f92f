/**
 * The serverless contact endpoint: CORS headers, method and field validation,
 * construction of the outgoing email, and the JSON reply.
 */
module Server {
  import opened Wrappers
  import opened JsText
  import EmailRegex
  import Subjects

  /** The properties destructured from the parsed JSON body; `None` is an absent property. */
  datatype Fields = Fields(
    companyName: Option<string>, yourName: Option<string>, email: Option<string>,
    phone: Option<string>, subject: Option<string>, message: Option<string>)

  /** An incoming request: its HTTP method and its parsed body, if there is one. */
  datatype Request = Request(verb: string, body: Option<Fields>)

  /**
   * The environment the handler reads. `fallbackRecipient` is the address the
   * source has hard-coded for an unset COMPANY_EMAIL.
   */
  datatype Env = Env(companyEmail: Option<string>, nodeEnv: Option<string>, fallbackRecipient: string)

  /** How the provider's send call ends: it returns, or it throws an error with a message. */
  datatype ProviderOutcome = Accepted | Threw(errorMessage: string)

  /** The JSON reply; `error: None` is an `undefined` property, which serialisation drops. */
  datatype Json = Json(success: bool, message: string, error: Option<string>)

  /**
   * The arguments of generateEmailHTML: the form fields and the clock reading
   * the footer shows. The markup they produce is `EmailHtml(page)`.
   */
  datatype Page = Page(companyName: string, yourName: string, email: string, phone: Option<string>,
                       subject: string, message: string, timestamp: string)

  /**
   * The object handed to the provider's send call. Its `html` property is
   * held as the page it renders, so that reasoning about the handler does not
   * carry the template's text along.
   */
  datatype EmailData = EmailData(from: string, to: seq<string>, subject: string, html: Page, replyTo: string)

  /** What one request produces: the status, the JSON body, and the email sent to the provider, if any. */
  datatype Reply = Reply(status: nat, body: Json, sent: Option<EmailData>)

  const CorsHeaders: seq<(string, string)> := [
    ("Access-Control-Allow-Origin", "*"),
    ("Access-Control-Allow-Methods", "POST, OPTIONS"),
    ("Access-Control-Allow-Headers", "Content-Type")
  ]

  const PreflightMessage := "Preflight OK"
  const MethodNotAllowedMessage := "Method not allowed. Only POST requests are accepted."
  const MissingFieldsMessage := "Missing required fields. Please fill in all required fields."
  const InvalidEmailMessage := "Invalid email format."
  const SentMessage := "Email sent successfully! We will get back to you soon."
  const FailedMessage := "Failed to send email. Please try again later or contact us directly."
  const Sender := "VOYAGER Contact <onboarding@resend.dev>"
  const NoPhone := "Not provided"

  /** JavaScript truthiness of a string-or-undefined value. */
  predicate Truthy(v: Option<string>)
  {
    v.Some? && v.value != ""
  }

  /** `req.body || {}`: a missing body reads as one with every property absent. */
  function FieldsOf(req: Request): Fields
  {
    req.body.GetOr(Fields(None, None, None, None, None, None))
  }

  /** Every required field is a non-empty string; phone is not required and nothing is trimmed. */
  predicate HasRequired(f: Fields)
  {
    Truthy(f.companyName) && Truthy(f.yourName) && Truthy(f.email) && Truthy(f.subject) && Truthy(f.message)
  }

  /** A POST whose fields pass both checks: the only requests that reach the provider. */
  predicate Deliverable(req: Request)
  {
    var f := FieldsOf(req);
    req.verb == "POST" && HasRequired(f) && EmailRegex.Matches(f.email.value)
  }

  /**
   * `process.env.COMPANY_EMAIL || fallback`: the configured address when it
   * is set and non-empty, the fallback otherwise, so the recipient is never
   * empty while the fallback is not.
   */
  function Recipient(env: Env): (to: string)
    ensures Truthy(env.companyEmail) ==> to == env.companyEmail.value
    ensures !Truthy(env.companyEmail) ==> to == env.fallbackRecipient
    ensures env.fallbackRecipient != "" ==> to != ""
  {
    if Truthy(env.companyEmail) then env.companyEmail.value else env.fallbackRecipient
  }

  /** `phone || 'Not provided'`: a missing or empty phone reads "Not provided", and the text is never empty. */
  function PhoneText(phone: Option<string>): (text: string)
    ensures Truthy(phone) ==> text == phone.value
    ensures !Truthy(phone) ==> text == NoPhone
    ensures text != ""
  {
    if Truthy(phone) then phone.value else NoPhone
  }

  // The fixed markup of the template, between the embedded values; its style
  // sheet and emoji are abbreviated.
  const HtmlHead := "<!DOCTYPE html><html><head><meta charset=\"utf-8\"><title>New Contact Form Submission</title></head><body><div class=\"container\"><div class=\"header\"><h1>New Contact Form Submission</h1><p>VOYAGER Inc. Website</p></div><div class=\"content\"><h2>Contact Details</h2><div class=\"field\"><strong>Company:</strong> "
  const HtmlAfterCompany := "</div><div class=\"field\"><strong>Contact Person:</strong> "
  const HtmlAfterName := "</div><div class=\"field\"><strong>Email:</strong> <a href=\"mailto:"
  const HtmlBetweenEmails := "\">"
  const HtmlAfterEmail := "</a></div><div class=\"field\"><strong>Phone:</strong> "
  const HtmlAfterPhone := "</div><div class=\"field\"><strong>Subject:</strong> "
  const HtmlAfterSubject := "</div><h2>Message</h2><div class=\"message-box\">"
  const HtmlAfterMessage := "</div></div><div class=\"footer\"><p>This message was sent from the VOYAGER Inc. website contact form.</p><p class=\"timestamp\">"
  const HtmlTail := "</p></div></div></body></html>"

  /** The markup up to the message box, with the contact details embedded. */
  function HtmlBeforeMessage(companyName: string, yourName: string, email: string, phone: Option<string>, subject: string): string
  {
    HtmlHead + companyName + HtmlAfterCompany + yourName + HtmlAfterName + email + HtmlBetweenEmails + email
    + HtmlAfterEmail + PhoneText(phone) + HtmlAfterPhone + subject + HtmlAfterSubject
  }

  /**
   * generateEmailHTML: the fields embedded in the template, the message with
   * every line feed turned into `<br>`.
   */
  function EmailHtml(p: Page): (html: string)
    ensures var body := ReplaceNewlines(p.message);
      && '\n' !in body
      && ('\n' !in p.message ==> body == p.message)
      && html == HtmlBeforeMessage(p.companyName, p.yourName, p.email, p.phone, p.subject)
                 + body + HtmlAfterMessage + p.timestamp + HtmlTail
  {
    HtmlBeforeMessage(p.companyName, p.yourName, p.email, p.phone, p.subject)
    + ReplaceNewlines(p.message) + HtmlAfterMessage + p.timestamp + HtmlTail
  }

  /**
   * The `emailData` object of sendEmailWithResend: one recipient, the subject
   * line built from the display text and the company, and the submitter as
   * reply-to address.
   */
  function BuildEmail(companyName: string, yourName: string, email: string, phone: Option<string>,
                      subjectText: string, message: string, env: Env, timestamp: string): (d: EmailData)
    ensures d.from == Sender
    ensures |d.to| == 1 && d.to[0] == (if Truthy(env.companyEmail) then env.companyEmail.value else env.fallbackRecipient)
    ensures d.subject == "Contact Form: " + subjectText + " - " + companyName
    ensures d.replyTo == email
    ensures d.html == Page(companyName, yourName, email, phone, subjectText, message, timestamp)
  {
    EmailData(
      from := Sender,
      to := [Recipient(env)],
      subject := "Contact Form: " + subjectText + " - " + companyName,
      html := Page(companyName, yourName, email, phone, subjectText, message, timestamp),
      replyTo := email)
  }

  /**
   * What the handler answers, as a value. Every request ends in exactly one of
   * five ways: OPTIONS gets 200, any other non-POST 405, a POST with a missing
   * field or a malformed address 400 (the field check first), and a valid POST
   * 200 or 500 depending on the provider. Only a valid POST reaches the provider.
   */
  function Respond(req: Request, env: Env, provider: ProviderOutcome, timestamp: string): (r: Reply)
    ensures r.status in {200, 400, 405, 500}
    ensures r.body.success <==> r.status == 200
    ensures r.status == 405 <==> req.verb != "OPTIONS" && req.verb != "POST"
    ensures r.status == 400 <==> req.verb == "POST" && !Deliverable(req)
    ensures r.status == 400 ==> (r.body.message == MissingFieldsMessage <==> !HasRequired(FieldsOf(req)))
    ensures r.status == 400 && HasRequired(FieldsOf(req)) ==> r.body.message == InvalidEmailMessage
    ensures req.verb == "OPTIONS" ==> r.body.message == PreflightMessage
    ensures r.status == 405 ==> r.body.message == MethodNotAllowedMessage
    ensures r.status == 200 && req.verb != "OPTIONS" ==> r.body.message == SentMessage
    ensures r.status == 500 ==> r.body.message == FailedMessage
    ensures r.status == 200 <==> req.verb == "OPTIONS" || (Deliverable(req) && provider.Accepted?)
    ensures r.status == 500 <==> Deliverable(req) && provider.Threw?
    ensures r.sent.Some? <==> Deliverable(req)
    ensures r.body.error.Some? <==> r.status == 500 && env.nodeEnv == Some("development")
    ensures r.body.error.Some? ==> r.body.error == Some(provider.errorMessage)
    ensures r.sent.Some? ==>
      var f := FieldsOf(req);
      && r.sent.value.subject == "Contact Form: " + Subjects.SubjectText(f.subject.value) + " - " + f.companyName.value
      && r.sent.value.replyTo == f.email.value
      && r.sent.value.to == [Recipient(env)]
      && r.sent.value == BuildEmail(f.companyName.value, f.yourName.value, f.email.value, f.phone,
                                    Subjects.SubjectText(f.subject.value), f.message.value, env, timestamp)
  {
    var f := FieldsOf(req);
    if req.verb == "OPTIONS" then
      Reply(200, Json(true, PreflightMessage, None), None)
    else if req.verb != "POST" then
      Reply(405, Json(false, MethodNotAllowedMessage, None), None)
    else if !HasRequired(f) then
      Reply(400, Json(false, MissingFieldsMessage, None), None)
    else if !EmailRegex.Matches(f.email.value) then
      Reply(400, Json(false, InvalidEmailMessage, None), None)
    else
      var email := BuildEmail(f.companyName.value, f.yourName.value, f.email.value, f.phone,
                              Subjects.SubjectText(f.subject.value), f.message.value, env, timestamp);
      match provider
      case Accepted => Reply(200, Json(true, SentMessage, None), Some(email))
      case Threw(detail) =>
        Reply(500, Json(false, FailedMessage, if env.nodeEnv == Some("development") then Some(detail) else None), Some(email))
  }

  /** The response object the platform hands the handler, updated in place. */
  class Response {
    var headers: seq<(string, string)>
    var statusCode: Option<int>
    var json: Option<Json>

    /** A response nothing has been written to. */
    constructor ()
      ensures headers == [] && statusCode == None && json == None
    {
      headers, statusCode, json := [], None, None;
    }

    /** `res.setHeader(name, value)`. */
    method SetHeader(name: string, value: string)
      modifies this
      ensures headers == old(headers) + [(name, value)]
      ensures statusCode == old(statusCode) && json == old(json)
    {
      headers := headers + [(name, value)];
    }

    /** `res.status(code).json(body)`. */
    method Send(code: int, body: Json)
      modifies this
      ensures headers == old(headers)
      ensures statusCode == Some(code) && json == Some(body)
    {
      statusCode, json := Some(code), Some(body);
    }
  }

  /**
   * The handler, step by step on the response object. It returns the list of
   * emails handed to the provider: one for a valid POST, none otherwise. The
   * three CORS headers are written before any branch, so they are on every reply.
   */
  method Handler(req: Request, env: Env, provider: ProviderOutcome, timestamp: string, res: Response)
      returns (sendCalls: seq<EmailData>)
    requires res.headers == [] && res.statusCode == None && res.json == None
    modifies res
    ensures res.headers == CorsHeaders
    ensures res.statusCode == Some(Respond(req, env, provider, timestamp).status)
    ensures res.json == Some(Respond(req, env, provider, timestamp).body)
    ensures sendCalls == match Respond(req, env, provider, timestamp).sent
                         case Some(d) => [d]
                         case None => []
  {
    res.SetHeader("Access-Control-Allow-Origin", "*");
    res.SetHeader("Access-Control-Allow-Methods", "POST, OPTIONS");
    res.SetHeader("Access-Control-Allow-Headers", "Content-Type");

    if req.verb == "OPTIONS" {
      res.Send(200, Json(true, PreflightMessage, None));
      return [];
    }
    if req.verb != "POST" {
      res.Send(405, Json(false, MethodNotAllowedMessage, None));
      return [];
    }
    var f := FieldsOf(req);
    if !HasRequired(f) {
      res.Send(400, Json(false, MissingFieldsMessage, None));
      return [];
    }
    if !EmailRegex.Matches(f.email.value) {
      res.Send(400, Json(false, InvalidEmailMessage, None));
      return [];
    }
    var subjectText := Subjects.SubjectText(f.subject.value);
    var email := BuildEmail(f.companyName.value, f.yourName.value, f.email.value, f.phone,
                            subjectText, f.message.value, env, timestamp);
    sendCalls := [email];
    match provider {
      case Accepted =>
        res.Send(200, Json(true, SentMessage, None));
      case Threw(detail) =>
        var error := if env.nodeEnv == Some("development") then Some(detail) else None;
        res.Send(500, Json(false, FailedMessage, error));
    }
  }
}
