/**
 * The two halves of the contact pipeline together: what the browser sends,
 * what the relay endpoint does with it, and what the browser makes of the reply.
 */
module Pipeline {
  import opened Wrappers
  import opened JsText
  import EmailRegex
  import Subjects
  import Server
  import ContactForm

  /** `JSON.stringify` of the form values on the client, parsed back on the server. */
  function RequestFor(d: ContactForm.FormData): Server.Request
  {
    Server.Request("POST", Some(Server.Fields(
      Some(d.companyName), Some(d.yourName), Some(d.email),
      Some(d.phone), Some(d.subject), Some(d.message))))
  }

  /** The server's reply as the client's fetch sees it (a JSON body that parses). */
  function ResponseFor(r: Server.Reply, statusText: string): ContactForm.HttpResponse
  {
    ContactForm.HttpResponse(r.status, statusText,
      ContactForm.Parsed(ContactForm.ServerJson(Some(r.body.success), Some(r.body.message))))
  }

  /**
   * Whatever the browser sends passes the server's checks: the server's
   * checks are the client's without trimming, and both test the same pattern.
   * The provider alone decides between 200 and 500, and the email's subject
   * line and phone text are the ones formatEmailContent computes.
   */
  lemma ClientRequestPassesServer(raw: ContactForm.FormData, env: Server.Env,
                                  provider: Server.ProviderOutcome, timestamp: string)
    requires ContactForm.Submission(raw).Some?
    ensures var d := ContactForm.Submission(raw).value;
      var r := Server.Respond(RequestFor(d), env, provider, timestamp);
      && Server.Deliverable(RequestFor(d))
      && r.status == (if provider.Accepted? then 200 else 500)
      && r.sent.Some?
      && r.sent.value.subject == ContactForm.FormatEmailContent(d).subject
      && Server.PhoneText(Some(d.phone)) == ContactForm.FormatEmailContent(d).phone
  {
    var d := ContactForm.Submission(raw).value;
    var f := Server.FieldsOf(RequestFor(d));
    assert ContactForm.HasRequired(d) && ContactForm.IsValidEmail(d.email);
    assert f.email == Some(d.email) && f.subject == Some(d.subject) && f.companyName == Some(d.companyName);
    assert Server.HasRequired(f);
  }

  /**
   * Seen from the browser, a submission that passed its own checks ends with
   * the form reset exactly when the provider accepted the email.
   */
  lemma ResetExactlyWhenDelivered(raw: ContactForm.FormData, env: Server.Env,
                                  provider: Server.ProviderOutcome, timestamp: string, statusText: string)
    requires ContactForm.Submission(raw).Some?
    ensures var d := ContactForm.Submission(raw).value;
      var resp := ResponseFor(Server.Respond(RequestFor(d), env, provider, timestamp), statusText);
      && (ContactForm.Delivered(resp) <==> provider.Accepted?)
      && (ContactForm.SendWithVercel(resp).Failure? <==> provider.Threw?)
  {
    var d := ContactForm.Submission(raw).value;
    ClientRequestPassesServer(raw, env, provider, timestamp);
    ParsedReply(Server.Respond(RequestFor(d), env, provider, timestamp), statusText);
  }

  /** A reply that parses is delivered exactly when its status is ok. */
  lemma ParsedReply(r: Server.Reply, statusText: string)
    ensures var resp := ResponseFor(r, statusText);
      && (ContactForm.Delivered(resp) <==> 200 <= r.status <= 299)
      && (ContactForm.SendWithVercel(resp).Failure? <==> !(200 <= r.status <= 299))
  {
  }

  /**
   * The server is laxer than the client: a company name of one space is
   * refused in the browser but accepted by the endpoint, which does not trim.
   */
  lemma ServerAcceptsBlankTheClientRefuses(env: Server.Env, timestamp: string)
    ensures var raw := ContactForm.FormData(" ", "Jo", "jo@acme.com", "", "general", "Hi");
      && ContactForm.Submission(raw).None?
      && Server.Respond(RequestFor(raw), env, Server.Accepted, timestamp).status == 200
  {
    var raw := ContactForm.FormData(" ", "Jo", "jo@acme.com", "", "general", "Hi");
    assert AllSpace(raw.companyName) by {
      assert raw.companyName[0] == ' ';
    }
    var req := RequestFor(raw);
    var f := Server.FieldsOf(req);
    assert f.companyName == Some(" ") && f.email == Some("jo@acme.com");
    assert Server.HasRequired(f);
    AddressMatches();
    assert Server.Deliverable(req);
  }

  /** The sample address used below matches the pattern. */
  lemma AddressMatches()
    ensures EmailRegex.Matches("jo@acme.com")
  {
    var s := "jo@acme.com";
    assert s[2] == '@' && s[7] == '.';
    assert s[..2] == "jo" && s[3..7] == "acme" && s[8..] == "com";
    assert EmailRegex.AllPlain("jo") by {
      assert EmailRegex.Plain('j') && EmailRegex.Plain('o');
    }
    assert EmailRegex.AllPlain("acme") by {
      assert EmailRegex.Plain('a') && EmailRegex.Plain('c') && EmailRegex.Plain('m') && EmailRegex.Plain('e');
    }
    assert EmailRegex.AllPlain("com") by {
      assert EmailRegex.Plain('c') && EmailRegex.Plain('o') && EmailRegex.Plain('m');
    }
  }

  /**
   * A worked submission: the subject line names the display text and the
   * company, and the message box holds the two-line message with its line
   * break as `<br>`.
   */
  lemma SupportRequestExample(env: Server.Env, timestamp: string, first: string, second: string)
    requires '\n' !in first && '\n' !in second
    ensures var req := Server.Request("POST", Some(Server.Fields(
        Some("Acme"), Some("Jo"), Some("jo@acme.com"), None, Some("support"), Some(first + "\n" + second))));
      var r := Server.Respond(req, env, Server.Accepted, timestamp);
      && r.status == 200
      && r.sent.Some?
      && r.sent.value.subject == "Contact Form: " + "Technical Support" + " - " + "Acme"
      && Server.EmailHtml(r.sent.value.html) == Server.HtmlBeforeMessage("Acme", "Jo", "jo@acme.com", None, "Technical Support")
           + (first + "<br>" + second) + Server.HtmlAfterMessage + timestamp + Server.HtmlTail
  {
    var message := first + "\n" + second;
    var req := Server.Request("POST", Some(Server.Fields(
        Some("Acme"), Some("Jo"), Some("jo@acme.com"), None, Some("support"), Some(message))));
    assert message != [] by { assert message[|first|] == '\n'; }
    ExampleDeliverable(req, message);
    var r := Server.Respond(req, env, Server.Accepted, timestamp);
    assert r.sent.value.html == Server.Page("Acme", "Jo", "jo@acme.com", None, "Technical Support", message, timestamp);
    LineBreakBecomesBr(first, second);
  }

  /** The example request passes the endpoint's checks, and its subject code names Technical Support. */
  lemma ExampleDeliverable(req: Server.Request, message: string)
    requires message != []
    requires req == Server.Request("POST", Some(Server.Fields(
        Some("Acme"), Some("Jo"), Some("jo@acme.com"), None, Some("support"), Some(message))))
    ensures Server.Deliverable(req)
    ensures Subjects.SubjectText("support") == "Technical Support"
  {
    assert Server.HasRequired(Server.FieldsOf(req));
    AddressMatches();
  }
}
