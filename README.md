# VOYAGER contact site: a Dafny model

This project models the behaviour of the VOYAGER Inc. marketing site's two
scripts: the serverless contact endpoint (`api/send-email.js`) and the page
script (`script.js`).

The endpoint answers a CORS preflight, refuses every method but POST, checks
that the five required fields are present and that the address matches
`/^[^\s@]+@[^\s@]+\.[^\s@]+$/`, builds the outgoing email (subject line,
recipient, reply-to, HTML body with line feeds turned into `<br>`) and hands
it to the mail provider. It replies 200, 400, 405 or 500 with a JSON body.

The page script trims the form values, runs the same checks, disables the
submit button while the request is in flight, reports the outcome in a
notification (only one is ever on the page), resets the form on success and
restores the button in every case. It also drives the CEO carousel, the
testimonial rotation, the FAQ accordion and the language buttons.

Modules, one concern each:

- `Wrappers`: `Option` and `Result`.
- `JsText`: JavaScript's `\s` class, `trim`, the global newline replacement and the decimal rendering of a status code.
- `EmailRegex`: the address pattern and an independent characterisation of it.
- `Subjects`: the subject-code lookup, as written and as intended (see Findings).
- `Server`: the handler, as a function `Respond` and as a method `Handler` on a mutable response object.
- `Notifications`: the icon and colour tables and the notification area.
- `ContactForm`: `handleFormSubmit`, `sendEmailWithVercel` and `formatEmailContent`.
- `Carousel`, `Testimonials`, `Faq`, `LanguageSwitcher`: the page widgets as classes over arrays of `active` flags.
- `Marks`: counting the flags that are set.
- `Pipeline`: what the client sends, run through the server and back.

The page's elements are arrays of flags (a slide's or button's `active` class);
event handlers are methods; timers are methods that the environment calls.
The provider's send call is a parameter (`ProviderOutcome`: it returns, or it throws with a message). So are the environment variables (`Env`), the clock reading in the footer (`timestamp`) and the fetch response (`HttpResponse`).

## Model

| member | source | states |
|---|---|---|
| JsText.LeadingSpaces | script.js:286-292 | the count of leading characters `trim` strips: all of them are whitespace and the next one is not |
| JsText.TrailingSpaces | script.js:286-292 | the same count at the end of the string |
| JsText.Trim | script.js:286-292 | `trim` never lengthens; its result is empty exactly when the input is all whitespace, and otherwise starts and ends with a non-space; it is the stretch of the input right after the leading whitespace, and only whitespace follows it |
| JsText.TrimIdempotent | script.js:286-292 | trimming a trimmed value changes nothing |
| JsText.ReplaceNewlines | api/send-email.js:231 | the message box holds no line feed, and a message without one is unchanged |
| JsText.ReplaceNewlinesLength | api/send-email.js:231 | each line feed grows the text by exactly three characters |
| JsText.ReplaceNewlinesConcat | api/send-email.js:231 | the replacement distributes over concatenation |
| JsText.LineBreakBecomesBr | api/send-email.js:231 | a line feed between two lines becomes one `<br>` and nothing else changes |
| JsText.DecimalString | script.js:402 | the status renders as decimal digits with no leading zero |
| JsText.DecimalRoundTrip | script.js:402 | reading the rendered digits back gives the status |
| EmailRegex.Matches | api/send-email.js:45-46 | a matching address is at least five characters long and holds an `@` and a `.` |
| EmailRegex.MatchesIff | script.js:445-448 | the pattern accepts exactly the strings with no whitespace, exactly one `@` with text before it, and a dot after the `@` with text on both sides |
| Subjects.InheritedCodeEscapesDefault | api/send-email.js:252-260 | as written, the subject code "constructor" reads an inherited property and does not fall back to "General Inquiry" |
| Subjects.SubjectTextAsWritten | api/send-email.js:252-260 | as written, the lookup yields an inherited value exactly for the inherited property names, and otherwise a display text of the table, the table's own entry for the four codes |
| Subjects.SubjectText | api/send-email.js:252-260 | the four codes map to their display texts and every other code to "General Inquiry"; the text differs from the default exactly for services, partnership and support |
| Subjects.SubjectTextAgreesOffPrototype | script.js:363-371 | the intended lookup agrees with the code as written exactly off the inherited property names |
| Server.Recipient | api/send-email.js:101 | COMPANY_EMAIL when it is set and non-empty, the fallback otherwise; never empty while the fallback is not |
| Server.PhoneText | api/send-email.js:223 | the phone when it is a non-empty string, "Not provided" otherwise; never empty |
| Server.EmailHtml | api/send-email.js:132-250 | the fields sit in the template in order; the message box holds the message with every line feed replaced |
| Server.BuildEmail | api/send-email.js:99-112 | the fixed sender, one recipient (COMPANY_EMAIL when set and non-empty, else the fallback), the subject `Contact Form: <text> - <company>`, reply-to the submitter |
| Server.Respond | api/send-email.js:6-83 | every request ends in 200, 400, 405 or 500; success is true exactly for 200; 405 exactly for a method other than OPTIONS and POST; 400 exactly for a POST that fails a check, with the missing-fields message exactly when a field is missing and the invalid-format message otherwise; the preflight, method-not-allowed, sent and failed messages on their branches; 500 exactly when a valid POST's send throws; an email is built exactly for a valid POST; the error detail is present exactly on a 500 in development |
| Server.Response.SetHeader | api/send-email.js:8-10 | a header is appended and the status and body are untouched |
| Server.Response.Send | api/send-email.js:14 | status and JSON body are set and the headers are untouched |
| Server.Handler | api/send-email.js:6-83 | the three CORS headers in order on every reply; status and body as `Respond` gives them; the provider called once exactly when `Respond` builds an email, with that email |
| Notifications.Icon | script.js:495-503 | the icon is in the table, the table's entry for a listed kind and the info icon otherwise; the warning sign exactly for error and warning |
| Notifications.Style | script.js:505-513 | the colours are in the table, the table's entry for a listed kind and the info colours otherwise |
| Notifications.NotificationArea.Show | script.js:450-474 | every existing notification is removed, so the new one is the only one on the page; it is a new element, with an identity no earlier element had |
| Notifications.NotificationArea.Dismiss | script.js:486-492 | the close button or the timer removes its own element when it is still on the page; an element already gone or replaced leaves the page unchanged |
| Notifications.ReplacedTimerIsHarmless | script.js:486-492 | the timer of a notification that a later one replaced does not remove the later one |
| ContactForm.Collect | script.js:286-293 | the subject is taken as is; every other value is empty after trimming exactly when the control held only whitespace |
| ContactForm.IsValidEmail | script.js:445-448 | the browser's check is the server's pattern: no whitespace, exactly one `@` with text before it, and a dot after the `@` with text on both sides |
| ContactForm.RejectionMessage | script.js:296-305 | the error shown is the required-field message exactly when a required control is blank or no subject is chosen, and the address message otherwise |
| ContactForm.Submission | script.js:285-305 | a request goes out exactly when every required control holds more than whitespace, a subject is chosen and the trimmed address matches; it carries the trimmed values |
| ContactForm.ResultOf | script.js:390-404 | a JSON body that parses is the result; a non-JSON reply becomes a failure object whose message starts with "Server error: "; a JSON body that does not parse rejects |
| ContactForm.SendWithVercel | script.js:373-411 | it throws when the body does not parse, with the parse error, and otherwise exactly when the status is outside 200-299, with a non-empty message, which for a non-JSON reply starts with "Server error: "; otherwise it returns the body whatever its success flag |
| ContactForm.FormatEmailContent | script.js:331-361 | the subject line is `Contact Form: <subject text> - <company>`; an empty phone reads "Not provided", and the phone text is never empty |
| ContactForm.Form.Submit | script.js:278-308 | a failed check shows the required-field or address error and leaves the button alone; otherwise the button text is remembered, replaced by "Sending..." and the button disabled |
| ContactForm.Form.MarkSending | script.js:282-308 | the loading state: text remembered, "Sending..." shown, button disabled |
| ContactForm.Form.Complete | script.js:310-328 | a delivered reply (ok status, readable body) shows the thank-you notification and resets the form; otherwise the error notification shows and the values stay; both restore the button text and re-enable it |
| ContactForm.Form.HandleFormSubmit | script.js:278-329 | the button text ends as it started; the button is re-enabled when a request went out; the form is reset exactly when it went out and its reply was delivered; the one notification on the page is the check's error, the thank-you or the send error accordingly |
| Marks.CountOnlyAt | script.js:97-103 | with no flag set except possibly one, the count of set flags is that one's |
| Carousel.RunStaysInRange | script.js:59-93 | starting on a slide, no sequence of clicks leaves the slides |
| Carousel.NextClicksStopAtLast | script.js:80-87 | `k` clicks on next advance `k` slides and stop at the last |
| Carousel.PrevClicksStopAtFirst | script.js:72-79 | `k` clicks on prev go back `k` slides and stop at the first |
| Carousel.CeoCarousel.constructor | script.js:57-71 | the index starts at 0, and with slides present the first slide is shown |
| Carousel.CeoCarousel.ShowSlide | script.js:59-68 | exactly the given slide and dot are active; prev is disabled exactly at the first slide and next exactly at the last |
| Carousel.CeoCarousel.PrevClicked | script.js:73-78 | the index moves back one unless at the first slide, stays on a slide, and the page shows it; at the first slide nothing on the page changes |
| Carousel.CeoCarousel.NextClicked | script.js:81-86 | the index moves on one unless at the last slide, stays on a slide, and the page shows it; at the last slide nothing on the page changes |
| Carousel.CeoCarousel.DotClicked | script.js:88-92 | the index jumps to the dot's slide, and the page shows it |
| LanguageSwitcher.LanguageBar.Clicked | script.js:97-103 | exactly the clicked button is active |
| Testimonials.AdvanceOnCard | script.js:129-132 | a tick moves to the next card, or from the last card back to the first |
| Testimonials.Wrap | script.js:129-132 | the wrapped count always names a card |
| Testimonials.WrapSucc | script.js:129-132 | one more tick moves the wrapped count by one card |
| Testimonials.AdvanceTimesIsWrap | script.js:129-132 | `k` ticks from a card reach the start plus `k`, wrapped round the cards |
| Testimonials.FullCycle | script.js:129-132 | the rotation stays on the cards and returns to its start after one tick per card |
| Testimonials.TestimonialSlider.constructor | script.js:106-108 | the index starts at 1 and the markup's classes stand until the first update |
| Testimonials.TestimonialSlider.Update | script.js:110-126 | the current card is active and every other card blurred; only the current dot is active |
| Testimonials.TestimonialSlider.Tick | script.js:129-132 | the index advances modulo the number of cards, then names a card, and the page shows it |
| Testimonials.TestimonialSlider.DotClicked | script.js:135-140 | the index jumps to the dot's card and the page shows it |
| Faq.Toggled | script.js:188-200 | the toggle keeps the number of items |
| Faq.ToggleLeavesAtMostOne | script.js:188-200 | after a toggle at most one item is open |
| Faq.ToggleClosedOpensOnlyIt | script.js:188-200 | clicking a closed item leaves it the only open one |
| Faq.ToggleOpenClosesAll | script.js:188-200 | clicking the open item closes every item |
| Faq.FaqList.Toggle | script.js:188-200 | the items' flags become `Toggled` of the old flags |
| Faq.FaqList.Escape | script.js:203-213 | Escape closes every item |
| Pipeline.ClientRequestPassesServer | script.js:373-388 | whatever the browser sends passes the server's checks; the provider alone decides between 200 and 500; the email's subject line and phone text are those of formatEmailContent |
| Pipeline.ResetExactlyWhenDelivered | script.js:310-328 | for a request the browser sends, the form is reset exactly when the provider accepted the email |
| Pipeline.ParsedReply | script.js:406-410 | a reply whose JSON body parses counts as delivered, and is returned rather than thrown, exactly when its status is in 200-299 |
| Pipeline.ServerAcceptsBlankTheClientRefuses | api/send-email.js:36-42 | a company name of one space is refused in the browser but accepted by the endpoint, which does not trim |
| Pipeline.AddressMatches | api/send-email.js:45-46 | the address jo@acme.com matches the pattern |
| Pipeline.SupportRequestExample | api/send-email.js:54-70 | a support request from Acme gets the subject "Contact Form: Technical Support - Acme" and a message box with its line break as `<br>` |

## Left out

- Logging (`console.log`, `console.error`) and the error stack: they change nothing the caller sees.
- The provider SDK and `fetch`. Both are parameters: `ProviderOutcome` says whether the send call returned or threw, and `HttpResponse` is the fetch response. A fetch that rejects outright (a network failure) is not modelled; the source handles it like a non-ok status.
- The provider API key (api/send-email.js:87-94). It is a secret and is not reproduced. Because the code falls back to a literal key, its "not configured" error cannot be raised.
- The fallback recipient address (api/send-email.js:101) is not reproduced. It is the parameter `Env.fallbackRecipient`.
- The clock. The footer's formatted date is the parameter `timestamp`.
- Server.EmailHtml: the template's style sheet, whitespace and emoji are abbreviated. The embedded values, their order and the newline replacement are modelled. The sent email carries its `html` as the `Page` of template arguments, and `Server.EmailHtml` renders it.
- Server.Respond: request bodies whose properties are not strings (numbers, objects) are not modelled. Each field is a string or absent.
- Server.Respond: the subject line applies the intended lookup `Subjects.SubjectText`, not the code as written. As written, a subject code that names an inherited property, such as "constructor", embeds that property's value, giving `Contact Form: function Object() { [native code] } - Acme`; `Subjects.SubjectTextAsWritten` models that read (see Findings).
- Server.Handler: the same applies to the email it hands the provider, which is the one `Respond` builds.
- ContactForm.FormatEmailContent: only the subject line and the phone default are modelled. The plain-text body is never sent: `sendEmailWithVercel` is called with `null` in its place.
- ContactForm.FormatEmailContent: the subject line applies the intended lookup `Subjects.SubjectText`; as written, a subject code naming an inherited property embeds that property's value (see Findings).
- ContactForm.Form.Complete: `form.reset()` is modelled as restoring a fixed set of default values.
- Notifications.NotificationArea.Show: the markup, the inline styles, the slide animations and the 300 ms removal delay are not modelled. A notification holds its kind and message; its icon and colours are functions of its kind.
- Notifications.Icon and Notifications.Style: a kind that names an inherited property of `Object.prototype` is not modelled. The page only passes the four listed kinds.
- Carousel.CeoCarousel: the prev and next buttons are assumed present. The source guards each with `if (prevBtn)` and `if (nextBtn)`.
- Testimonials.TestimonialSlider.constructor: requires at least one card. With none, the tick's `% 0` yields NaN, which is not modelled.
- The page's form submit button is assumed present (`submitBtn` is dereferenced without a check).
- Smooth scrolling, the mobile menu, focus styles, print styles, the scroll observer and the notification keyframes: presentation only, with no state the core depends on.
- The EmailJS alternative: it is commented out in the source.
- Submit reply: the browser never reads the reply's `success` flag. It decides success on the HTTP status alone, so a 2xx reply with `success: false` still shows the thank-you notification and resets the form (`ContactForm.SendWithVercel`).

## Findings

| source | as written | input that shows it | evidently intended | confidence | as-written member | corrected member |
|---|---|---|---|---|---|---|
| api/send-email.js:252-260 (and script.js:363-371) | `subjects[subjectValue] \|\| 'General Inquiry'` reads through the prototype chain | subject code "constructor": the read yields the inherited `Object` function, which is truthy, so the email's subject line embeds that function's source text instead of "General Inquiry" | every code outside the four own keys falls back to "General Inquiry" | not executed | Subjects.InheritedCodeEscapesDefault | Subjects.SubjectText |
