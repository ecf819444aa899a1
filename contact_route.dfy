/**
 * The contact endpoint, `POST /api/contact`: check three mandatory members of
 * the JSON body, build a staff notification and an auto-reply, hand them to
 * the mail relay in that order, and answer 200, 400 or 500.
 *
 * `Handle` is the whole request as a function of the body, the environment
 * and the relay's answers; `Post` is the same request written as the ordered
 * effects it is, against a `MailRelay` object that logs what it accepts.
 */
module ContactRoute {
  import opened Optional
  import opened Wire

  // ---------------------------------------------------------------- responses

  datatype Reply = Succeeded | Error(message: string)

  /** An HTTP status with its JSON body (`{success: true}` or `{error: ...}`). */
  datatype Response = Response(status: int, reply: Reply)

  const MissingFieldsError := "Missing required fields"
  const SendFailedError := "Failed to send message"

  const Ok := Response(200, Succeeded)
  const BadRequest := Response(400, Error(MissingFieldsError))
  const ServerError := Response(500, Error(SendFailedError))

  // ---------------------------------------------------------------- environment

  /**
   * What the handler takes from outside the request: the FROM_EMAIL and
   * ADMIN_EMAIL settings, the clock's `toLocaleString()` text, and the
   * server's `toLocaleDateString()` rendering of the submitted date.
   */
  datatype Env = Env(fromAddress: string, adminAddress: string, submittedAt: string, dateShown: string)

  // ---------------------------------------------------------------- email content

  /** The fixed headings of the two email bodies. */
  datatype Heading =
    | SubmissionTitle     // "New Contact Form Submission"
    | PropertyInquiry     // "Property Inquiry"
    | ContactDetails      // "Contact Details"
    | MessageHeading      // "Message"
    | ThankYouTitle       // "Thank You for Your Inquiry!"
    | InquiryDetails      // "Your Inquiry Details"

  /** The captions of the `<strong>Caption:</strong> value` entries. */
  datatype Caption = NameCaption | EmailCaption | PhoneCaption | ServiceCaption | PropertyCaption | DateCaption

  /** One block of an email body; the markup and styling around it are not modelled. */
  datatype Line =
    | Title(heading: Heading)
    | Item(caption: Caption, value: string)
    | Greeting(name: string)      // "Dear <name>,"
    | Para(text: string)

  type Html = seq<Line>

  const SubmittedOnText := "Submitted on "
  const AdminFooterText := "Cohousy - Premium Co-living Spaces"
  const ThanksText := "Thank you for your interest in Cohousy! We received your message and will respond within 24 hours."
  const SignOffText := "Best regards, Team Cohousy"
  const UserFooterText := "Cohousy - Redefining Urban Living"

  /** Some entry of the body carries this caption, whatever its value. */
  predicate HasCaption(h: Html, caption: Caption) {
    exists i :: 0 <= i < |h| && h[i].Item? && h[i].caption == caption
  }

  datatype Mail = Mail(from: string, to: string, subject: string, html: Html)

  /** `message.replace(/\n/g, '<br>')`: every line feed becomes a `<br>` tag. */
  function ReplaceNewlines(s: string): (r: string)
    ensures '\n' !in r
    ensures '\n' !in s ==> r == s
  {
    if s == [] then []
    else
      assert s == [s[0]] + s[1..];
      (if s[0] == '\n' then "<br>" else [s[0]]) + ReplaceNewlines(s[1..])
  }

  /** How a reader of the notification takes the message back: each `<br>` as a line feed. */
  function RestoreNewlines(t: string): string {
    if t == [] then []
    else if |t| >= 4 && t[..4] == "<br>" then "\n" + RestoreNewlines(t[4..])
    else [t[0]] + RestoreNewlines(t[1..])
  }

  /** A leading `<br>` reads back as one line feed. */
  lemma RestoreAfterTag(rest: string)
    ensures RestoreNewlines("<br>" + rest) == "\n" + RestoreNewlines(rest)
  {
    var t := "<br>" + rest;
    assert t[..4] == "<br>" && t[4..] == rest;
  }

  /** Any other leading character reads back as itself. */
  lemma RestoreAfterChar(c: char, rest: string)
    requires c != '<'
    ensures RestoreNewlines([c] + rest) == [c] + RestoreNewlines(rest)
  {
    var t := [c] + rest;
    assert t[0] == c && t[1..] == rest;
    assert |t| >= 4 ==> t[..4][0] == c;
  }

  /** A message without '<' is recovered exactly from its HTML form. */
  lemma {:induction false} RestoreReplacedNewlines(s: string)
    requires '<' !in s
    ensures RestoreNewlines(ReplaceNewlines(s)) == s
  {
    if s != [] {
      RestoreReplacedNewlines(s[1..]);
      var rest := ReplaceNewlines(s[1..]);
      assert s == [s[0]] + s[1..];
      if s[0] == '\n' {
        RestoreAfterTag(rest);
      } else {
        RestoreAfterChar(s[0], rest);
      }
    }
  }

  /** Without that condition the replacement loses information: a typed `<br>` reads as a line break. */
  lemma BreakTagAndNewlineLookAlike()
    ensures ReplaceNewlines("\n") == ReplaceNewlines("<br>") == "<br>"
  {
    assert '\n' !in "<br>";
  }

  const SubjectPrefix := "New Contact Form Submission - "
  const AutoReplySubject := "Thank you for your inquiry - Cohousy"

  /**
   * The staff subject line: the prefix and the service type, then
   * `" - " + propertyName` only when the property name is truthy.
   */
  function AdminSubject(serviceType: Field, propertyName: Field): (r: string)
    requires Renders(serviceType) && (Truthy(propertyName) ==> Renders(propertyName))
    ensures |r| >= |SubjectPrefix + Shown(serviceType)|
    ensures r[..|SubjectPrefix + Shown(serviceType)|] == SubjectPrefix + Shown(serviceType)
    ensures Truthy(propertyName) <==> |r| > |SubjectPrefix + Shown(serviceType)|
    ensures Truthy(propertyName) ==>
      |r| >= |Shown(propertyName)| + 3 && r[|r| - |Shown(propertyName)| - 3..] == " - " + Shown(propertyName)
  {
    SubjectPrefix + Shown(serviceType) + (if Truthy(propertyName) then " - " + Shown(propertyName) else "")
  }

  /** Subjects for one service tell the property apart: equal subjects mean the same property, or none. */
  lemma SubjectIdentifiesProperty(serviceType: Field, p: Field, q: Field)
    requires Renders(serviceType) && (Truthy(p) ==> Renders(p)) && (Truthy(q) ==> Renders(q))
    requires AdminSubject(serviceType, p) == AdminSubject(serviceType, q)
    ensures Truthy(p) <==> Truthy(q)
    ensures Truthy(p) ==> Shown(p) == Shown(q)
  {
    var head := SubjectPrefix + Shown(serviceType);
    var a := if Truthy(p) then " - " + Shown(p) else "";
    var b := if Truthy(q) then " - " + Shown(q) else "";
    assert AdminSubject(serviceType, p) == head + a;
    assert AdminSubject(serviceType, q) == head + b;
    SameHeadSameTail(head, a, b);
    if Truthy(p) && Truthy(q) {
      SameHeadSameTail(" - ", Shown(p), Shown(q));
    }
  }

  /** Two texts with the same beginning are equal only if what follows is. */
  lemma SameHeadSameTail(head: string, a: string, b: string)
    requires head + a == head + b
    ensures a == b
  {
    assert (head + a)[|head|..] == a;
    assert (head + b)[|head|..] == b;
  }

  /** The entries of `a + b` are those of `a` and those of `b`. */
  lemma CaptionsOfConcat(a: Html, b: Html, caption: Caption)
    ensures HasCaption(a + b, caption) <==> HasCaption(a, caption) || HasCaption(b, caption)
  {
    if HasCaption(a + b, caption) {
      var i :| 0 <= i < |a + b| && (a + b)[i].Item? && (a + b)[i].caption == caption;
      if i >= |a| {
        assert b[i - |a|] == (a + b)[i];
      } else {
        assert a[i] == (a + b)[i];
      }
    }
    if HasCaption(b, caption) {
      var i :| 0 <= i < |b| && b[i].Item? && b[i].caption == caption;
      assert (a + b)[|a| + i] == b[i];
    }
    if HasCaption(a, caption) {
      var i :| 0 <= i < |a| && a[i].Item? && a[i].caption == caption;
      assert (a + b)[i] == a[i];
    }
  }

  /**
   * Every member the two bodies and the subject interpolate converts to text:
   * name, email, phone and service always, the property name and the date
   * when they are truthy.
   */
  predicate Renderable(s: Submission) {
    Renders(s.name) && Renders(s.email) && Renders(s.phone) && Renders(s.serviceType) &&
    (Truthy(s.propertyName) ==> Renders(s.propertyName)) &&
    (Truthy(s.preferredDate) ==> Renders(s.preferredDate))
  }

  /** The banner naming the property, present only for a property inquiry. */
  function AdminBanner(propertyName: Field): Html
    requires Truthy(propertyName) ==> Renders(propertyName)
  {
    if Truthy(propertyName) then [Title(PropertyInquiry), Para(Shown(propertyName))] else []
  }

  /** Name, email, phone and service, always present. */
  function AdminDetails(s: Submission): Html
    requires Renderable(s)
  {
    [Title(ContactDetails), Item(NameCaption, Shown(s.name)), Item(EmailCaption, Shown(s.email)),
     Item(PhoneCaption, Shown(s.phone)), Item(ServiceCaption, Shown(s.serviceType))]
  }

  /** The "Preferred Date" entry, shared by both bodies, present only when a date was submitted. */
  function DateEntry(preferredDate: Field, env: Env): Html {
    if Truthy(preferredDate) then [Item(DateCaption, env.dateShown)] else []
  }

  /** The message block, with line feeds turned into `<br>`; None when `message` is truthy but not a string. */
  function MessageBlock(message: Field): (r: Option<Html>)
    ensures r.None? <==> Truthy(message) && !message.Text?
    ensures r.Some? ==> (Title(MessageHeading) in r.value <==> Truthy(message))
  {
    if !Truthy(message) then Some([])
    else if message.Text? then Some([Title(MessageHeading), Para(ReplaceNewlines(message.s))])
    else None
  }

  /**
   * The staff notification, or None when building it throws: a member that
   * does not convert to text, or a truthy `message` that is not a string
   * (it has no `replace`).
   */
  function AdminHtml(s: Submission, env: Env): (r: Option<Html>)
    ensures r.None? <==> !Renderable(s) || (Truthy(s.message) && !s.message.Text?)
  {
    if !Renderable(s) then None
    else match MessageBlock(s.message)
    case None => None
    case Some(message) =>
      Some([Title(SubmissionTitle)] + AdminBanner(s.propertyName) + AdminDetails(s) +
           DateEntry(s.preferredDate, env) + message +
           [Para(SubmittedOnText + env.submittedAt), Para(AdminFooterText)])
  }

  /** The staff notification lists every mandatory member and the service type. */
  lemma AdminHtmlListsContact(s: Submission, env: Env)
    requires AdminHtml(s, env).Some?
    ensures var h := AdminHtml(s, env).value;
      Item(NameCaption, Shown(s.name)) in h && Item(EmailCaption, Shown(s.email)) in h &&
      Item(PhoneCaption, Shown(s.phone)) in h && Item(ServiceCaption, Shown(s.serviceType)) in h
  {
    var h := AdminHtml(s, env).value;
    var k := 1 + |AdminBanner(s.propertyName)|;
    assert h[k + 1] == Item(NameCaption, Shown(s.name));
    assert h[k + 2] == Item(EmailCaption, Shown(s.email));
    assert h[k + 3] == Item(PhoneCaption, Shown(s.phone));
    assert h[k + 4] == Item(ServiceCaption, Shown(s.serviceType));
  }

  /** The "Property Inquiry" banner appears, naming the property, exactly when the property name is truthy. */
  lemma AdminBannerIffProperty(s: Submission, env: Env)
    requires AdminHtml(s, env).Some?
    ensures Title(PropertyInquiry) in AdminHtml(s, env).value <==> Truthy(s.propertyName)
    ensures Truthy(s.propertyName) ==> Para(Shown(s.propertyName)) in AdminHtml(s, env).value
  {
    var h := AdminHtml(s, env).value;
    if Truthy(s.propertyName) {
      assert h[1] == Title(PropertyInquiry);
      assert h[2] == Para(Shown(s.propertyName));
    } else {
      var message := MessageBlock(s.message).value;
      assert Title(PropertyInquiry) !in message;
    }
  }

  /** The "Preferred Date" entry appears in the staff notification exactly when a date was submitted. */
  lemma AdminDateIffPreferredDate(s: Submission, env: Env)
    requires AdminHtml(s, env).Some?
    ensures HasCaption(AdminHtml(s, env).value, DateCaption) <==> Truthy(s.preferredDate)
    ensures Truthy(s.preferredDate) ==> Item(DateCaption, env.dateShown) in AdminHtml(s, env).value
  {
    var message := MessageBlock(s.message).value;
    var front := [Title(SubmissionTitle)] + AdminBanner(s.propertyName) + AdminDetails(s);
    var back := [Para(SubmittedOnText + env.submittedAt), Para(AdminFooterText)];
    var date := DateEntry(s.preferredDate, env);
    assert AdminHtml(s, env).value == front + date + message + back;
    CaptionsOfConcat(front + date + message, back, DateCaption);
    CaptionsOfConcat(front + date, message, DateCaption);
    CaptionsOfConcat(front, date, DateCaption);
    CaptionsOfConcat([Title(SubmissionTitle)] + AdminBanner(s.propertyName), AdminDetails(s), DateCaption);
    CaptionsOfConcat([Title(SubmissionTitle)], AdminBanner(s.propertyName), DateCaption);
    assert !HasCaption(message, DateCaption);
    assert !HasCaption(back, DateCaption);
    assert !HasCaption(AdminDetails(s), DateCaption);
    if Truthy(s.preferredDate) {
      assert date[0] == Item(DateCaption, env.dateShown);
    }
  }

  /** The message block appears exactly when the message is truthy, with every line feed as `<br>`. */
  lemma AdminMessageIffMessage(s: Submission, env: Env)
    requires AdminHtml(s, env).Some?
    ensures Title(MessageHeading) in AdminHtml(s, env).value <==> Truthy(s.message)
    ensures Truthy(s.message) ==> s.message.Text? && Para(ReplaceNewlines(s.message.s)) in AdminHtml(s, env).value
  {
    var message := MessageBlock(s.message).value;
    var front := [Title(SubmissionTitle)] + AdminBanner(s.propertyName) + AdminDetails(s) + DateEntry(s.preferredDate, env);
    var back := [Para(SubmittedOnText + env.submittedAt), Para(AdminFooterText)];
    assert AdminHtml(s, env).value == front + message + back;
    assert Title(MessageHeading) !in front;
    if Truthy(s.message) {
      assert message[0] == Title(MessageHeading);
      assert message[1] == Para(ReplaceNewlines(s.message.s));
    }
  }

  /** The auto-reply to the submitter. */
  function UserHtml(s: Submission, env: Env): (r: Html)
    requires Renderable(s)
    ensures Greeting(Shown(s.name)) in r
    ensures Item(ServiceCaption, Shown(s.serviceType)) in r
  {
    [Title(ThankYouTitle), Greeting(Shown(s.name)), Para(ThanksText), Title(InquiryDetails),
     Item(ServiceCaption, Shown(s.serviceType))] +
    (if Truthy(s.propertyName) then [Item(PropertyCaption, Shown(s.propertyName))] else []) +
    DateEntry(s.preferredDate, env) +
    [Para(SignOffText), Para(UserFooterText)]
  }

  /** The auto-reply names the property, and carries a Property entry at all, exactly when the property name is truthy. */
  lemma UserPropertyIffProperty(s: Submission, env: Env)
    requires Renderable(s)
    ensures HasCaption(UserHtml(s, env), PropertyCaption) <==> Truthy(s.propertyName)
    ensures Truthy(s.propertyName) ==> Item(PropertyCaption, Shown(s.propertyName)) in UserHtml(s, env)
  {
    var head := [Title(ThankYouTitle), Greeting(Shown(s.name)), Para(ThanksText), Title(InquiryDetails),
                 Item(ServiceCaption, Shown(s.serviceType))];
    var property := if Truthy(s.propertyName) then [Item(PropertyCaption, Shown(s.propertyName))] else [];
    var date := DateEntry(s.preferredDate, env);
    var tail := [Para(SignOffText), Para(UserFooterText)];
    assert UserHtml(s, env) == head + property + date + tail;
    CaptionsOfConcat(head + property + date, tail, PropertyCaption);
    CaptionsOfConcat(head + property, date, PropertyCaption);
    CaptionsOfConcat(head, property, PropertyCaption);
    assert !HasCaption(head, PropertyCaption);
    assert !HasCaption(date, PropertyCaption);
    assert !HasCaption(tail, PropertyCaption);
    if Truthy(s.propertyName) {
      assert property[0] == Item(PropertyCaption, Shown(s.propertyName));
    }
  }

  /** The auto-reply carries the "Preferred Date" entry exactly when a date was submitted. */
  lemma UserDateIffPreferredDate(s: Submission, env: Env)
    requires Renderable(s)
    ensures HasCaption(UserHtml(s, env), DateCaption) <==> Truthy(s.preferredDate)
    ensures Truthy(s.preferredDate) ==> Item(DateCaption, env.dateShown) in UserHtml(s, env)
  {
    var head := [Title(ThankYouTitle), Greeting(Shown(s.name)), Para(ThanksText), Title(InquiryDetails),
                 Item(ServiceCaption, Shown(s.serviceType))];
    var property := if Truthy(s.propertyName) then [Item(PropertyCaption, Shown(s.propertyName))] else [];
    var date := DateEntry(s.preferredDate, env);
    var tail := [Para(SignOffText), Para(UserFooterText)];
    assert UserHtml(s, env) == head + property + date + tail;
    CaptionsOfConcat(head + property + date, tail, DateCaption);
    CaptionsOfConcat(head + property, date, DateCaption);
    CaptionsOfConcat(head, property, DateCaption);
    assert !HasCaption(head, DateCaption);
    assert !HasCaption(property, DateCaption);
    assert !HasCaption(tail, DateCaption);
    if Truthy(s.preferredDate) {
      assert date[0] == Item(DateCaption, env.dateShown);
    }
  }

  function AdminMail(s: Submission, env: Env, html: Html): Mail
    requires Renderable(s)
  {
    Mail(env.fromAddress, env.adminAddress, AdminSubject(s.serviceType, s.propertyName), html)
  }

  function AutoReply(s: Submission, env: Env): Mail
    requires Renderable(s)
  {
    Mail(env.fromAddress, Shown(s.email), AutoReplySubject, UserHtml(s, env))
  }

  // ---------------------------------------------------------------- the request

  /** The relay's answer to the `i`-th `sendMail` call of a request; a call past the script fails. */
  predicate Delivers(relay: seq<bool>, i: nat) {
    i < |relay| && relay[i]
  }

  /** What one request ends in: the response, the messages the relay accepted, and how many sends were tried. */
  datatype Outcome = Outcome(response: Response, sent: seq<Mail>, attempts: nat)

  /** One request, start to finish. */
  function Handle(body: Body, env: Env, relay: seq<bool>): (out: Outcome)
    ensures out.response == Ok || out.response == BadRequest || out.response == ServerError
    ensures |out.sent| <= out.attempts <= 2
    ensures out.response == Ok <==> |out.sent| == 2
    ensures forall i :: 0 <= i < |out.sent| ==> Delivers(relay, i)
  {
    match body
    case Malformed => Outcome(ServerError, [], 0)
    case Json(s) =>
      if !HasRequired(s) then Outcome(BadRequest, [], 0)
      else match AdminHtml(s, env)
        case None => Outcome(ServerError, [], 0)
        case Some(html) => Dispatch(AdminMail(s, env, html), AutoReply(s, env), relay)
  }

  /** The two awaited sends: the staff notification, then the auto-reply; the first failure ends the request with 500. */
  function Dispatch(admin: Mail, reply: Mail, relay: seq<bool>): (out: Outcome)
    ensures out.response == Ok || out.response == ServerError
    ensures 1 <= out.attempts <= 2 && |out.sent| <= out.attempts
    ensures out.response == Ok <==> |out.sent| == 2
    ensures out.sent == [admin, reply][..|out.sent|]
    ensures forall i :: 0 <= i < |out.sent| ==> Delivers(relay, i)
  {
    if !Delivers(relay, 0) then Outcome(ServerError, [], 1)
    else if !Delivers(relay, 1) then Outcome(ServerError, [admin], 2)
    else Outcome(Ok, [admin, reply], 2)
  }

  /** A falsy name, email or phone is answered 400 before any mail is built or sent. */
  lemma MissingFieldsRejected(s: Submission, env: Env, relay: seq<bool>)
    requires !HasRequired(s)
    ensures Handle(Json(s), env, relay) == Outcome(BadRequest, [], 0)
  {
  }

  /** 400 is the answer to missing mandatory members and to nothing else. */
  lemma BadRequestOnlyForMissingFields(body: Body, env: Env, relay: seq<bool>)
    ensures Handle(body, env, relay).response.status == 400 <==> body.Json? && !HasRequired(body.submission)
  {
  }

  /** A body that does not parse is caught by the outer handler: 500, not 400, and no mail. */
  lemma MalformedBodyIsServerError(env: Env, relay: seq<bool>)
    ensures Handle(Malformed, env, relay) == Outcome(ServerError, [], 0)
  {
  }

  /** The first message sent is the staff notification, from the configured sender to the admin address. */
  lemma AdminMailGoesFirst(body: Body, env: Env, relay: seq<bool>)
    ensures var out := Handle(body, env, relay);
      |out.sent| >= 1 ==>
        body.Json? && HasRequired(body.submission) && Renderable(body.submission) &&
        out.sent[0].from == env.fromAddress && out.sent[0].to == env.adminAddress &&
        out.sent[0].subject == AdminSubject(body.submission.serviceType, body.submission.propertyName) &&
        Some(out.sent[0].html) == AdminHtml(body.submission, env)
  {
  }

  /** The second message is the auto-reply, from the same sender to the submitted email, with the fixed subject. */
  lemma AutoReplyGoesSecond(body: Body, env: Env, relay: seq<bool>)
    ensures var out := Handle(body, env, relay);
      |out.sent| == 2 ==>
        body.Json? && Renderable(body.submission) &&
        out.sent[1].from == out.sent[0].from == env.fromAddress &&
        out.sent[1].to == Shown(body.submission.email) &&
        out.sent[1].subject == AutoReplySubject &&
        out.sent[1].html == UserHtml(body.submission, env)
  {
  }

  /** A member that does not convert to text makes building the staff body throw: 500 before any send. */
  lemma UnrenderableMemberIsServerError(s: Submission, env: Env, relay: seq<bool>)
    requires HasRequired(s) && !Renderable(s)
    ensures Handle(Json(s), env, relay) == Outcome(ServerError, [], 0)
  {
  }

  /** When the first send fails the second is never attempted. */
  lemma FirstSendFailureAborts(s: Submission, env: Env, relay: seq<bool>)
    requires HasRequired(s) && AdminHtml(s, env).Some?
    requires !Delivers(relay, 0)
    ensures Handle(Json(s), env, relay) == Outcome(ServerError, [], 1)
  {
  }

  /** When the second send fails the staff notification has gone out, yet the caller sees the same 500. */
  lemma SecondSendFailure(s: Submission, env: Env, relay: seq<bool>)
    requires HasRequired(s) && AdminHtml(s, env).Some?
    requires Delivers(relay, 0) && !Delivers(relay, 1)
    ensures Handle(Json(s), env, relay) == Outcome(ServerError, [AdminMail(s, env, AdminHtml(s, env).value)], 2)
  {
  }

  /** The two dispatch failures cannot be told apart from the response. */
  lemma DispatchFailuresLookAlike(s: Submission, env: Env, first: seq<bool>, second: seq<bool>)
    requires HasRequired(s) && AdminHtml(s, env).Some?
    requires !Delivers(first, 0)
    requires Delivers(second, 0) && !Delivers(second, 1)
    ensures Handle(Json(s), env, first).response == Handle(Json(s), env, second).response == ServerError
  {
  }

  /** 200 exactly when validation passed, both bodies were built and both sends succeeded. */
  lemma SuccessIffBothDelivered(body: Body, env: Env, relay: seq<bool>)
    ensures Handle(body, env, relay).response == Ok <==>
      body.Json? && HasRequired(body.submission) && AdminHtml(body.submission, env).Some? &&
      Delivers(relay, 0) && Delivers(relay, 1)
  {
  }

  /** A submission with name, email, phone and a service type, on a healthy relay. */
  lemma ScenarioPlainInquiry(env: Env)
    ensures var s := Submission(Text("Asha"), Text("asha@example.com"), Text("9000000000"), Absent,
                                Text("Co-living"), Absent, Absent);
      var out := Handle(Json(s), env, [true, true]);
      out.response == Ok && |out.sent| == 2 &&
      out.sent[0].subject == "New Contact Form Submission - Co-living" &&
      out.sent[1].to == "asha@example.com"
  {
  }

  /** A property inquiry: the staff mail carries the banner, the auto-reply the Property line. */
  lemma ScenarioPropertyInquiry(env: Env)
    ensures var s := Submission(Text("Asha"), Text("asha@example.com"), Text("9000000000"), Absent,
                                Text("Co-living"), Absent, Text("Skyline Residency"));
      var out := Handle(Json(s), env, [true, true]);
      out.response == Ok &&
      out.sent[0].subject == SubjectPrefix + "Co-living" + " - " + "Skyline Residency" &&
      Title(PropertyInquiry) in out.sent[0].html && Para("Skyline Residency") in out.sent[0].html &&
      Item(PropertyCaption, "Skyline Residency") in out.sent[1].html
  {
    var s := Submission(Text("Asha"), Text("asha@example.com"), Text("9000000000"), Absent,
                        Text("Co-living"), Absent, Text("Skyline Residency"));
    AdminBannerIffProperty(s, env);
    UserPropertyIffProperty(s, env);
  }

  /** A name sent as `{"toString": 1}` is truthy, passes validation, and then cannot be interpolated: 500, no mail. */
  lemma ScenarioUnconvertibleName(env: Env)
    ensures var s := Submission(NonText(true, None), Text("a@x"), Text("1"), Absent, Absent, Absent, Absent);
      HasRequired(s) && Handle(Json(s), env, [true, true]) == Outcome(ServerError, [], 0)
  {
  }

  // ---------------------------------------------------------------- the effects

  /** The outbound relay: it answers each `sendMail` from its script and logs what it accepts. */
  class MailRelay {
    /** Whether each coming `sendMail` call succeeds, in call order. */
    var script: seq<bool>
    /** Every message accepted so far, oldest first. */
    var sent: seq<Mail>

    constructor (script: seq<bool>)
      ensures this.script == script && sent == []
    {
      this.script := script;
      sent := [];
    }

    method SendMail(m: Mail) returns (ok: bool)
      modifies this
      ensures ok == Delivers(old(script), 0)
      ensures script == Drop(old(script), 1)
      ensures sent == old(sent) + (if ok then [m] else [])
    {
      ok := Delivers(script, 0);
      script := Drop(script, 1);
      if ok {
        sent := sent + [m];
      }
    }
  }

  /** The script left after `n` calls. */
  function Drop(s: seq<bool>, n: nat): seq<bool> {
    if n <= |s| then s[n..] else []
  }

  /** The `POST` handler: validation, the two awaited sends in order, and the early returns. */
  method Post(body: Body, env: Env, relay: MailRelay) returns (response: Response)
    modifies relay
    ensures var out := Handle(body, env, old(relay.script));
      response == out.response &&
      relay.sent == old(relay.sent) + out.sent &&
      relay.script == Drop(old(relay.script), out.attempts)
  {
    if body.Malformed? {
      return ServerError;
    }
    var s := body.submission;
    if !HasRequired(s) {
      return BadRequest;
    }
    var adminHtml := AdminHtml(s, env);
    if adminHtml.None? {
      return ServerError;
    }
    var ok := relay.SendMail(AdminMail(s, env, adminHtml.value));
    if !ok {
      return ServerError;
    }
    ghost var afterFirst := relay.script;
    ok := relay.SendMail(AutoReply(s, env));
    assert ok == Delivers(old(relay.script), 1);
    assert Drop(afterFirst, 1) == Drop(old(relay.script), 2);
    if !ok {
      return ServerError;
    }
    return Ok;
  }

  /** No request remembers another: the same valid body posted twice is mailed twice. */
  method PostTwice(body: Body, env: Env, relay: MailRelay) returns (first: Response, second: Response)
    requires body.Json? && HasRequired(body.submission) && AdminHtml(body.submission, env).Some?
    requires |relay.script| >= 4 && relay.script[0] && relay.script[1] && relay.script[2] && relay.script[3]
    modifies relay
    ensures first == second == Ok
    ensures |relay.sent| == |old(relay.sent)| + 4
    ensures relay.sent[|old(relay.sent)|..] == Handle(body, env, [true, true]).sent + Handle(body, env, [true, true]).sent
  {
    first := Post(body, env, relay);
    second := Post(body, env, relay);
  }
}
