/**
  The serverless mail relay (netlify/functions/sendEmail.ts): one request in,
  one response out, no memory between requests. The email provider's answer
  is an input to the handler, and the handler reports the email it would hand
  to the provider, so "the provider is invoked" means `dispatched.Some?`.
 */
module MailRelay {
  import opened Wrappers
  import opened TextLines

  /**
    The fields the handler destructures from the parsed body. A field that is
    absent or `null` is None; field values are taken to be strings.
   */
  datatype Payload = Payload(
    name: Option<string>, email: Option<string>, subject: Option<string>,
    message: Option<string>, hp: Option<string>)

  const EmptyPayload: Payload := Payload(None, None, None, None, None)

  /**
    The request body as `JSON.parse(event.body || '{}')` sees it: missing or
    empty (parsed as `{}`), text that does not parse (with the parser's error
    message), or a parsed value, None when that value is `null`.
   */
  datatype Body = NoBody | Unparseable(error: string) | Parsed(payload: Option<Payload>)

  datatype RelayEvent = RelayEvent(httpMethod: string, body: Body)

  /** The provider's answer to a send: delivered, an `error` in its result, or a thrown exception. */
  datatype ProviderResult = Delivered | ProviderError(message: string) | ProviderThrew(message: string)

  datatype Email = Email(from: string, to: string, replyTo: string, subject: string, text: string)

  /** A plain-text body, or the JSON object `{ok}` / `{ok, error}`. */
  datatype ResponseBody = PlainText(text: string) | Reply(ok: bool, error: Option<string>)

  /** `jsonHeaders` says whether the `Content-Type: application/json` header is attached. */
  datatype Response = Response(statusCode: nat, jsonHeaders: bool, body: ResponseBody)

  /** The response, and the email handed to the provider if the handler got that far. */
  datatype Outcome = Outcome(response: Response, dispatched: Option<Email>)

  const Sender: string := "Portfolio Contact <onboarding@resend.dev>"
  const Recipient: string := "shawavatritya@gmail.com"
  const SubjectPrefix: string := "Portfolio Contact: "
  const MissingFields: string := "Missing required fields"
  const DefaultProviderError: string := "Resend error"
  const DefaultCatchError: string := "Failed to send"

  /** JavaScript truthiness of an optional string field. */
  predicate Truthy(v: Option<string>)
  {
    v.Some? && v.value != ""
  }

  /** `payload || {}`: the fields of the parsed body, all absent when nothing or `null` was sent. */
  function Fields(body: Body): (p: Payload)
    requires !body.Unparseable?
    ensures body.Parsed? && body.payload.Some? ==> p == body.payload.value
    ensures body.NoBody? || body.payload.None? ==> !Truthy(p.name) && !Truthy(p.hp)
  {
    match body
    case NoBody => EmptyPayload
    case Parsed(payload) => payload.GetOr(EmptyPayload)
  }

  predicate HasAllFields(p: Payload)
  {
    Truthy(p.name) && Truthy(p.email) && Truthy(p.subject) && Truthy(p.message)
  }

  /** The lines of the email text; the meta block and the receipt time come in already rendered. */
  function EmailLines(name: string, email: string, subject: string, message: string,
                      metaJson: string, receivedAt: string): (lines: seq<string>)
    ensures |lines| == 10
    ensures lines[..8] == ["Nama: " + name, "Email: " + email, "Subjek: " + subject, "", "Pesan:", message, "", "---"]
  {
    ["Nama: " + name, "Email: " + email, "Subjek: " + subject, "", "Pesan:", message, "", "---",
     "Meta: " + metaJson, "Dikirim pada: " + receivedAt]
  }

  /** The email text: the ten lines joined with `\n`, each line followed by a newline except the last. */
  function EmailText(name: string, email: string, subject: string, message: string,
                     metaJson: string, receivedAt: string): (text: string)
    ensures text == "Nama: " + name + "\n" + ("Email: " + email + "\n" + ("Subjek: " + subject + "\n" + ("" + "\n"
                  + ("Pesan:" + "\n" + (message + "\n" + ("" + "\n" + ("---" + "\n"
                  + ("Meta: " + metaJson + "\n" + ("Dikirim pada: " + receivedAt)))))))))
  {
    var lines := EmailLines(name, email, subject, message, metaJson, receivedAt);
    JoinTen(lines, '\n');
    Join(lines, '\n')
  }

  /** Ten lines joined, written out. */
  lemma JoinTen(ls: seq<string>, sep: char)
    requires |ls| == 10
    ensures Join(ls, sep) == ls[0] + [sep] + (ls[1] + [sep] + (ls[2] + [sep] + (ls[3] + [sep] + (ls[4] + [sep]
                             + (ls[5] + [sep] + (ls[6] + [sep] + (ls[7] + [sep] + (ls[8] + [sep] + ls[9]))))))))
  {
    forall k | 0 <= k < 9
      ensures Join(ls[k..], sep) == ls[k] + [sep] + Join(ls[k + 1..], sep)
    {
      assert ls[k..][1..] == ls[k + 1..];
    }
    assert ls[9..] == [ls[9]];
  }

  /**
    When no field contains a newline, splitting the email text at newlines
    gives back exactly its ten lines, so each field can be read off its line.
   */
  lemma EmailTextLines(name: string, email: string, subject: string, message: string,
                       metaJson: string, receivedAt: string)
    requires '\n' !in name && '\n' !in email && '\n' !in subject && '\n' !in message
    requires '\n' !in metaJson && '\n' !in receivedAt
    ensures Split(EmailText(name, email, subject, message, metaJson, receivedAt), '\n')
            == EmailLines(name, email, subject, message, metaJson, receivedAt)
  {
    var lines := EmailLines(name, email, subject, message, metaJson, receivedAt);
    SplitJoin(lines, '\n');
  }

  /**
    Whatever the message and meta block contain (a typed message usually has
    newlines), the first four lines of the email text are the name, email and
    subject lines and a blank line, provided those three fields have no newline.
   */
  lemma EmailHeaderLines(name: string, email: string, subject: string, message: string,
                         metaJson: string, receivedAt: string)
    requires '\n' !in name && '\n' !in email && '\n' !in subject
    ensures var pieces := Split(EmailText(name, email, subject, message, metaJson, receivedAt), '\n');
            |pieces| >= 4 && pieces[..4] == ["Nama: " + name, "Email: " + email, "Subjek: " + subject, ""]
  {
    var l1, l2, l3 := "Nama: " + name, "Email: " + email, "Subjek: " + subject;
    var rest := "Pesan:" + "\n" + (message + "\n" + ("" + "\n" + ("---" + "\n"
                + ("Meta: " + metaJson + "\n" + ("Dikirim pada: " + receivedAt)))));
    assert '\n' !in l1 && '\n' !in l2 && '\n' !in l3;
    SplitFourHead(l1, l2, l3, rest, '\n');
  }

  /** Three separator-free lines and an empty one, followed by anything, split off as the first four pieces. */
  lemma SplitFourHead(l1: string, l2: string, l3: string, rest: string, sep: char)
    requires sep !in l1 && sep !in l2 && sep !in l3
    ensures var pieces := Split(l1 + [sep] + (l2 + [sep] + (l3 + [sep] + ("" + [sep] + rest))), sep);
            |pieces| >= 4 && pieces[..4] == [l1, l2, l3, ""]
  {
    var b3 := "" + [sep] + rest;
    var b2 := l3 + [sep] + b3;
    var b1 := l2 + [sep] + b2;
    SplitAtFirstSep(l1, b1, sep);
    SplitAtFirstSep(l2, b2, sep);
    SplitAtFirstSep(l3, b3, sep);
    SplitAtFirstSep("", rest, sep);
  }

  /** The email handed to the provider for a payload that passed validation. */
  function Compose(p: Payload, metaJson: string, receivedAt: string): (e: Email)
    requires HasAllFields(p)
    ensures e.from == Sender && e.to == Recipient
    ensures e.replyTo == p.email.value
    ensures e.subject == SubjectPrefix + p.subject.value
    ensures e.text == EmailText(p.name.value, p.email.value, p.subject.value, p.message.value, metaJson, receivedAt)
  {
    Email(Sender, Recipient, p.email.value, SubjectPrefix + p.subject.value,
          EmailText(p.name.value, p.email.value, p.subject.value, p.message.value, metaJson, receivedAt))
  }

  /** The catch block: a 500 carrying the exception's message, or a default when it is empty. */
  function Caught(message: string): (r: Response)
    ensures r.statusCode == 500 && r.jsonHeaders && r.body.Reply? && !r.body.ok
    ensures r.body.error == Some(if message != "" then message else DefaultCatchError)
  {
    Response(500, true, Reply(false, Some(if message != "" then message else DefaultCatchError)))
  }

  /**
    The handler. `provider` is what the email provider would answer,
    `metaJson` the pretty-printed meta block and `receivedAt` the formatted
    receipt time; none of them is consulted unless the handler reaches them.
   */
  function Handle(event: RelayEvent, provider: ProviderResult, metaJson: string, receivedAt: string): (r: Outcome)
    // wrong method first, whatever the body
    ensures event.httpMethod != "POST" ==>
              r == Outcome(Response(405, false, PlainText("Method Not Allowed")), None)
    // an unparseable body is an exception, so 500 with the parser's message rather than 400
    ensures event.httpMethod == "POST" && event.body.Unparseable? ==>
              r == Outcome(Caught(event.body.error), None)
    // the honeypot answers success before the fields are looked at
    ensures event.httpMethod == "POST" && !event.body.Unparseable? && Truthy(Fields(event.body).hp) ==>
              r == Outcome(Response(200, true, Reply(true, None)), None)
    ensures event.httpMethod == "POST" && !event.body.Unparseable? && !Truthy(Fields(event.body).hp)
            && !HasAllFields(Fields(event.body)) ==>
              r == Outcome(Response(400, true, Reply(false, Some(MissingFields))), None)
    // the provider is invoked exactly for a POST with an empty honeypot and all four fields
    ensures r.dispatched.Some? <==>
              event.httpMethod == "POST" && !event.body.Unparseable?
              && !Truthy(Fields(event.body).hp) && HasAllFields(Fields(event.body))
    ensures r.dispatched.Some? ==> r.dispatched.value == Compose(Fields(event.body), metaJson, receivedAt)
    ensures r.dispatched.Some? && provider.Delivered? ==> r.response == Response(200, true, Reply(true, None))
    ensures r.dispatched.Some? && provider.ProviderError? ==>
              r.response == Response(500, true, Reply(false, Some(
                if provider.message != "" then provider.message else DefaultProviderError)))
    ensures r.dispatched.Some? && provider.ProviderThrew? ==> r.response == Caught(provider.message)
    // every path answers with one of four statuses, and `ok: true` exactly on 200
    ensures r.response.statusCode in {200, 400, 405, 500}
    ensures r.response.body.Reply? && r.response.body.ok <==> r.response.statusCode == 200
    ensures r.response.statusCode == 405 <==> !r.response.jsonHeaders
  {
    if event.httpMethod != "POST" then
      Outcome(Response(405, false, PlainText("Method Not Allowed")), None)
    else if event.body.Unparseable? then
      Outcome(Caught(event.body.error), None)
    else
      var p := Fields(event.body);
      if Truthy(p.hp) then
        Outcome(Response(200, true, Reply(true, None)), None)
      else if !HasAllFields(p) then
        Outcome(Response(400, true, Reply(false, Some(MissingFields))), None)
      else
        var email := Compose(p, metaJson, receivedAt);
        var response := match provider
          case Delivered => Response(200, true, Reply(true, None))
          case ProviderError(message) =>
            Caught(if message != "" then message else DefaultProviderError)
          case ProviderThrew(message) => Caught(message);
        Outcome(response, Some(email))
  }

  /** Where the provider is not invoked, its answer makes no difference to the response. */
  lemma ProviderIrrelevantUntilDispatch(event: RelayEvent, p1: ProviderResult, p2: ProviderResult,
                                        metaJson: string, receivedAt: string)
    requires Handle(event, p1, metaJson, receivedAt).dispatched.None?
    ensures Handle(event, p1, metaJson, receivedAt) == Handle(event, p2, metaJson, receivedAt)
  {
  }
}
