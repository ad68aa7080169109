/**
  The contact form and the mail relay together: the body the gate posts is
  what the relay parses, and the relay's response is what the gate reads back.
 */
module ContactDelivery {
  import opened Wrappers
  import ContactGate
  import MailRelay

  /** The gate's JSON body as the relay destructures it: the four fields present and no honeypot. */
  function WireBody(req: ContactGate.Request): (b: MailRelay.Body)
    ensures b.Parsed? && b.payload.Some?
    ensures b.payload.value.hp.None?
    ensures b.payload.value.name == Some(req.name) && b.payload.value.email == Some(req.email)
    ensures b.payload.value.subject == Some(req.subject) && b.payload.value.message == Some(req.message)
  {
    MailRelay.Parsed(Some(MailRelay.Payload(Some(req.name), Some(req.email), Some(req.subject), Some(req.message), None)))
  }

  /**
    How the client reads a relay response: `res.ok` is a 2xx status, and a
    body that is not JSON (the 405 text) reads as `{}`, so it has neither
    `ok: true` nor an `error`.
   */
  function ClientView(resp: MailRelay.Response): (o: ContactGate.RelayOutcome)
    ensures o.Responded?
    ensures o.httpOk <==> 200 <= resp.statusCode < 300
    ensures o.okIsTrue <==> resp.body.Reply? && resp.body.ok
    ensures resp.body.Reply? && resp.body.error.Some? ==> o.error == resp.body.error.value
    ensures resp.body.PlainText? || resp.body.error.None? ==> o.error == ""
  {
    match resp.body
    case PlainText(_) => ContactGate.Responded(200 <= resp.statusCode < 300, false, "")
    case Reply(ok, error) => ContactGate.Responded(200 <= resp.statusCode < 300, ok, error.GetOr(""))
  }

  /** One submit attempt whose request, if any, goes to the relay. */
  datatype Delivery = Delivery(step: ContactGate.Step, relay: Option<MailRelay.Outcome>)

  /**
    A submit attempt carried through: the gate decides; if it posts, the relay
    handles the POST with the provider's answer `provider`, and the gate reads
    that response back.
   */
  function Deliver(s: ContactGate.GateState, now: nat, meta: ContactGate.Meta,
                   provider: MailRelay.ProviderResult, metaJson: string, receivedAt: string): (d: Delivery)
    // the relay sees a request exactly when the gate posts one
    ensures d.relay.Some? <==> d.step.request.Some?
    // a request from the gate always passes the relay's checks and reaches the provider
    ensures d.relay.Some? ==> d.relay.value.dispatched.Some?
    ensures d.relay.Some? ==>
              var email := d.relay.value.dispatched.value;
              email.to == MailRelay.Recipient && email.replyTo == s.form.email
              && email.subject == MailRelay.SubjectPrefix + s.form.subject
    // the message counts as sent exactly when the provider delivered it
    ensures d.step.verdict == ContactGate.Sent <==> d.relay.Some? && provider.Delivered?
    ensures d.relay.Some? && provider.ProviderError? ==>
              d.step.verdict == ContactGate.SendFailed(
                if provider.message != "" then provider.message else MailRelay.DefaultProviderError)
    ensures d.relay.Some? && provider.ProviderThrew? ==>
              d.step.verdict == ContactGate.SendFailed(
                if provider.message != "" then provider.message else MailRelay.DefaultCatchError)
  {
    var req := ContactGate.RequestOf(s.form, meta);
    var handled := MailRelay.Handle(MailRelay.RelayEvent("POST", WireBody(req)), provider, metaJson, receivedAt);
    var step := ContactGate.Submit(s, now, ClientView(handled.response), meta);
    if step.request.Some? then Delivery(step, Some(handled)) else Delivery(step, None)
  }

  /**
    A bot that skips the form and posts a filled honeypot straight to the
    relay gets the same success reply a real delivery gets, and nothing is sent.
   */
  lemma BotSeesSuccess(p: MailRelay.Payload, provider: MailRelay.ProviderResult, metaJson: string, receivedAt: string)
    requires MailRelay.Truthy(p.hp)
    ensures var bot := MailRelay.Handle(MailRelay.RelayEvent("POST", MailRelay.Parsed(Some(p))), provider, metaJson, receivedAt);
            bot.dispatched.None?
            && ContactGate.Confirmed(ClientView(bot.response))
  {
  }

  /**
    A POST that reaches no handler comes back as a non-JSON 404 page, which
    the form reads as a failed send with its default message.
   */
  lemma UnroutedPostFails(s: ContactGate.GateState, now: nat, meta: ContactGate.Meta, page: string)
    ensures var step := ContactGate.Submit(s, now, ClientView(MailRelay.Response(404, false, MailRelay.PlainText(page))), meta);
            step.request.Some? ==> step.verdict == ContactGate.SendFailed(ContactGate.DefaultRelayError)
  {
  }
}
