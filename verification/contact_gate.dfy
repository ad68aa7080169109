/**
  The contact form's anti-spam gate (src/components/Contact.tsx).

  Browser storage holds two keys, `hourlySubmissions` and `lastHourReset`;
  React state holds `lastSubmitTime` and the form fields, including the hidden
  honeypot field `hp`. All times are integer milliseconds. A storage key that
  is missing reads as 0, exactly as `parseInt(getItem(k) || '0', 10)` does,
  and stored values are taken to be well-formed non-negative integers.
 */
module ContactGate {
  import opened Wrappers

  /** Minimum time between two accepted submissions (one minute). */
  const CooldownMs: nat := 60_000
  /** Accepted submissions allowed per hourly window. */
  const MaxPerHour: nat := 3
  /** Length of the hourly counting window. */
  const HourMs: nat := 3_600_000

  /** The two storage keys the gate reads and writes; 0 stands for a missing key. */
  datatype Storage = Storage(hourlySubmissions: nat, lastHourReset: nat)

  datatype Form = Form(name: string, email: string, subject: string, message: string, hp: string)

  const EmptyForm: Form := Form("", "", "", "", "")

  /** Everything the gate decides on: durable storage and the component's in-memory state. */
  datatype GateState = GateState(store: Storage, lastSubmitTime: nat, form: Form)

  /** Informational context sent along with a message; the gate never inspects it. */
  datatype Meta = Meta(sentAt: string, userAgent: string, page: string)

  /** The JSON body posted to the relay. It has no honeypot field. */
  datatype Request = Request(name: string, email: string, subject: string, message: string, meta: Meta)

  /**
    What the relay call produced, as the client sees it: either a response
    (whether the HTTP status was OK, whether the parsed body's `ok` is exactly
    `true`, and its `error` text, empty when absent or unparseable), or a
    transport error thrown by `fetch` with its message.
   */
  datatype RelayOutcome =
    | Responded(httpOk: bool, okIsTrue: bool, error: string)
    | TransportFailed(message: string)

  /** How one submit attempt ended, as shown to the user. */
  datatype Verdict =
    | CooldownRejected(secondsLeft: nat)
    | QuotaRejected
    | FieldsRejected
    | HoneypotPretend
    | Sent
    | SendFailed(message: string)

  /** One submit attempt: the state afterwards, the verdict, and the request posted to the relay, if any. */
  datatype Step = Step(state: GateState, verdict: Verdict, request: Option<Request>)

  const DefaultRelayError: string := "Gagal mengirim pesan."
  const DefaultCatchError: string := "Terjadi kesalahan saat mengirim pesan."

  /** The state when the component first renders, over whatever storage already holds. */
  function InitialState(store: Storage): GateState
  {
    GateState(store, 0, EmptyForm)
  }

  /** True when the stored window started long enough ago that the next attempt restarts it. */
  predicate WindowExpired(store: Storage, now: nat)
  {
    now - store.lastHourReset > HourMs
  }

  /** The window restarted at `now` with no submissions counted. */
  function FreshWindow(now: nat): (store: Storage)
    ensures store.hourlySubmissions == 0 && store.lastHourReset == now
  {
    Storage(0, now)
  }

  /**
    The mount effect: restarts the window when no reset time is stored (or it
    is 0) or when the stored window has expired; otherwise storage is left alone.
   */
  function Mount(store: Storage, now: nat): (r: Storage)
    ensures (store.lastHourReset == 0 || now - store.lastHourReset > HourMs) ==> r == Storage(0, now)
    ensures store.lastHourReset != 0 && now - store.lastHourReset <= HourMs ==> r == store
    ensures r.hourlySubmissions <= store.hourlySubmissions
    ensures !WindowExpired(r, now)
  {
    if store.lastHourReset == 0 then FreshWindow(now)
    else if WindowExpired(store, now) then FreshWindow(now)
    else store
  }

  /**
    Whether the submit button is enabled: the cooldown has elapsed and the
    stored count is below the quota. It reads storage but never rolls the
    window, so an expired window with a full count still reads as blocked.
   */
  function CanSubmit(s: GateState, now: nat): (ok: bool)
    ensures ok <==> now - s.lastSubmitTime >= CooldownMs && s.store.hourlySubmissions < MaxPerHour
  {
    var sinceLast := now - s.lastSubmitTime;
    var hourly := s.store.hourlySubmissions;
    sinceLast >= CooldownMs && hourly < MaxPerHour
  }

  /** `Math.ceil(a / b)` for a positive divisor, on any integer numerator. */
  function CeilDiv(a: int, b: nat): (q: int)
    requires b > 0
    ensures q * b >= a && (q - 1) * b < a
  {
    -((-a) / b)
  }

  /**
    Whole seconds left before the cooldown ends, rounded up and never negative.
    It is the least natural number of seconds that covers the rest of the cooldown.
   */
  function RemainingCooldown(s: GateState, now: nat): (secs: nat)
    ensures secs == 0 <==> now - s.lastSubmitTime >= CooldownMs
    ensures secs * 1000 >= CooldownMs - (now - s.lastSubmitTime)
    ensures secs > 0 ==> (secs - 1) * 1000 < CooldownMs - (now - s.lastSubmitTime)
    ensures now >= s.lastSubmitTime ==> secs <= CooldownMs / 1000
  {
    var sinceLast := now - s.lastSubmitTime;
    var remaining := CeilDiv(CooldownMs - sinceLast, 1000);
    if remaining > 0 then remaining else 0
  }

  predicate FieldsComplete(f: Form)
  {
    f.name != "" && f.email != "" && f.subject != "" && f.message != ""
  }

  /** The body posted to the relay: the four visible fields and the meta block. */
  function RequestOf(f: Form, meta: Meta): (req: Request)
    ensures req.name == f.name && req.email == f.email && req.subject == f.subject
    ensures req.message == f.message && req.meta == meta
  {
    Request(f.name, f.email, f.subject, f.message, meta)
  }

  /** Whether the relay confirmed delivery: an OK status and `ok === true` in the body. */
  predicate Confirmed(outcome: RelayOutcome)
  {
    outcome.Responded? && outcome.httpOk && outcome.okIsTrue
  }

  /**
    The message shown after a failed relay call: the body's `error`, or a fixed
    text when it has none; a transport error shows its own message, or a second
    fixed text when that is empty.
   */
  function FailureMessage(outcome: RelayOutcome): (msg: string)
    requires !Confirmed(outcome)
    ensures msg != ""
    ensures outcome.Responded? && outcome.error != "" ==> msg == outcome.error
    ensures outcome.Responded? && outcome.error == "" ==> msg == DefaultRelayError
    ensures outcome.TransportFailed? && outcome.message != "" ==> msg == outcome.message
    ensures outcome.TransportFailed? && outcome.message == "" ==> msg == DefaultCatchError
  {
    match outcome
    case Responded(_, _, error) => if error != "" then error else DefaultRelayError
    case TransportFailed(message) => if message != "" then message else DefaultCatchError
  }

  /** The storage an attempt continues with once the cooldown has passed: the window rolled if expired. */
  function Rolled(store: Storage, now: nat): (r: Storage)
    ensures WindowExpired(store, now) ==> r == FreshWindow(now)
    ensures !WindowExpired(store, now) ==> r == store
  {
    if WindowExpired(store, now) then FreshWindow(now) else store
  }

  /**
    `handleSubmit` at time `now`, with `outcome` standing for what the relay
    call would return and `meta` for the context the browser supplies.
    The checks run in this order: cooldown, then window roll or quota, then
    required fields, then the honeypot, and only then the relay call.
   */
  function Submit(s: GateState, now: nat, outcome: RelayOutcome, meta: Meta): (r: Step)
    // cooldown: rejected before anything else, nothing changes
    ensures now - s.lastSubmitTime < CooldownMs ==>
              r == Step(s, CooldownRejected(RemainingCooldown(s, now)), None)
    // quota: an unexpired window with a full count rejects, nothing changes
    ensures now - s.lastSubmitTime >= CooldownMs && !WindowExpired(s.store, now)
            && s.store.hourlySubmissions >= MaxPerHour ==>
              r == Step(s, QuotaRejected, None)
    // an expired window is rolled, and the roll is kept whatever happens next
    ensures now - s.lastSubmitTime >= CooldownMs && WindowExpired(s.store, now) ==>
              r.state.store.lastHourReset == now
              && r.state.store.hourlySubmissions == (if r.verdict == Sent then 1 else 0)
    // missing fields reject after the roll, before the honeypot
    ensures r.verdict == FieldsRejected <==>
              now - s.lastSubmitTime >= CooldownMs
              && (WindowExpired(s.store, now) || s.store.hourlySubmissions < MaxPerHour)
              && !FieldsComplete(s.form)
    // a filled honeypot that passes every earlier check pretends success and does nothing else
    ensures r.verdict == HoneypotPretend <==>
              now - s.lastSubmitTime >= CooldownMs
              && (WindowExpired(s.store, now) || s.store.hourlySubmissions < MaxPerHour)
              && FieldsComplete(s.form) && s.form.hp != ""
    ensures r.verdict == FieldsRejected || r.verdict == HoneypotPretend ==>
              r.state == s.(store := Rolled(s.store, now))
    // the relay is called exactly when every check passes, with the form's visible fields
    ensures r.request.Some? <==>
              now - s.lastSubmitTime >= CooldownMs
              && (WindowExpired(s.store, now) || s.store.hourlySubmissions < MaxPerHour)
              && FieldsComplete(s.form) && s.form.hp == ""
    ensures r.request.Some? ==> r.request.value == RequestOf(s.form, meta)
    // only a confirmed success counts, records the time and clears the form
    ensures r.verdict == Sent <==> r.request.Some? && Confirmed(outcome)
    ensures r.verdict == Sent ==>
              r.state.store.hourlySubmissions == Rolled(s.store, now).hourlySubmissions + 1
              && r.state.store.lastHourReset == Rolled(s.store, now).lastHourReset
              && r.state.lastSubmitTime == now && r.state.form == EmptyForm
    ensures r.verdict != Sent ==> r.state.lastSubmitTime == s.lastSubmitTime && r.state.form == s.form
    ensures r.verdict != Sent ==> r.state.store.hourlySubmissions <= s.store.hourlySubmissions
    ensures r.request.Some? && !Confirmed(outcome) ==>
              r.verdict == SendFailed(FailureMessage(outcome)) && r.state == s.(store := Rolled(s.store, now))
  {
    var sinceLast := now - s.lastSubmitTime;
    if sinceLast < CooldownMs then
      Step(s, CooldownRejected(RemainingCooldown(s, now)), None)
    else if !WindowExpired(s.store, now) && s.store.hourlySubmissions >= MaxPerHour then
      Step(s, QuotaRejected, None)
    else
      var rolled := s.(store := Rolled(s.store, now));
      if !FieldsComplete(s.form) then
        Step(rolled, FieldsRejected, None)
      else if s.form.hp != "" then
        Step(rolled, HoneypotPretend, None)
      else
        var req := RequestOf(s.form, meta);
        if Confirmed(outcome) then
          var counted := Storage(rolled.store.hourlySubmissions + 1, rolled.store.lastHourReset);
          Step(GateState(counted, now, EmptyForm), Sent, Some(req))
        else
          Step(rolled, SendFailed(FailureMessage(outcome)), Some(req))
  }

  /** The form fields `handleChange` can write, named by the input's `name` attribute. */
  datatype Field = NameField | EmailField | SubjectField | MessageField | HpField

  /** `handleChange`: one field takes the typed value; nothing else changes. */
  function Change(s: GateState, field: Field, value: string): (r: GateState)
    ensures r.store == s.store && r.lastSubmitTime == s.lastSubmitTime
    ensures field == NameField ==> r.form == s.form.(name := value)
    ensures field == EmailField ==> r.form == s.form.(email := value)
    ensures field == SubjectField ==> r.form == s.form.(subject := value)
    ensures field == MessageField ==> r.form == s.form.(message := value)
    ensures field == HpField ==> r.form == s.form.(hp := value)
  {
    var f := s.form;
    var f' := match field
      case NameField => f.(name := value)
      case EmailField => f.(email := value)
      case SubjectField => f.(subject := value)
      case MessageField => f.(message := value)
      case HpField => f.(hp := value);
    s.(form := f')
  }

  /**
    A page reload at `now`: React state starts over (so `lastSubmitTime` is
    back to 0 and the form is empty) and the mount effect runs over the
    storage that survived.
   */
  function Reload(s: GateState, now: nat): (r: GateState)
    ensures r.lastSubmitTime == 0 && r.form == EmptyForm
    ensures r.store == Mount(s.store, now)
  {
    InitialState(Mount(s.store, now))
  }
}
