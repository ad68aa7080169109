/**
  Sequences of user-visible events on the contact form: typing, submit
  attempts and remounts, taken one at a time (each attempt is atomic).
  `PageReload` stands for every remount of the component: a browser reload,
  or a route change between the pages that mount the form (src/App.tsx mounts
  it on the home page and on `/contact`). `Attempt` may fire in any state,
  as a direct call of `handleSubmit`; `ButtonRespected` restricts a run to
  attempts the disabled button lets through.
  The lemmas here are about whole runs of the gate of src/components/Contact.tsx.
 */
module ContactRuns {
  import opened ContactGate

  datatype Event =
    | Type(field: Field, value: string)
    | Attempt(now: nat, outcome: RelayOutcome, meta: Meta)
    | PageReload(now: nat)

  /** The state after one event. */
  function Apply(s: GateState, e: Event): GateState
  {
    match e
    case Type(field, value) => Change(s, field, value)
    case Attempt(now, outcome, meta) => Submit(s, now, outcome, meta).state
    case PageReload(now) => Reload(s, now)
  }

  /** The state after a whole run of events, applied in order. */
  function Run(s: GateState, events: seq<Event>): GateState
    decreases |events|
  {
    if |events| == 0 then s else Run(Apply(s, events[0]), events[1..])
  }

  /** The times of the attempts in a run that the relay confirmed, in order. */
  function SentTimes(s: GateState, events: seq<Event>): seq<nat>
    decreases |events|
  {
    if |events| == 0 then []
    else
      var e := events[0];
      var rest := SentTimes(Apply(s, e), events[1..]);
      if e.Attempt? && Submit(s, e.now, e.outcome, e.meta).verdict == Sent then [e.now] + rest else rest
  }

  predicate NoReload(events: seq<Event>)
  {
    forall k :: 0 <= k < |events| ==> !events[k].PageReload?
  }

  /** Every time in `times` is at least one cooldown after the one before it, the first after `last`. */
  predicate SpacedAfter(last: int, times: seq<nat>)
    decreases |times|
  {
    |times| == 0 || (times[0] - last >= CooldownMs && SpacedAfter(times[0], times[1..]))
  }

  predicate QuotaInvariant(s: GateState)
  {
    s.store.hourlySubmissions <= MaxPerHour
  }

  /** A run without remounts starts with an event that is not one, and its tail has none either. */
  lemma NoReloadTail(events: seq<Event>)
    requires |events| > 0 && NoReload(events)
    ensures !events[0].PageReload? && NoReload(events[1..])
  {
    forall k | 0 <= k < |events[1..]| ensures !events[1..][k].PageReload? {
      assert events[1..][k] == events[k + 1];
    }
  }

  /** Every attempt in the run happens while `canSubmit` holds, as the disabled submit button enforces. */
  predicate ButtonRespected(s: GateState, events: seq<Event>)
    decreases |events|
  {
    |events| == 0
    || ((events[0].Attempt? ==> CanSubmit(s, events[0].now)) && ButtonRespected(Apply(s, events[0]), events[1..]))
  }

  /** One event never lets the stored count pass the quota. */
  lemma ApplyKeepsQuota(s: GateState, e: Event)
    requires QuotaInvariant(s)
    ensures QuotaInvariant(Apply(s, e))
  {
  }

  /**
    Starting from a stored count within the quota, no run of typing, attempts
    and reloads ever stores a count above 3.
   */
  lemma {:induction false} RunKeepsQuota(s: GateState, events: seq<Event>)
    requires QuotaInvariant(s)
    ensures QuotaInvariant(Run(s, events))
    decreases |events|
  {
    if |events| > 0 {
      ApplyKeepsQuota(s, events[0]);
      RunKeepsQuota(Apply(s, events[0]), events[1..]);
    }
  }

  /** A confirmed send records its own time as the last submit time; other events keep it or (on reload) clear it. */
  lemma ApplyLastSubmit(s: GateState, e: Event)
    ensures e.Attempt? && Submit(s, e.now, e.outcome, e.meta).verdict == Sent ==>
              Apply(s, e).lastSubmitTime == e.now && e.now - s.lastSubmitTime >= CooldownMs
    ensures !e.PageReload? && !(e.Attempt? && Submit(s, e.now, e.outcome, e.meta).verdict == Sent) ==>
              Apply(s, e).lastSubmitTime == s.lastSubmitTime
  {
  }

  /**
    Without a page reload, every confirmed send comes at least one cooldown
    after the previous one (the first after the starting `lastSubmitTime`).
   */
  lemma {:induction false} SendsRespectCooldown(s: GateState, events: seq<Event>)
    requires NoReload(events)
    ensures SpacedAfter(s.lastSubmitTime, SentTimes(s, events))
    decreases |events|
  {
    if |events| > 0 {
      var e := events[0];
      var s' := Apply(s, e);
      NoReloadTail(events);
      ApplyLastSubmit(s, e);
      SendsRespectCooldown(s', events[1..]);
    }
  }

  /**
    Because `lastSubmitTime` lives in component state, a reload forgets it:
    after a confirmed send, a reload and the same four fields typed again, a
    second message goes out one second after the first.
   */
  lemma ReloadForgetsCooldown()
    ensures var ok := Responded(true, true, "");
            var m := Meta("", "", "");
            var first := Submit(GateState(Storage(0, 100_000), 0, Form("a", "b", "c", "d", "")), 100_000, ok, m);
            var reloaded := Reload(first.state, 101_000);
            var retyped := Change(Change(Change(Change(reloaded, NameField, "a"), EmailField, "b"), SubjectField, "c"), MessageField, "d");
            first.verdict == Sent && Submit(retyped, 101_000, ok, m).verdict == Sent
  {
  }

  /**
    The button state agrees with the first two checks of `handleSubmit`:
    when `canSubmit` holds, neither the cooldown nor the quota rejects; when
    it fails inside an unexpired window, one of them does.
   */
  lemma CanSubmitPredictsAdmission(s: GateState, now: nat, outcome: RelayOutcome, meta: Meta)
    ensures var v := Submit(s, now, outcome, meta).verdict;
            CanSubmit(s, now) ==> !v.CooldownRejected? && v != QuotaRejected
    ensures var v := Submit(s, now, outcome, meta).verdict;
            !CanSubmit(s, now) && !WindowExpired(s.store, now) ==> v.CooldownRejected? || v == QuotaRejected
  {
  }

  /**
    `canSubmit` does not roll the window: with three stored submissions in a
    window that has expired, it reports false even though `handleSubmit` would
    roll the window and send.
   */
  lemma CanSubmitIgnoresExpiredWindow()
    ensures var s := GateState(Storage(3, 1), 0, Form("a", "b", "c", "d", ""));
            var now := HourMs + 2;
            !CanSubmit(s, now) && Submit(s, now, Responded(true, true, ""), Meta("", "", "")).verdict == Sent
  {
  }

  /**
    Through the button, a full count locks the form until a remount: since
    `canSubmit` never rolls the window, no attempt is possible, however much
    time passes, and the stored counters stay as they were. Only a remount
    (which rolls an expired window) can unlock it.
   */
  lemma {:induction false} FullCountLocksForm(s: GateState, events: seq<Event>)
    requires s.store.hourlySubmissions >= MaxPerHour
    requires NoReload(events) && ButtonRespected(s, events)
    ensures Run(s, events).store == s.store
    ensures SentTimes(s, events) == []
    decreases |events|
  {
    if |events| > 0 {
      NoReloadTail(events);
      assert events[0].Type?;
      FullCountLocksForm(Apply(s, events[0]), events[1..]);
    }
  }
}
