/** Delivery of one event to every webhook of a workspace, over retries. */
module WebhookFanOut {
  import opened Common

  datatype DeliveryStatus = PENDING | SUCCESS | FAILED

  datatype Target = Target(webhook: nat, event: nat)

  datatype Delivery = Delivery(target: Target, attempt: nat, status: DeliveryStatus)

  type Deliveries = map<nat, Delivery>

  /** What becomes of a request. It may be accepted although its answer never comes,
      after the abort at the latest. */
  datatype Answer = Accepts | Refuses | NoAnswer | AcceptsUnheard

  /** The next call of one delivery of a running attempt, or how it ended. */
  datatype Phase =
    | Looking
    | Creating(attempt: nat)
    | Sending(record: nat)
    | Accepted(record: nat)
    | Refused(record: nat)
    | Catching(record: nat)
    | Fulfilled
    | Rejected

  /** `sent`, `accepted` and `lost` are history: requests made, requests the receiver
      accepted, and acceptances no record tells of. `delivered` holds, for every event
      an attempt fulfilled, the webhooks of that attempt. Events whose last attempt was
      fulfilled are `marking`, still to be marked processed, or `marked`. */
  datatype Fan = Fan(
    records: Deliveries, running: map<Target, Phase>, attempts: map<nat, nat>,
    sent: multiset<Target>, accepted: multiset<Target>, lost: multiset<Target>, delivered: map<nat, set<nat>>,
    marking: set<nat>, marked: set<nat>)

  const INIT := Fan(map[], map[], map[], multiset{}, multiset{}, multiset{}, map[], {}, {})

  datatype Event =
    | Begin(event: nat, hooks: set<nat>, attempt: nat)
    | Look(target: Target, works: bool)
    | Create(target: Target, record: nat, outcome: Outcome)
    | Send(target: Target, answer: Answer)
    | Succeed(target: Target, outcome: Outcome)
    | Refuse(target: Target, outcome: Outcome)
    | Recover(target: Target, outcome: Outcome)
    | End(event: nat)
    | Mark(event: nat, outcome: Outcome)
    | Crash(event: nat, asked: set<Target>, reached: set<Target>)

  // ------------------------------------------------ records

  predicate Succeeded(records: Deliveries, record: nat, target: Target) {
    record in records && records[record].target == target && records[record].status == SUCCESS
  }

  ghost predicate HasSuccess(records: Deliveries, target: Target) {
    exists r :: Succeeded(records, r, target)
  }

  function SetStatus(records: Deliveries, record: nat, status: DeliveryStatus): Deliveries {
    if record in records then records[record := records[record].(status := status)] else records
  }

  function Updated(records: Deliveries, record: nat, status: DeliveryStatus, outcome: Outcome): Deliveries {
    if outcome == LostBefore then records else SetStatus(records, record, status)
  }

  // ------------------------------------------------ steps

  function To(f: Fan, target: Target, phase: Phase): Fan { f.(running := f.running[target := phase]) }

  predicate In(f: Fan, target: Target) { target in f.running }

  /** The repository's search for a successful delivery. */
  ghost function OnLook(f: Fan, t: Target, works: bool): Fan {
    if !(In(f, t) && f.running[t].Looking?) then f
    else if !works then To(f, t, Rejected)
    else if HasSuccess(f.records, t) then To(f, t, Fulfilled)
    else To(f, t, Creating(if t.event in f.attempts then f.attempts[t.event] else 0))
  }

  function OnCreate(f: Fan, t: Target, record: nat, outcome: Outcome): Fan {
    if !(In(f, t) && f.running[t].Creating?) || record in f.records then f
    else
      var made := if outcome == LostBefore then f
                  else f.(records := f.records[record := Delivery(t, f.running[t].attempt, PENDING)]);
      To(made, t, if outcome == Applied then Sending(record) else Rejected)
  }

  function OnSend(f: Fan, t: Target, answer: Answer): Fan {
    if !(In(f, t) && f.running[t].Sending?) then f
    else
      var record := f.running[t].record;
      var sent := f.(sent := f.sent + multiset{t});
      match answer
      case Accepts => To(sent, t, Accepted(record)).(accepted := f.accepted + multiset{t})
      case Refuses => To(sent, t, Refused(record))
      case NoAnswer => To(sent, t, Catching(record))
      case AcceptsUnheard =>
        To(sent, t, Catching(record)).(accepted := f.accepted + multiset{t}, lost := f.lost + multiset{t})
  }

  /** The update to SUCCESS; its failure leads into the catch block. */
  function OnSucceed(f: Fan, t: Target, outcome: Outcome): Fan {
    if !(In(f, t) && f.running[t].Accepted?) then f
    else
      var record := f.running[t].record;
      var updated := f.(records := Updated(f.records, record, SUCCESS, outcome));
      if outcome == Applied then To(updated, t, Fulfilled)
      else To(updated, t, Catching(record)).(lost := if outcome == LostBefore then f.lost + multiset{t} else f.lost)
  }

  /** The update to FAILED on a refusal, which the thrown error follows. */
  function OnRefuse(f: Fan, t: Target, outcome: Outcome): Fan {
    if !(In(f, t) && f.running[t].Refused?) then f
    else
      var record := f.running[t].record;
      To(f.(records := Updated(f.records, record, FAILED, outcome)), t, Catching(record))
  }

  /** The update to FAILED in the catch block: it may overwrite a SUCCESS whose own
      update was reported as failed. */
  function OnRecover(f: Fan, t: Target, outcome: Outcome): Fan {
    if !(In(f, t) && f.running[t].Catching?) then f
    else
      var record := f.running[t].record;
      var overwrites := outcome != LostBefore && Succeeded(f.records, record, t);
      To(f.(records := Updated(f.records, record, FAILED, outcome)), t, Rejected)
        .(lost := if overwrites then f.lost + multiset{t} else f.lost)
  }

  predicate Ended(f: Fan, event: nat) {
    forall t :: t in f.running && t.event == event ==> f.running[t].Fulfilled? || f.running[t].Rejected?
  }

  predicate AllFulfilled(f: Fan, event: nat) {
    forall t :: t in f.running && t.event == event ==> f.running[t].Fulfilled?
  }

  /** What stays when the deliveries of an event leave. */
  function Others(running: map<Target, Phase>, event: nat): map<Target, Phase> {
    map t | t in running && t.event != event :: running[t]
  }

  function Targets(event: nat, hooks: set<nat>): set<Target> { set h | h in hooks :: Target(h, event) }

  function Starting(event: nat, hooks: set<nat>): map<Target, Phase> {
    map t | t in Targets(event, hooks) :: Looking
  }

  predicate Begins(f: Fan, event: nat) { event !in f.attempts && event !in f.marking && event !in f.marked }

  /** An event's attempts follow one another: its job has one worker at a time. The
      check for processed events stands before the deliveries. */
  function OnBegin(f: Fan, event: nat, hooks: set<nat>, attempt: nat): Fan {
    if !Begins(f, event) then f
    else f.(attempts := f.attempts[event := attempt], running := Others(f.running, event) + Starting(event, hooks))
  }

  function HooksOf(running: map<Target, Phase>, event: nat): set<nat> {
    set t | t in running && t.event == event :: t.webhook
  }

  /** All deliveries of the attempt have settled: it throws unless all were fulfilled. */
  function OnEnd(f: Fan, event: nat): Fan {
    if event !in f.attempts || !Ended(f, event) then f
    else
      f.(attempts := f.attempts - {event}, running := Others(f.running, event),
         delivered := if AllFulfilled(f, event) then f.delivered[event := HooksOf(f.running, event)] else f.delivered,
         marking := if AllFulfilled(f, event) then f.marking + {event} else f.marking)
  }

  /** `markProcessed` follows an attempt that did not throw; when it throws itself,
      another attempt may begin, unless it took effect. */
  function OnMark(f: Fan, event: nat, outcome: Outcome): Fan {
    if event !in f.marking then f
    else f.(marking := f.marking - {event}, marked := if outcome == LostBefore then f.marked else f.marked + {event})
  }

  function Dropped(running: map<Target, Phase>, event: nat): set<Target> {
    set t | t in running && t.event == event && running[t].Accepted?
  }

  /** Of some targets, those whose request was on its way. */
  function OnTheirWay(running: map<Target, Phase>, event: nat, some: set<Target>): set<Target> {
    set t | t in running && t in some && t.event == event && running[t].Sending?
  }

  /** A stop may come after a request was made (`asked`), and after the receiver has
      accepted it (`reached`). */
  function OnCrash(f: Fan, event: nat, asked: set<Target>, reached: set<Target>): Fan {
    var accepted := OnTheirWay(f.running, event, reached);
    f.(attempts := f.attempts - {event}, running := Others(f.running, event), marking := f.marking - {event},
       sent := f.sent + multiset(OnTheirWay(f.running, event, asked + reached)),
       accepted := f.accepted + multiset(accepted),
       lost := f.lost + multiset(Dropped(f.running, event) + accepted))
  }

  ghost function Step(f: Fan, e: Event): Fan {
    match e
    case Begin(event, hooks, attempt) => OnBegin(f, event, hooks, attempt)
    case Look(t, works) => OnLook(f, t, works)
    case Create(t, record, outcome) => OnCreate(f, t, record, outcome)
    case Send(t, answer) => OnSend(f, t, answer)
    case Succeed(t, outcome) => OnSucceed(f, t, outcome)
    case Refuse(t, outcome) => OnRefuse(f, t, outcome)
    case Recover(t, outcome) => OnRecover(f, t, outcome)
    case End(event) => OnEnd(f, event)
    case Mark(event, outcome) => OnMark(f, event, outcome)
    case Crash(event, asked, reached) => OnCrash(f, event, asked, reached)
  }

  ghost function Run(f: Fan, es: seq<Event>): Fan {
    if es == [] then f else Step(Run(f, es[..|es| - 1]), es[|es| - 1])
  }

  ghost predicate Reachable(f: Fan) {
    exists es :: f == Run(INIT, es)
  }

  // ------------------------------------------------ invariant

  ghost predicate OneSuccess(records: Deliveries, t: Target) {
    forall r, s :: Succeeded(records, r, t) && Succeeded(records, s, t) ==> r == s
  }

  predicate Holds(records: Deliveries, record: nat, t: Target) { record in records && records[record].target == t }

  /** What a delivery knows of its target's records in each phase. */
  ghost predicate PhaseSound(records: Deliveries, t: Target, phase: Phase) {
    match phase
    case Looking | Rejected => true
    case Creating(_) => !HasSuccess(records, t)
    case Sending(record) => Holds(records, record, t) && !HasSuccess(records, t)
    case Accepted(record) => Holds(records, record, t) && !HasSuccess(records, t)
    case Refused(record) => Holds(records, record, t) && !HasSuccess(records, t)
    case Catching(record) => Holds(records, record, t) && forall r :: Succeeded(records, r, t) ==> r == record
    case Fulfilled => HasSuccess(records, t)
  }

  predicate InAccepted(running: map<Target, Phase>, t: Target) { t in running && running[t].Accepted? }

  /** Acceptances are those no record tells of, and one more when a record does. */
  ghost predicate Accounted(f: Fan, t: Target) {
    f.accepted[t] == f.lost[t] + (if HasSuccess(f.records, t) || InAccepted(f.running, t) then 1 else 0)
  }

  ghost predicate TargetInv(f: Fan, t: Target) {
    && OneSuccess(f.records, t)
    && (t in f.running ==> PhaseSound(f.records, t, f.running[t]) && t.event in f.attempts)
    && Accounted(f, t)
  }

  ghost predicate DeliveredSound(f: Fan) {
    forall event, h :: event in f.delivered && h in f.delivered[event] ==> DeliveredTo(f, event, h)
  }

  ghost predicate DeliveredTo(f: Fan, event: nat, h: nat) {
    HasSuccess(f.records, Target(h, event)) && !Endangered(f, Target(h, event))
  }

  /** Only a delivery in its catch block may overwrite a SUCCESS. */
  ghost predicate Endangered(f: Fan, t: Target) { t in f.running && f.running[t].Catching? }

  /** An event with a mark, made or due, has had a fulfilled attempt and has no other. */
  predicate MarksSound(f: Fan) {
    f.marking + f.marked <= f.delivered.Keys && f.marking !! f.marked && f.attempts.Keys !! (f.marking + f.marked)
  }

  ghost predicate Inv(f: Fan) {
    (forall t :: TargetInv(f, t)) && DeliveredSound(f) && MarksSound(f)
  }

  // ------------------------------------------------ one step, one target

  /** Seen from another target, a delivery's step changes nothing. */
  ghost predicate Elsewhere(f: Fan, g: Fan, t: Target) {
    && g.attempts == f.attempts && g.delivered == f.delivered && g.marking == f.marking && g.marked == f.marked
    && (forall u :: u != t ==>
          && (u in g.running <==> u in f.running) && (u in f.running ==> g.running[u] == f.running[u])
          && g.sent[u] == f.sent[u] && g.accepted[u] == f.accepted[u] && g.lost[u] == f.lost[u])
    && (forall r, u :: u != t ==> (Succeeded(g.records, r, u) <==> Succeeded(f.records, r, u)))
    && (forall r, u :: u != t ==> (Holds(g.records, r, u) <==> Holds(f.records, r, u)))
  }

  lemma UpdateElsewhere(records: Deliveries, record: nat, t: Target, status: DeliveryStatus, outcome: Outcome)
    requires Holds(records, record, t)
    ensures var after := Updated(records, record, status, outcome);
            && (forall r, u :: u != t ==> (Succeeded(after, r, u) <==> Succeeded(records, r, u)))
            && (forall r, u :: Holds(after, r, u) <==> Holds(records, r, u))
            && (forall r :: r != record ==> (Succeeded(after, r, t) <==> Succeeded(records, r, t)))
            && (Succeeded(after, record, t) <==> if outcome == LostBefore then Succeeded(records, record, t) else status == SUCCESS)
  {
  }

  lemma SameSuccesses(a: Deliveries, b: Deliveries, t: Target)
    requires forall r :: Succeeded(a, r, t) <==> Succeeded(b, r, t)
    ensures HasSuccess(a, t) <==> HasSuccess(b, t)
    ensures OneSuccess(a, t) <==> OneSuccess(b, t)
  {
    if HasSuccess(a, t) {
      var r :| Succeeded(a, r, t);
      assert Succeeded(b, r, t);
    }
  }

  lemma ElsewhereKeepsInv(f: Fan, g: Fan, t: Target, u: Target)
    requires Elsewhere(f, g, t) && u != t && TargetInv(f, u)
    ensures TargetInv(g, u) && (HasSuccess(g.records, u) <==> HasSuccess(f.records, u)) && (Endangered(g, u) <==> Endangered(f, u))
  {
    SameSuccesses(f.records, g.records, u);
  }

  // ------------------------------------------------ the steps of one delivery

  lemma LookKeepsTarget(f: Fan, t: Target, works: bool)
    requires TargetInv(f, t)
    ensures TargetInv(OnLook(f, t, works), t) && Elsewhere(f, OnLook(f, t, works), t)
  {
  }

  lemma CreateKeepsTarget(f: Fan, t: Target, record: nat, outcome: Outcome)
    requires TargetInv(f, t)
    ensures TargetInv(OnCreate(f, t, record, outcome), t) && Elsewhere(f, OnCreate(f, t, record, outcome), t)
  {
    SameSuccesses(f.records, OnCreate(f, t, record, outcome).records, t);
  }

  lemma SendKeepsTarget(f: Fan, t: Target, answer: Answer)
    requires TargetInv(f, t)
    ensures TargetInv(OnSend(f, t, answer), t) && Elsewhere(f, OnSend(f, t, answer), t)
  {
    match answer
    case Accepts =>
    case Refuses =>
    case NoAnswer =>
    case AcceptsUnheard =>
  }

  lemma SucceedKeepsTarget(f: Fan, t: Target, outcome: Outcome)
    requires TargetInv(f, t)
    ensures TargetInv(OnSucceed(f, t, outcome), t) && Elsewhere(f, OnSucceed(f, t, outcome), t)
  {
    if InAccepted(f.running, t) {
      var record := f.running[t].record;
      UpdateElsewhere(f.records, record, t, SUCCESS, outcome);
      var after := OnSucceed(f, t, outcome).records;
      assert forall r :: Succeeded(f.records, r, t) ==> false;
      if outcome == LostBefore {
        SameSuccesses(f.records, after, t);
      } else {
        assert Succeeded(after, record, t);
      }
    }
  }

  lemma RefuseKeepsTarget(f: Fan, t: Target, outcome: Outcome)
    requires TargetInv(f, t)
    ensures TargetInv(OnRefuse(f, t, outcome), t) && Elsewhere(f, OnRefuse(f, t, outcome), t)
  {
    if t in f.running && f.running[t].Refused? {
      UpdateElsewhere(f.records, f.running[t].record, t, FAILED, outcome);
      SameSuccesses(f.records, OnRefuse(f, t, outcome).records, t);
    }
  }

  lemma RecoverKeepsTarget(f: Fan, t: Target, outcome: Outcome)
    requires TargetInv(f, t)
    ensures TargetInv(OnRecover(f, t, outcome), t) && Elsewhere(f, OnRecover(f, t, outcome), t)
  {
    if t in f.running && f.running[t].Catching? {
      var record := f.running[t].record;
      UpdateElsewhere(f.records, record, t, FAILED, outcome);
      var after := OnRecover(f, t, outcome).records;
      if outcome == LostBefore || !Succeeded(f.records, record, t) {
        SameSuccesses(f.records, after, t);
      } else {
        assert HasSuccess(f.records, t);
        assert forall r :: !Succeeded(after, r, t);
      }
    }
  }

  /** The delivery a step belongs to, if it belongs to one. */
  function TargetOf(e: Event): Option<Target> {
    match e
    case Look(t, _) => Some(t)
    case Create(t, _, _) => Some(t)
    case Send(t, _) => Some(t)
    case Succeed(t, _) => Some(t)
    case Refuse(t, _) => Some(t)
    case Recover(t, _) => Some(t)
    case _ => None
  }

  lemma DeliveryKeepsTarget(f: Fan, e: Event, t: Target)
    requires TargetOf(e) == Some(t) && TargetInv(f, t)
    ensures TargetInv(Step(f, e), t) && Elsewhere(f, Step(f, e), t)
  {
    match e
    case Look(_, works) => LookKeepsTarget(f, t, works);
    case Create(_, record, outcome) => CreateKeepsTarget(f, t, record, outcome);
    case Send(_, answer) => SendKeepsTarget(f, t, answer);
    case Succeed(_, outcome) => SucceedKeepsTarget(f, t, outcome);
    case Refuse(_, outcome) => RefuseKeepsTarget(f, t, outcome);
    case Recover(_, outcome) => RecoverKeepsTarget(f, t, outcome);
  }

  // ------------------------------------------------ the steps of an attempt

  lemma BeginKeepsTarget(f: Fan, event: nat, hooks: set<nat>, attempt: nat, t: Target)
    requires TargetInv(f, t)
    ensures TargetInv(OnBegin(f, event, hooks, attempt), t)
  {
  }

  lemma EndKeepsTarget(f: Fan, event: nat, t: Target)
    requires TargetInv(f, t)
    ensures TargetInv(OnEnd(f, event), t)
  {
  }

  lemma CrashKeepsTarget(f: Fan, event: nat, asked: set<Target>, reached: set<Target>, t: Target)
    requires TargetInv(f, t)
    ensures TargetInv(OnCrash(f, event, asked, reached), t)
  {
  }

  lemma MarkKeepsTarget(f: Fan, event: nat, outcome: Outcome, t: Target)
    requires TargetInv(f, t)
    ensures TargetInv(OnMark(f, event, outcome), t)
  {
  }

  lemma StepKeepsTarget(f: Fan, e: Event, t: Target)
    requires forall u :: TargetInv(f, u)
    ensures TargetInv(Step(f, e), t)
  {
    match e
    case Begin(event, hooks, attempt) => BeginKeepsTarget(f, event, hooks, attempt, t);
    case End(event) => EndKeepsTarget(f, event, t);
    case Mark(event, outcome) => MarkKeepsTarget(f, event, outcome, t);
    case Crash(event, asked, reached) => CrashKeepsTarget(f, event, asked, reached, t);
    case _ =>
      var u := TargetOf(e).value;
      DeliveryKeepsTarget(f, e, u);
      if u != t { ElsewhereKeepsInv(f, Step(f, e), u, t); }
  }

  // ------------------------------------------------ settled successes

  /** A successful record no running delivery may overwrite. */
  ghost predicate Settled(f: Fan, t: Target) { HasSuccess(f.records, t) && !Endangered(f, t) }

  /** Whether an attempt begins, ends or stops, what is settled stays. */
  lemma AttemptKeepsSettled(f: Fan, e: Event, t: Target)
    requires TargetOf(e).None? && Settled(f, t) && TargetInv(f, t)
    ensures Settled(Step(f, e), t) && Step(f, e).sent[t] == f.sent[t]
  {
  }

  lemma OwnKeepsSettled(f: Fan, e: Event, t: Target)
    requires TargetOf(e) == Some(t) && Settled(f, t) && TargetInv(f, t)
    ensures Settled(Step(f, e), t) && Step(f, e).sent == f.sent
  {
  }

  lemma StepKeepsSettled(f: Fan, e: Event, t: Target)
    requires TargetInv(f, t) && (TargetOf(e).Some? ==> TargetInv(f, TargetOf(e).value)) && Settled(f, t)
    ensures Settled(Step(f, e), t) && Step(f, e).sent[t] == f.sent[t]
  {
    if TargetOf(e).None? {
      AttemptKeepsSettled(f, e, t);
    } else if TargetOf(e) == Some(t) {
      OwnKeepsSettled(f, e, t);
    } else {
      DeliveryKeepsTarget(f, e, TargetOf(e).value);
      ElsewhereKeepsInv(f, Step(f, e), TargetOf(e).value, t);
    }
  }

  lemma DeliveredFollows(f: Fan, e: Event)
    requires Inv(f)
    ensures DeliveredSound(Step(f, e))
  {
    var g := Step(f, e);
    forall event, h | event in g.delivered && h in g.delivered[event] ensures DeliveredTo(g, event, h) {
      var t := Target(h, event);
      assert TargetInv(f, t) && (TargetOf(e).Some? ==> TargetInv(f, TargetOf(e).value));
      if event in f.delivered && h in f.delivered[event] {
        assert DeliveredTo(f, event, h);
      } else {
        NewlyDelivered(f, e, event, h);
      }
      StepKeepsSettled(f, e, t);
    }
  }

  lemma NewlyDelivered(f: Fan, e: Event, event: nat, h: nat)
    requires forall t :: TargetInv(f, t)
    requires event in Step(f, e).delivered && h in Step(f, e).delivered[event]
    requires !(event in f.delivered && h in f.delivered[event])
    ensures Settled(f, Target(h, event))
  {
    if TargetOf(e).Some? {
      DeliveryKeepsTarget(f, e, TargetOf(e).value);
    } else {
      assert e.End?;
      assert TargetInv(f, Target(h, event));
    }
  }

  /** A delivery's steps leave marks alone, and an event with a mark begins no attempt. */
  lemma MarksFollow(f: Fan, e: Event)
    requires Inv(f)
    ensures MarksSound(Step(f, e))
    ensures forall event :: event in f.marked ==>
              event in Step(f, e).marked && event in f.delivered && event in Step(f, e).delivered
              && Step(f, e).delivered[event] == f.delivered[event]
  {
    if TargetOf(e).Some? {
      assert TargetInv(f, TargetOf(e).value);
      DeliveryKeepsTarget(f, e, TargetOf(e).value);
    }
  }

  lemma StepKeepsInv(f: Fan, e: Event)
    requires Inv(f)
    ensures Inv(Step(f, e))
  {
    forall t ensures TargetInv(Step(f, e), t) {
      StepKeepsTarget(f, e, t);
    }
    DeliveredFollows(f, e);
    MarksFollow(f, e);
  }

  lemma {:induction false} RunKeepsInv(es: seq<Event>)
    ensures Inv(Run(INIT, es))
  {
    if es != [] {
      RunKeepsInv(es[..|es| - 1]);
      StepKeepsInv(Run(INIT, es[..|es| - 1]), es[|es| - 1]);
    }
  }

  // ------------------------------------------------ main results

  /** In every interleaving of the deliveries of any number of events and attempts,
      a webhook has at most one SUCCESS record for an event, and the receiver has
      accepted the event once for it and once for every acceptance that was lost. */
  lemma AtMostOneSuccess(f: Fan, t: Target, r: nat, s: nat)
    requires Reachable(f)
    ensures Succeeded(f.records, r, t) && Succeeded(f.records, s, t) ==> r == s
    ensures f.accepted[t] == f.lost[t] + (if HasSuccess(f.records, t) || InAccepted(f.running, t) then 1 else 0)
  {
    var es :| f == Run(INIT, es);
    RunKeepsInv(es);
    assert TargetInv(f, t);
  }

  /** Once the success of a delivery is settled it is never sent again, whatever
      attempts follow, and the success stays. */
  lemma {:induction false} NeverSentAgain(es: seq<Event>, more: seq<Event>, t: Target)
    requires Settled(Run(INIT, es), t)
    ensures Settled(Run(Run(INIT, es), more), t)
    ensures Run(Run(INIT, es), more).sent[t] == Run(INIT, es).sent[t]
    ensures Inv(Run(Run(INIT, es), more))
  {
    var f := Run(INIT, es);
    if more == [] {
      RunKeepsInv(es);
    } else {
      var g, e := Run(f, more[..|more| - 1]), more[|more| - 1];
      NeverSentAgain(es, more[..|more| - 1], t);
      StepKeepsInv(g, e);
      assert TargetInv(g, t) && (TargetOf(e).Some? ==> TargetInv(g, TargetOf(e).value));
      StepKeepsSettled(g, e, t);
    }
  }

  /** The webhooks among some that an event has not been delivered to. */
  ghost predicate Undelivered(f: Fan, hooks: set<nat>, event: nat, h: nat) {
    h in hooks && !Settled(f, Target(h, event))
  }

  /** What is left to deliver only shrinks. */
  lemma UndeliveredShrinks(es: seq<Event>, more: seq<Event>, hooks: set<nat>, event: nat, h: nat)
    requires Undelivered(Run(Run(INIT, es), more), hooks, event, h)
    ensures Undelivered(Run(INIT, es), hooks, event, h)
  {
    if Settled(Run(INIT, es), Target(h, event)) {
      NeverSentAgain(es, more, Target(h, event));
    }
  }

  /** An attempt ends without an error only when nothing is left: every webhook it
      found has its successful record, then and ever after. */
  lemma FulfilledMeansAllDelivered(f: Fan, event: nat, h: nat)
    requires Reachable(f) && event in f.delivered && h in f.delivered[event]
    ensures Settled(f, Target(h, event))
  {
    var es :| f == Run(INIT, es);
    RunKeepsInv(es);
    assert DeliveredTo(f, event, h);
  }

  /** No request is on its way, or still to come, for an event that has its mark. */
  lemma MarkedIsQuiet(f: Fan, e: Event, t: Target)
    requires Inv(f) && t.event in f.marked
    ensures Step(f, e).sent[t] == f.sent[t]
  {
    assert TargetInv(f, t);
    if TargetOf(e).Some? {
      assert TargetInv(f, TargetOf(e).value);
      DeliveryKeepsTarget(f, e, TargetOf(e).value);
    }
  }

  /** Main result on marks: an event is marked processed only after an attempt that left
      no webhook it found undelivered, and from then on, in every continuation, the mark
      stays, all of them have their settled success, and no request is made for the
      event, to them or to any other webhook. */
  lemma {:induction false} MarkedMeansDelivered(f: Fan, more: seq<Event>, event: nat)
    requires Reachable(f) && event in f.marked
    ensures var g := Run(f, more);
            && Inv(g) && event in g.marked && event in f.delivered && event in g.delivered && g.delivered[event] == f.delivered[event]
            && (forall h :: h in f.delivered[event] ==> Settled(g, Target(h, event)))
            && (forall h :: g.sent[Target(h, event)] == f.sent[Target(h, event)])
  {
    if more == [] {
      var es :| f == Run(INIT, es);
      RunKeepsInv(es);
      DeliveredIsSettled(f, event);
    } else {
      var g, e := Run(f, more[..|more| - 1]), more[|more| - 1];
      MarkedMeansDelivered(f, more[..|more| - 1], event);
      StepKeepsInv(g, e);
      MarksFollow(g, e);
      DeliveredIsSettled(Step(g, e), event);
      forall h ensures Step(g, e).sent[Target(h, event)] == f.sent[Target(h, event)] {
        MarkedIsQuiet(g, e, Target(h, event));
      }
    }
  }

  lemma DeliveredIsSettled(f: Fan, event: nat)
    requires DeliveredSound(f) && event in f.delivered
    ensures forall h :: h in f.delivered[event] ==> Settled(f, Target(h, event))
  {
    forall h | h in f.delivered[event] ensures Settled(f, Target(h, event)) {
      assert DeliveredTo(f, event, h);
    }
  }

  /** The webhooks the event's last attempt in a run found. */
  ghost function LastFound(es: seq<Event>, event: nat): Option<set<nat>> {
    if es == [] then None
    else
      var before, e := es[..|es| - 1], es[|es| - 1];
      if e.Begin? && e.event == event && Begins(Run(INIT, before), event) then Some(e.hooks) else LastFound(before, event)
  }

  /** What an event stands for: while an attempt runs, or its mark is due or made, it
      is the event's last one, with all the webhooks it found. */
  ghost predicate OfLastAttempt(f: Fan, event: nat, found: Option<set<nat>>) {
    && (event in f.attempts ==> found == Some(HooksOf(f.running, event)))
    && (event in f.marking || event in f.marked ==> event in f.delivered && found == Some(f.delivered[event]))
  }

  lemma SameHooks(f: Fan, g: Fan, event: nat)
    requires forall t: Target :: t.event == event ==> (t in g.running <==> t in f.running)
    ensures HooksOf(g.running, event) == HooksOf(f.running, event)
  {
  }

  lemma DeliveryKeepsLast(f: Fan, e: Event, event: nat, found: Option<set<nat>>)
    requires TargetOf(e).Some? && TargetInv(f, TargetOf(e).value) && OfLastAttempt(f, event, found)
    ensures OfLastAttempt(Step(f, e), event, found)
  {
    DeliveryKeepsTarget(f, e, TargetOf(e).value);
    SameHooks(f, Step(f, e), event);
  }

  lemma BeginFinds(f: Fan, event: nat, hooks: set<nat>, attempt: nat)
    requires Begins(f, event)
    ensures HooksOf(OnBegin(f, event, hooks, attempt).running, event) == hooks
  {
    var running := OnBegin(f, event, hooks, attempt).running;
    forall h | h in hooks ensures h in HooksOf(running, event) {
      assert Target(h, event) in Starting(event, hooks);
    }
  }

  lemma AttemptKeepsLast(f: Fan, e: Event, event: nat, found: Option<set<nat>>)
    requires TargetOf(e).None? && !(e.Begin? && e.event == event && Begins(f, event)) && OfLastAttempt(f, event, found)
    ensures OfLastAttempt(Step(f, e), event, found)
  {
    if event in Step(f, e).attempts { SameHooks(f, Step(f, e), event); }
  }

  /** The attempt behind a mark is the event's last, and what it delivered to is what
      it found. */
  lemma {:induction false} MarkIsOfLastAttempt(es: seq<Event>, event: nat)
    ensures OfLastAttempt(Run(INIT, es), event, LastFound(es, event))
  {
    if es != [] {
      var before, e := es[..|es| - 1], es[|es| - 1];
      var f := Run(INIT, before);
      MarkIsOfLastAttempt(before, event);
      RunKeepsInv(before);
      if TargetOf(e).Some? {
        assert TargetInv(f, TargetOf(e).value);
        DeliveryKeepsLast(f, e, event, LastFound(before, event));
      } else if e.Begin? && e.event == event && Begins(f, event) {
        BeginFinds(f, event, e.hooks, e.attempt);
      } else {
        AttemptKeepsLast(f, e, event, LastFound(before, event));
      }
    }
  }

  lemma ReachableStep(f: Fan, e: Event)
    requires Reachable(f)
    ensures Reachable(Step(f, e))
  {
    var es :| f == Run(INIT, es);
    assert (es + [e])[..|es|] == es;
    assert Step(f, e) == Run(INIT, es + [e]);
  }

  // ------------------------------------------------ one delivery alone

  /** One delivery runs alone, with `n` requests made and `m` accepted so far. */
  ghost predicate At(f: Fan, t: Target, phase: Phase, attempt: nat, records: Deliveries, n: nat, m: nat) {
    && f.running == map[t := phase] && f.attempts == map[t.event := attempt] && f.records == records
    && f.sent[t] == n && f.accepted[t] == m && f.marking == {} && f.marked == {}
  }

  lemma BeginsAt(f: Fan, t: Target, attempt: nat)
    requires f.running == map[] && f.attempts == map[] && f.marking == {} && f.marked == {}
    ensures At(OnBegin(f, t.event, {t.webhook}, attempt), t, Looking, attempt, f.records, f.sent[t], f.accepted[t])
  {
    assert Targets(t.event, {t.webhook}) == {t};
  }

  lemma LooksAt(f: Fan, t: Target, attempt: nat, records: Deliveries, n: nat, m: nat, works: bool)
    requires At(f, t, Looking, attempt, records, n, m)
    ensures At(OnLook(f, t, works), t,
               if !works then Rejected else if HasSuccess(records, t) then Fulfilled else Creating(attempt), attempt, records, n, m)
  {
  }

  lemma CreatesAt(f: Fan, t: Target, attempt: nat, records: Deliveries, n: nat, m: nat, r: nat, outcome: Outcome)
    requires At(f, t, Creating(attempt), attempt, records, n, m) && r !in records
    ensures At(OnCreate(f, t, r, outcome), t, if outcome == Applied then Sending(r) else Rejected, attempt,
               if outcome == LostBefore then records else records[r := Delivery(t, attempt, PENDING)], n, m)
  {
  }

  lemma SendsAt(f: Fan, t: Target, attempt: nat, records: Deliveries, n: nat, m: nat, r: nat, answer: Answer)
    requires At(f, t, Sending(r), attempt, records, n, m)
    ensures At(OnSend(f, t, answer), t,
               match answer { case Accepts => Accepted(r) case Refuses => Refused(r) case _ => Catching(r) },
               attempt, records, n + 1, if answer == Accepts || answer == AcceptsUnheard then m + 1 else m)
  {
    match answer
    case Accepts =>
    case Refuses =>
    case NoAnswer =>
    case AcceptsUnheard =>
  }

  lemma SucceedsAt(f: Fan, t: Target, attempt: nat, records: Deliveries, n: nat, m: nat, r: nat, outcome: Outcome)
    requires At(f, t, Accepted(r), attempt, records, n, m)
    ensures At(OnSucceed(f, t, outcome), t, if outcome == Applied then Fulfilled else Catching(r), attempt,
               Updated(records, r, SUCCESS, outcome), n, m)
  {
  }

  lemma RefusesAt(f: Fan, t: Target, attempt: nat, records: Deliveries, n: nat, m: nat, r: nat, outcome: Outcome)
    requires At(f, t, Refused(r), attempt, records, n, m)
    ensures At(OnRefuse(f, t, outcome), t, Catching(r), attempt, Updated(records, r, FAILED, outcome), n, m)
  {
  }

  lemma RecoversAt(f: Fan, t: Target, attempt: nat, records: Deliveries, n: nat, m: nat, r: nat, outcome: Outcome)
    requires At(f, t, Catching(r), attempt, records, n, m)
    ensures At(OnRecover(f, t, outcome), t, Rejected, attempt, Updated(records, r, FAILED, outcome), n, m)
  {
  }

  lemma EndsAt(f: Fan, t: Target, attempt: nat, records: Deliveries, n: nat, m: nat)
    requires At(f, t, Rejected, attempt, records, n, m)
    ensures var g := OnEnd(f, t.event);
            && g.running == map[] && g.attempts == map[] && g.records == records && g.sent[t] == n && g.accepted[t] == m
            && g.marking == {} && g.marked == {}
  {
    assert t in f.running;
  }

  /** A delivery that finds no success, and whose request is accepted. */
  lemma AcceptedAt(f: Fan, t: Target, attempt: nat, records: Deliveries, n: nat, m: nat, r: nat) returns (g: Fan)
    requires Reachable(f) && At(f, t, Looking, attempt, records, n, m) && r !in records && !HasSuccess(records, t)
    ensures Reachable(g) && At(g, t, Accepted(r), attempt, records[r := Delivery(t, attempt, PENDING)], n + 1, m + 1)
  {
    ReachableStep(f, Look(t, true));
    LooksAt(f, t, attempt, records, n, m, true);
    g := OnLook(f, t, true);
    ReachableStep(g, Create(t, r, Applied));
    CreatesAt(g, t, attempt, records, n, m, r, Applied);
    g := OnCreate(g, t, r, Applied);
    ReachableStep(g, Send(t, Accepts));
    SendsAt(g, t, attempt, records[r := Delivery(t, attempt, PENDING)], n, m, r, Accepts);
    g := OnSend(g, t, Accepts);
  }

  /** Its update to SUCCESS takes effect but is reported as failed, and the catch
      block sets the record to FAILED. */
  lemma OverwrittenAt(f: Fan, t: Target, attempt: nat, records: Deliveries, n: nat, m: nat, r: nat) returns (g: Fan)
    requires Reachable(f) && At(f, t, Accepted(r), attempt, records, n, m)
    ensures Reachable(g) && At(g, t, Rejected, attempt, SetStatus(SetStatus(records, r, SUCCESS), r, FAILED), n, m)
  {
    ReachableStep(f, Succeed(t, LostAfter));
    SucceedsAt(f, t, attempt, records, n, m, r, LostAfter);
    g := OnSucceed(f, t, LostAfter);
    ReachableStep(g, Recover(t, Applied));
    RecoversAt(g, t, attempt, SetStatus(records, r, SUCCESS), n, m, r, Applied);
    g := OnRecover(g, t, Applied);
  }

  lemma EndedAt(f: Fan, t: Target, attempt: nat, records: Deliveries, n: nat, m: nat) returns (g: Fan)
    requires Reachable(f) && At(f, t, Rejected, attempt, records, n, m)
    ensures Reachable(g) && g.running == map[] && g.attempts == map[] && g.marking == {} && g.marked == {}
    ensures g.records == records && g.sent[t] == n && g.accepted[t] == m
  {
    ReachableStep(f, End(t.event));
    EndsAt(f, t, attempt, records, n, m);
    g := OnEnd(f, t.event);
  }

  /** The catch block of a delivery may overwrite its own SUCCESS, and the receiver
      then gets the event again: acceptances are not bounded by one. */
  lemma AcceptedTwice(t: Target)
    ensures exists f :: Reachable(f) && f.accepted[t] == 2
  {
    assert INIT == Run(INIT, []);
    ReachableStep(INIT, Begin(t.event, {t.webhook}, 1));
    BeginsAt(INIT, t, 1);
    var f := AcceptedAt(OnBegin(INIT, t.event, {t.webhook}, 1), t, 1, map[], 0, 0, 1);
    f := OverwrittenAt(f, t, 1, map[1 := Delivery(t, 1, PENDING)], 1, 1, 1);
    f := EndedAt(f, t, 1, f.records, 1, 1);
    ReachableStep(f, Begin(t.event, {t.webhook}, 2));
    BeginsAt(f, t, 2);
    f := AcceptedAt(OnBegin(f, t.event, {t.webhook}, 2), t, 2, f.records, 1, 1, 2);
  }

  /** And a delivery that is accepted once leads to the mark. */
  lemma MarkIsReached(t: Target) returns (f: Fan)
    ensures Reachable(f) && t.event in f.marked && t.event in f.delivered && f.delivered[t.event] == {t.webhook} && f.sent[t] == 1
  {
    assert INIT == Run(INIT, []);
    ReachableStep(INIT, Begin(t.event, {t.webhook}, 1));
    BeginsAt(INIT, t, 1);
    f := AcceptedAt(OnBegin(INIT, t.event, {t.webhook}, 1), t, 1, map[], 0, 0, 1);
    f := MarkedAt(f, t, 1, f.records, 1);
  }

  lemma MarkedAt(f: Fan, t: Target, attempt: nat, records: Deliveries, r: nat) returns (g: Fan)
    requires Reachable(f) && At(f, t, Accepted(r), attempt, records, 1, 1)
    ensures Reachable(g) && t.event in g.marked && t.event in g.delivered && g.delivered[t.event] == {t.webhook} && g.sent[t] == 1
  {
    ReachableStep(f, Succeed(t, Applied));
    SucceedsAt(f, t, attempt, records, 1, 1, r, Applied);
    g := OnSucceed(f, t, Applied);
    g := FulfilledMarksAt(g, t, attempt, SetStatus(records, r, SUCCESS));
  }

  lemma FulfilledMarksAt(f: Fan, t: Target, attempt: nat, records: Deliveries) returns (g: Fan)
    requires Reachable(f) && At(f, t, Fulfilled, attempt, records, 1, 1)
    ensures Reachable(g) && t.event in g.marked && t.event in g.delivered && g.delivered[t.event] == {t.webhook} && g.sent[t] == 1
  {
    ReachableStep(f, End(t.event));
    FulfilledEndsAt(f, t, attempt, records);
    g := MarksAt(OnEnd(f, t.event), t);
  }

  lemma MarksAt(f: Fan, t: Target) returns (g: Fan)
    requires Reachable(f) && t.event in f.marking && t.event in f.delivered
    ensures Reachable(g) && t.event in g.marked && g.delivered == f.delivered && g.sent == f.sent
  {
    ReachableStep(f, Mark(t.event, Applied));
    g := OnMark(f, t.event, Applied);
  }

  lemma FulfilledEndsAt(f: Fan, t: Target, attempt: nat, records: Deliveries)
    requires At(f, t, Fulfilled, attempt, records, 1, 1)
    ensures var g := OnEnd(f, t.event);
            t.event in g.marking && t.event in g.delivered && g.delivered[t.event] == {t.webhook} && g.sent[t] == 1
  {
    assert t in f.running && HooksOf(f.running, t.event) == {t.webhook};
  }

  /** The other common way: the receiver accepts, its answer is lost, and the next
      attempt sends the event again. */
  lemma AcceptedUnheardThenAgain(t: Target)
    ensures exists f :: Reachable(f) && f.accepted[t] == 2
  {
    assert INIT == Run(INIT, []);
    ReachableStep(INIT, Begin(t.event, {t.webhook}, 1));
    BeginsAt(INIT, t, 1);
    var f := UnheardAt(OnBegin(INIT, t.event, {t.webhook}, 1), t, 1);
    f := EndedAt(f, t, 1, f.records, 1, 1);
    ReachableStep(f, Begin(t.event, {t.webhook}, 2));
    BeginsAt(f, t, 2);
    f := AcceptedAt(OnBegin(f, t.event, {t.webhook}, 2), t, 2, f.records, 1, 1, 2);
  }

  lemma UnheardAt(f: Fan, t: Target, attempt: nat) returns (g: Fan)
    requires Reachable(f) && At(f, t, Looking, attempt, map[], 0, 0)
    ensures Reachable(g) && At(g, t, Rejected, attempt, map[1 := Delivery(t, attempt, FAILED)], 1, 1)
  {
    ReachableStep(f, Look(t, true));
    LooksAt(f, t, attempt, map[], 0, 0, true);
    g := OnLook(f, t, true);
    ReachableStep(g, Create(t, 1, Applied));
    CreatesAt(g, t, attempt, map[], 0, 0, 1, Applied);
    g := UnheardSends(OnCreate(g, t, 1, Applied), t, attempt);
  }

  lemma UnheardSends(f: Fan, t: Target, attempt: nat) returns (g: Fan)
    requires Reachable(f) && At(f, t, Sending(1), attempt, map[1 := Delivery(t, attempt, PENDING)], 0, 0)
    ensures Reachable(g) && At(g, t, Rejected, attempt, map[1 := Delivery(t, attempt, FAILED)], 1, 1)
  {
    ReachableStep(f, Send(t, AcceptsUnheard));
    SendsAt(f, t, attempt, map[1 := Delivery(t, attempt, PENDING)], 0, 0, 1, AcceptsUnheard);
    g := UnheardRecovers(OnSend(f, t, AcceptsUnheard), t, attempt);
  }

  lemma UnheardRecovers(f: Fan, t: Target, attempt: nat) returns (g: Fan)
    requires Reachable(f) && At(f, t, Catching(1), attempt, map[1 := Delivery(t, attempt, PENDING)], 1, 1)
    ensures Reachable(g) && At(g, t, Rejected, attempt, map[1 := Delivery(t, attempt, FAILED)], 1, 1)
  {
    ReachableStep(f, Recover(t, Applied));
    RecoversAt(f, t, attempt, map[1 := Delivery(t, attempt, PENDING)], 1, 1, 1, Applied);
    g := OnRecover(f, t, Applied);
  }

  // ------------------------------------------------ the services

  /** How the calls of one delivery go. */
  datatype Conditions = Conditions(lookWorks: bool, create: Outcome, answer: Answer, conclude: Outcome, recover: Outcome)

  class WebhookDeliveryRepository {
    var deliveries: Deliveries

    constructor ()
      ensures deliveries == map[]
    {
      deliveries := map[];
    }

    method FindSuccessfulDelivery(t: Target) returns (found: Option<nat>)
      ensures found.Some? <==> HasSuccess(deliveries, t)
      ensures found.Some? ==> Succeeded(deliveries, found.value, t)
    {
      if r :| r in deliveries && Succeeded(deliveries, r, t) {
        found := Some(r);
      } else {
        found := None;
      }
    }

    method Create(record: nat, t: Target, attempt: nat, outcome: Outcome) returns (ok: bool)
      requires record !in deliveries
      modifies this
      ensures ok <==> outcome == Applied
      ensures deliveries == if outcome == LostBefore then old(deliveries)
                            else old(deliveries)[record := Delivery(t, attempt, PENDING)]
    {
      if outcome != LostBefore {
        deliveries := deliveries[record := Delivery(t, attempt, PENDING)];
      }
      ok := outcome == Applied;
    }

    method Update(record: nat, status: DeliveryStatus, outcome: Outcome) returns (ok: bool)
      modifies this
      ensures ok <==> outcome == Applied
      ensures deliveries == Updated(old(deliveries), record, status, outcome)
    {
      if outcome != LostBefore && record in deliveries {
        deliveries := deliveries[record := deliveries[record].(status := status)];
      }
      ok := outcome == Applied;
    }
  }

  datatype Delivered = Delivered(records: Deliveries, sends: bool, ok: bool)

  /** What one undisturbed call of `deliver` leaves behind. */
  ghost function DeliverOutcome(deliveries: Deliveries, t: Target, record: nat, attempt: nat, c: Conditions): Delivered {
    if !c.lookWorks then Delivered(deliveries, false, false)
    else if HasSuccess(deliveries, t) then Delivered(deliveries, false, true)
    else if c.create == LostBefore then Delivered(deliveries, false, false)
    else
      var made := deliveries[record := Delivery(t, attempt, PENDING)];
      if c.create == LostAfter then Delivered(made, false, false)
      else AnsweredOutcome(made, record, c)
  }

  function AnsweredOutcome(made: Deliveries, record: nat, c: Conditions): Delivered {
    match c.answer
    case Accepts =>
      if c.conclude == Applied then Delivered(SetStatus(made, record, SUCCESS), true, true)
      else Delivered(Updated(Updated(made, record, SUCCESS, c.conclude), record, FAILED, c.recover), true, false)
    case Refuses => Delivered(Updated(Updated(made, record, FAILED, c.conclude), record, FAILED, c.recover), true, false)
    case _ => Delivered(Updated(made, record, FAILED, c.recover), true, false)
  }

  ghost predicate Agrees(f: Fan, t: Target, d: Delivered) {
    && t in f.running && f.running[t] == (if d.ok then Fulfilled else Rejected)
    && f.records == d.records && f.sent[t] == (if d.sends then 1 else 0)
  }

  /** The machine's last four steps for a delivery, with nothing in between. */
  ghost function Concluded(f: Fan, t: Target, c: Conditions): Fan {
    OnRecover(OnRefuse(OnSucceed(OnSend(f, t, c.answer), t, c.conclude), t, c.conclude), t, c.recover)
  }

  /** All its steps, with nothing in between. */
  ghost function Alone(f: Fan, t: Target, record: nat, c: Conditions): Fan {
    Concluded(OnCreate(OnLook(f, t, c.lookWorks), t, record, c.create), t, c)
  }

  /** Steps of other phases do nothing. */
  lemma OtherPhases(f: Fan, t: Target, c: Conditions)
    requires t in f.running
    ensures !f.running[t].Accepted? ==> OnSucceed(f, t, c.conclude) == f
    ensures !f.running[t].Refused? ==> OnRefuse(f, t, c.conclude) == f
    ensures !f.running[t].Catching? ==> OnRecover(f, t, c.recover) == f
  {
  }

  lemma AcceptedConcludes(f: Fan, t: Target, attempt: nat, made: Deliveries, record: nat, c: Conditions)
    requires At(f, t, Accepted(record), attempt, made, 1, 1) && c.answer == Accepts
    ensures Agrees(OnRecover(OnRefuse(OnSucceed(f, t, c.conclude), t, c.conclude), t, c.recover), t, AnsweredOutcome(made, record, c))
  {
    SucceedsAt(f, t, attempt, made, 1, 1, record, c.conclude);
    var g := OnSucceed(f, t, c.conclude);
    OtherPhases(g, t, c);
    if c.conclude != Applied {
      RecoversAt(g, t, attempt, Updated(made, record, SUCCESS, c.conclude), 1, 1, record, c.recover);
    }
  }

  lemma RefusedConcludes(f: Fan, t: Target, attempt: nat, made: Deliveries, record: nat, c: Conditions)
    requires At(f, t, Refused(record), attempt, made, 1, 0) && c.answer == Refuses
    ensures Agrees(OnRecover(OnRefuse(OnSucceed(f, t, c.conclude), t, c.conclude), t, c.recover), t, AnsweredOutcome(made, record, c))
  {
    OtherPhases(f, t, c);
    RefusesAt(f, t, attempt, made, 1, 0, record, c.conclude);
    RecoversAt(OnRefuse(f, t, c.conclude), t, attempt, Updated(made, record, FAILED, c.conclude), 1, 0, record, c.recover);
  }

  lemma UnansweredConcludes(f: Fan, t: Target, attempt: nat, made: Deliveries, record: nat, c: Conditions, m: nat)
    requires At(f, t, Catching(record), attempt, made, 1, m) && (c.answer == NoAnswer || c.answer == AcceptsUnheard)
    ensures Agrees(OnRecover(OnRefuse(OnSucceed(f, t, c.conclude), t, c.conclude), t, c.recover), t, AnsweredOutcome(made, record, c))
  {
    OtherPhases(f, t, c);
    RecoversAt(f, t, attempt, made, 1, m, record, c.recover);
  }

  lemma ConcludesAsMachine(f: Fan, t: Target, attempt: nat, made: Deliveries, record: nat, c: Conditions)
    requires At(f, t, Sending(record), attempt, made, 0, 0)
    ensures Agrees(Concluded(f, t, c), t, AnsweredOutcome(made, record, c))
  {
    SendsAt(f, t, attempt, made, 0, 0, record, c.answer);
    match c.answer
    case Accepts => AcceptedConcludes(OnSend(f, t, c.answer), t, attempt, made, record, c);
    case Refuses => RefusedConcludes(OnSend(f, t, c.answer), t, attempt, made, record, c);
    case _ => UnansweredConcludes(OnSend(f, t, c.answer), t, attempt, made, record, c, if c.answer == AcceptsUnheard then 1 else 0);
  }

  lemma EndedIdles(f: Fan, t: Target, record: nat, c: Conditions)
    requires t in f.running && (f.running[t].Fulfilled? || f.running[t].Rejected?)
    ensures OnCreate(f, t, record, c.create) == f && Concluded(f, t, c) == f
  {
  }

  /** The outcome of `deliver` is the machine's, when nothing comes in between. */
  lemma DeliverIsOneRun(f: Fan, deliveries: Deliveries, t: Target, record: nat, attempt: nat, c: Conditions)
    requires record !in deliveries && At(f, t, Looking, attempt, deliveries, 0, 0)
    ensures Agrees(Alone(f, t, record, c), t, DeliverOutcome(deliveries, t, record, attempt, c))
  {
    LooksAt(f, t, attempt, deliveries, 0, 0, c.lookWorks);
    var g := OnLook(f, t, c.lookWorks);
    if !c.lookWorks || HasSuccess(deliveries, t) {
      EndedIdles(g, t, record, c);
    } else {
      CreatesAt(g, t, attempt, deliveries, 0, 0, record, c.create);
      g := OnCreate(g, t, record, c.create);
      if c.create == Applied {
        ConcludesAsMachine(g, t, attempt, deliveries[record := Delivery(t, attempt, PENDING)], record, c);
      } else {
        EndedIdles(g, t, record, c);
      }
    }
  }

  class WebhookDeliveryService {
    const repository: WebhookDeliveryRepository
    /** Requests made, in order. */
    var requests: seq<Target>

    constructor (repository: WebhookDeliveryRepository)
      ensures this.repository == repository && requests == []
    {
      this.repository := repository;
      requests := [];
    }

    /** `ok` is false where the delivery throws. */
    method Deliver(t: Target, record: nat, attempt: nat, c: Conditions) returns (ok: bool)
      requires record !in repository.deliveries
      modifies this, repository
      ensures var d := DeliverOutcome(old(repository.deliveries), t, record, attempt, c);
              && repository.deliveries == d.records && ok == d.ok
              && requests == old(requests) + (if d.sends then [t] else [])
    {
      if !c.lookWorks {
        return false;
      }
      var existing := repository.FindSuccessfulDelivery(t);
      if existing.Some? {
        return true;
      }
      var created := repository.Create(record, t, attempt, c.create);
      if !created {
        return false;
      }
      requests := requests + [t];
      if c.answer == Accepts {
        ok := repository.Update(record, SUCCESS, c.conclude);
        if ok {
          return;
        }
      } else if c.answer == Refuses {
        var _ := repository.Update(record, FAILED, c.conclude);
      }
      var _ := repository.Update(record, FAILED, c.recover);
      ok := false;
    }
  }

  // ------------------------------------------------ the attempt, one delivery after another

  predicate Extends(before: Deliveries, after: Deliveries) {
    forall r :: r in before ==> r in after && after[r] == before[r]
  }

  predicate Below(deliveries: Deliveries, free: nat) { forall r :: r in deliveries ==> r < free }

  ghost predicate AllSucceeded(deliveries: Deliveries, event: nat, hooks: seq<nat>) {
    forall h :: h in hooks ==> HasSuccess(deliveries, Target(h, event))
  }

  lemma DeliverFacts(deliveries: Deliveries, t: Target, record: nat, attempt: nat, c: Conditions)
    requires Below(deliveries, record)
    ensures var d := DeliverOutcome(deliveries, t, record, attempt, c);
            && (d.ok ==> HasSuccess(d.records, t)) && (d.sends ==> !HasSuccess(deliveries, t))
            && Below(d.records, record + 1) && Extends(deliveries, d.records)
  {
    var d := DeliverOutcome(deliveries, t, record, attempt, c);
    if d.ok && d.sends {
      assert Succeeded(d.records, record, t);
    }
  }

  lemma SuccessesFollow(before: Deliveries, after: Deliveries, t: Target)
    requires Extends(before, after) && HasSuccess(before, t)
    ensures HasSuccess(after, t)
  {
    var r :| Succeeded(before, r, t);
    assert Succeeded(after, r, t);
  }

  lemma SuccessesElsewhere(deliveries: Deliveries, t: Target, record: nat, attempt: nat, c: Conditions, u: Target)
    requires Below(deliveries, record) && u != t
    ensures HasSuccess(DeliverOutcome(deliveries, t, record, attempt, c).records, u) <==> HasSuccess(deliveries, u)
  {
    var after := DeliverOutcome(deliveries, t, record, attempt, c).records;
    forall r ensures Succeeded(after, r, u) <==> Succeeded(deliveries, r, u) {
    }
    SameSuccesses(deliveries, after, u);
  }

  /** What the deliveries of an attempt leave together, one after another: records,
      requests, and how many of them threw. */
  datatype Round = Round(records: Deliveries, requests: seq<Target>, failed: nat)

  ghost function Next(before: Round, t: Target, record: nat, attempt: nat, c: Conditions): Round {
    var d := DeliverOutcome(before.records, t, record, attempt, c);
    Round(d.records, before.requests + (if d.sends then [t] else []), if d.ok then before.failed else before.failed + 1)
  }

  ghost function RoundOf(first: Deliveries, hooks: seq<nat>, event: nat, attempt: nat, free: nat, around: nat -> Conditions): Round {
    if hooks == [] then Round(first, [], 0)
    else
      var i := |hooks| - 1;
      Next(RoundOf(first, hooks[..i], event, attempt, free, around), Target(hooks[i], event), free + i, attempt, around(i))
  }

  predicate Distinct(hooks: seq<nat>) { forall i, j :: 0 <= i < j < |hooks| ==> hooks[i] != hooks[j] }

  lemma {:induction false} RoundExtends(first: Deliveries, hooks: seq<nat>, event: nat, attempt: nat, free: nat, around: nat -> Conditions)
    requires Below(first, free)
    ensures var r := RoundOf(first, hooks, event, attempt, free, around);
            Below(r.records, free + |hooks|) && Extends(first, r.records)
  {
    if hooks != [] {
      var i := |hooks| - 1;
      RoundExtends(first, hooks[..i], event, attempt, free, around);
      DeliverFacts(RoundOf(first, hooks[..i], event, attempt, free, around).records, Target(hooks[i], event), free + i, attempt, around(i));
    }
  }

  /** A webhook not among those delivered to keeps what it had. */
  lemma {:induction false} RoundElsewhere(first: Deliveries, hooks: seq<nat>, event: nat, attempt: nat, free: nat,
                                          around: nat -> Conditions, u: Target)
    requires Below(first, free) && (u.event == event ==> u.webhook !in hooks)
    ensures HasSuccess(RoundOf(first, hooks, event, attempt, free, around).records, u) <==> HasSuccess(first, u)
  {
    if hooks != [] {
      var i := |hooks| - 1;
      var before := RoundOf(first, hooks[..i], event, attempt, free, around);
      assert hooks[i] in hooks && forall h :: h in hooks[..i] ==> h in hooks;
      RoundElsewhere(first, hooks[..i], event, attempt, free, around, u);
      RoundExtends(first, hooks[..i], event, attempt, free, around);
      NextElsewhere(before, Target(hooks[i], event), free + i, attempt, around(i), u);
    }
  }

  lemma NextElsewhere(before: Round, t: Target, record: nat, attempt: nat, c: Conditions, u: Target)
    requires Below(before.records, record) && u != t
    ensures HasSuccess(Next(before, t, record, attempt, c).records, u) <==> HasSuccess(before.records, u)
  {
    SuccessesElsewhere(before.records, t, record, attempt, c, u);
  }

  /** A delivery goes through: its search works, and it finds a success or makes one. */
  ghost predicate GoesThrough(first: Deliveries, t: Target, c: Conditions) {
    c.lookWorks && (HasSuccess(first, t) || (c.create == Applied && c.answer == Accepts && c.conclude == Applied))
  }

  lemma OkIsGoingThrough(deliveries: Deliveries, t: Target, record: nat, attempt: nat, c: Conditions)
    ensures DeliverOutcome(deliveries, t, record, attempt, c).ok <==> GoesThrough(deliveries, t, c)
  {
  }

  lemma SameFateInRound(first: Deliveries, hooks: seq<nat>, event: nat, attempt: nat, free: nat, around: nat -> Conditions, i: nat)
    requires Below(first, free) && Distinct(hooks) && i < |hooks|
    ensures var t := Target(hooks[i], event);
            HasSuccess(RoundOf(first, hooks[..i], event, attempt, free, around).records, t) <==> HasSuccess(first, t)
  {
    RoundElsewhere(first, hooks[..i], event, attempt, free, around, Target(hooks[i], event));
  }

  /** The attempt throws exactly when one of its deliveries does not go through. */
  lemma {:induction false} RoundFailsExactly(first: Deliveries, hooks: seq<nat>, event: nat, attempt: nat, free: nat,
                                             around: nat -> Conditions)
    requires Below(first, free) && Distinct(hooks)
    ensures var failed := RoundOf(first, hooks, event, attempt, free, around).failed;
            failed == 0 <==> forall i :: 0 <= i < |hooks| ==> GoesThrough(first, Target(hooks[i], event), around(i))
  {
    if hooks != [] {
      var i := |hooks| - 1;
      RoundFailsExactly(first, hooks[..i], event, attempt, free, around);
      SameFateInRound(first, hooks, event, attempt, free, around, i);
      OkIsGoingThrough(RoundOf(first, hooks[..i], event, attempt, free, around).records, Target(hooks[i], event), free + i, attempt, around(i));
      assert forall j :: 0 <= j < i ==> hooks[..i][j] == hooks[j];
    }
  }

  /** A delivery makes its request. */
  ghost predicate Asks(first: Deliveries, t: Target, c: Conditions) {
    c.lookWorks && !HasSuccess(first, t) && c.create == Applied
  }

  predicate Recorded(records: Deliveries, record: nat, t: Target, attempt: nat) {
    Holds(records, record, t) && records[record].attempt == attempt
  }

  /** One more delivery leaves the requests and records of the others. */
  lemma NextForOthers(before: Round, t: Target, record: nat, attempt: nat, c: Conditions, u: Target, other: nat)
    requires Below(before.records, record) && u != t
    ensures var r := Next(before, t, record, attempt, c);
            && (u in r.requests <==> u in before.requests)
            && (Recorded(before.records, other, u, attempt) ==> Recorded(r.records, other, u, attempt))
  {
    DeliverFacts(before.records, t, record, attempt, c);
  }

  lemma NextForItself(before: Round, t: Target, record: nat, attempt: nat, c: Conditions)
    requires t !in before.requests
    ensures var r := Next(before, t, record, attempt, c);
            && (t in r.requests <==> Asks(before.records, t, c))
            && (t in r.requests ==> Recorded(r.records, record, t, attempt))
  {
  }

  ghost predicate RightlyAsked(first: Deliveries, r: Round, t: Target, record: nat, attempt: nat, c: Conditions) {
    && (t in r.requests <==> Asks(first, t, c))
    && (t in r.requests ==> Recorded(r.records, record, t, attempt))
  }

  lemma StillRightlyAsked(first: Deliveries, before: Round, t: Target, record: nat, attempt: nat, c: Conditions, u: Target,
                          other: nat, d: Conditions)
    requires Below(before.records, record) && u != t && RightlyAsked(first, before, u, other, attempt, d)
    ensures RightlyAsked(first, Next(before, t, record, attempt, c), u, other, attempt, d)
  {
    NextForOthers(before, t, record, attempt, c, u, other);
  }

  lemma NewlyRightlyAsked(first: Deliveries, before: Round, t: Target, record: nat, attempt: nat, c: Conditions)
    requires t !in before.requests && (HasSuccess(before.records, t) <==> HasSuccess(first, t))
    ensures RightlyAsked(first, Next(before, t, record, attempt, c), t, record, attempt, c)
  {
    NextForItself(before, t, record, attempt, c);
  }

  lemma LastRightlyAsked(first: Deliveries, hooks: seq<nat>, event: nat, attempt: nat, free: nat, around: nat -> Conditions)
    requires Below(first, free) && Distinct(hooks) && hooks != []
    ensures var i := |hooks| - 1;
            RightlyAsked(first, RoundOf(first, hooks, event, attempt, free, around), Target(hooks[i], event), free + i, attempt, around(i))
  {
    var i := |hooks| - 1;
    var before := RoundOf(first, hooks[..i], event, attempt, free, around);
    assert Target(hooks[i], event) !in before.requests by { NotAskedBefore(first, hooks, event, attempt, free, around); }
    assert HasSuccess(before.records, Target(hooks[i], event)) <==> HasSuccess(first, Target(hooks[i], event)) by {
      SameFateInRound(first, hooks, event, attempt, free, around, i);
    }
    NewlyRightlyAsked(first, before, Target(hooks[i], event), free + i, attempt, around(i));
  }

  /** For each webhook of the attempt a request is made exactly when it has no success
      yet and its search and record work, and then its record is there. */
  lemma {:induction false} RoundRequests(first: Deliveries, hooks: seq<nat>, event: nat, attempt: nat, free: nat,
                                         around: nat -> Conditions, i: nat)
    requires Below(first, free) && Distinct(hooks) && i < |hooks|
    ensures RightlyAsked(first, RoundOf(first, hooks, event, attempt, free, around), Target(hooks[i], event), free + i, attempt, around(i))
  {
    var last := |hooks| - 1;
    if i < last {
      var before := RoundOf(first, hooks[..last], event, attempt, free, around);
      assert RightlyAsked(first, before, Target(hooks[i], event), free + i, attempt, around(i)) by {
        RoundRequests(first, hooks[..last], event, attempt, free, around, i);
      }
      assert Below(before.records, free + last) by { RoundExtends(first, hooks[..last], event, attempt, free, around); }
      StillRightlyAsked(first, before, Target(hooks[last], event), free + last, attempt, around(last),
                        Target(hooks[i], event), free + i, around(i));
    } else {
      LastRightlyAsked(first, hooks, event, attempt, free, around);
    }
  }

  lemma NotAskedBefore(first: Deliveries, hooks: seq<nat>, event: nat, attempt: nat, free: nat, around: nat -> Conditions)
    requires Distinct(hooks) && hooks != []
    ensures var last := |hooks| - 1;
            Target(hooks[last], event) !in RoundOf(first, hooks[..last], event, attempt, free, around).requests
  {
    RequestsAreOfHooks(first, hooks[..|hooks| - 1], event, attempt, free, around);
  }

  lemma {:induction false} RequestsAreOfHooks(first: Deliveries, hooks: seq<nat>, event: nat, attempt: nat, free: nat,
                                              around: nat -> Conditions)
    ensures forall t :: t in RoundOf(first, hooks, event, attempt, free, around).requests ==> t.event == event && t.webhook in hooks
  {
    if hooks != [] {
      RequestsAreOfHooks(first, hooks[..|hooks| - 1], event, attempt, free, around);
    }
  }

  lemma NextDelivers(before: Round, hooks: seq<nat>, event: nat, h: nat, record: nat, attempt: nat, c: Conditions)
    requires Below(before.records, record) && (before.failed == 0 ==> AllSucceeded(before.records, event, hooks))
    ensures var r := Next(before, Target(h, event), record, attempt, c);
            r.failed == 0 ==> AllSucceeded(r.records, event, hooks + [h])
  {
    var r := Next(before, Target(h, event), record, attempt, c);
    DeliverFacts(before.records, Target(h, event), record, attempt, c);
    if r.failed == 0 {
      AllFollow(before.records, r.records, event, hooks, h);
    }
  }

  /** No error means that every webhook has its success. */
  lemma {:induction false} RoundDelivers(first: Deliveries, hooks: seq<nat>, event: nat, attempt: nat, free: nat, around: nat -> Conditions)
    requires Below(first, free)
    ensures var r := RoundOf(first, hooks, event, attempt, free, around);
            r.failed == 0 ==> AllSucceeded(r.records, event, hooks)
  {
    if hooks != [] {
      var i := |hooks| - 1;
      var before := RoundOf(first, hooks[..i], event, attempt, free, around);
      assert hooks == hooks[..i] + [hooks[i]];
      assert before.failed == 0 ==> AllSucceeded(before.records, event, hooks[..i]) by {
        RoundDelivers(first, hooks[..i], event, attempt, free, around);
      }
      assert Below(before.records, free + i) by { RoundExtends(first, hooks[..i], event, attempt, free, around); }
      NextDelivers(before, hooks[..i], event, hooks[i], free + i, attempt, around(i));
    }
  }

  lemma AllFollow(before: Deliveries, after: Deliveries, event: nat, hooks: seq<nat>, h: nat)
    requires Extends(before, after) && AllSucceeded(before, event, hooks) && HasSuccess(after, Target(h, event))
    ensures AllSucceeded(after, event, hooks + [h])
  {
    forall g | g in hooks + [h] ensures HasSuccess(after, Target(g, event)) {
      if g in hooks { SuccessesFollow(before, after, Target(g, event)); }
    }
  }

  class WebhookService {
    const deliveryService: WebhookDeliveryService

    constructor (deliveryService: WebhookDeliveryService)
      ensures this.deliveryService == deliveryService
    {
      this.deliveryService := deliveryService;
    }

    /** The attempt for one event, its deliveries one after another: `ok` is false
        where the attempt throws. Records get the ids from `free` on. */
    method DeliverToWorkspace(hooks: seq<nat>, event: nat, attempt: nat, free: nat, around: nat -> Conditions)
      returns (ok: bool)
      requires Below(deliveryService.repository.deliveries, free)
      modifies deliveryService, deliveryService.repository
      ensures var r := RoundOf(old(deliveryService.repository.deliveries), hooks, event, attempt, free, around);
              && deliveryService.repository.deliveries == r.records && (ok <==> r.failed == 0)
              && deliveryService.requests == old(deliveryService.requests) + r.requests
    {
      ghost var first, asked := deliveryService.repository.deliveries, deliveryService.requests;
      var failed := 0;
      for i := 0 to |hooks|
        invariant var r := RoundOf(first, hooks[..i], event, attempt, free, around);
                  && deliveryService.repository.deliveries == r.records && failed == r.failed
                  && deliveryService.requests == asked + r.requests
      {
        RoundExtends(first, hooks[..i], event, attempt, free, around);
        assert hooks[..i + 1][..i] == hooks[..i];
        var fulfilled := deliveryService.Deliver(Target(hooks[i], event), free + i, attempt, around(i));
        if !fulfilled {
          failed := failed + 1;
        }
      }
      assert hooks[..|hooks|] == hooks;
      ok := failed == 0;
    }
  }
}
