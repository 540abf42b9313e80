/** Events whose dispatcher stopped between the claim and the outcome. */
module StalledEvents {
  import opened Common
  import opened Outbox
  import opened Pipeline
  import opened DispatchSafety
  import opened PipelineRuns

  /** In work, but nobody works on it. */
  ghost predicate Stalled(w: World, id: nat) {
    id in w.events && w.events[id].status == PROCESSING && forall d :: !Owns(w.dispatchers, d, id)
  }

  // ------------------------------------------------ it stays as it is

  ghost predicate Same(w: World, t: World, id: nat)
    requires id in w.events
  {
    Stalled(t, id) && t.events[id] == w.events[id]
  }

  /** A dispatcher's step on another event, or none. */
  lemma ElsewhereKeeps(w: World, t: World, d: nat, id: nat)
    requires Stalled(w, id) && DispatchFrame(w, t, d)
    requires id in t.events && t.events[id] == w.events[id] && !Owns(t.dispatchers, d, id)
    ensures Same(w, t, id)
  {
    forall e ensures !Owns(t.dispatchers, e, id) {
      assert !Owns(w.dispatchers, e, id);
    }
  }

  lemma ClaimKeeps(w: World, d: nat, outcome: Outcome, id: nat)
    requires Stalled(w, id)
    ensures Same(w, OnClaim(w, d, outcome), id)
  {
    assert !Owns(w.dispatchers, d, id);
    ElsewhereKeeps(w, OnClaim(w, d, outcome), d, id);
  }

  lemma EnqueueKeeps(w: World, d: nat, outcome: Outcome, id: nat)
    requires Stalled(w, id)
    ensures Same(w, OnEnqueue(w, d, outcome), id)
  {
    assert !Owns(w.dispatchers, d, id);
    ElsewhereKeeps(w, OnEnqueue(w, d, outcome), d, id);
  }

  lemma CompleteKeeps(w: World, d: nat, now: int, outcome: Outcome, id: nat)
    requires Stalled(w, id)
    ensures Same(w, OnComplete(w, d, now, outcome), id)
  {
    assert !Owns(w.dispatchers, d, id);
    ElsewhereKeeps(w, OnComplete(w, d, now, outcome), d, id);
  }

  lemma ReadKeeps(w: World, d: nat, works: bool, id: nat)
    requires Stalled(w, id)
    ensures Same(w, OnReadAttempts(w, d, works), id)
  {
    assert !Owns(w.dispatchers, d, id);
    ElsewhereKeeps(w, OnReadAttempts(w, d, works), d, id);
  }

  lemma GiveBackKeeps(w: World, d: nat, error: string, at: int, outcome: Outcome, id: nat)
    requires Stalled(w, id)
    ensures Same(w, OnGiveBack(w, d, error, at, outcome), id)
  {
    assert !Owns(w.dispatchers, d, id);
    ElsewhereKeeps(w, OnGiveBack(w, d, error, at, outcome), d, id);
  }

  lemma DispatchKeeps(w: World, d: nat, e: DispatchEvent, id: nat)
    requires Stalled(w, id)
    ensures Same(w, OnDispatch(w, d, e), id)
  {
    assert !Owns(w.dispatchers, d, id);
    match e
    case Begin(_, _, _) => ElsewhereKeeps(w, OnDispatch(w, d, e), d, id);
    case Claim(outcome) => ClaimKeeps(w, d, outcome, id);
    case Enqueue(outcome) => EnqueueKeeps(w, d, outcome, id);
    case Complete(now, outcome) => CompleteKeeps(w, d, now, outcome, id);
    case ReadAttempts(works) => ReadKeeps(w, d, works, id);
    case GiveBack(error, at, outcome) => GiveBackKeeps(w, d, error, at, outcome, id);
    case StopDispatcher => ElsewhereKeeps(w, Quit(w, d), d, id);
  }

  lemma StepKeeps(w: World, e: Event, id: nat)
    requires Inv(w) && Stalled(w, id)
    ensures Same(w, Step(w, e), id)
  {
    match e
    case Dispatching(d, x) => DispatchKeeps(w, d, x, id);
    case WorkingOn(k, x) => if k in w.jobs { WorkFrame(w, k, x); }
    case Evicting(k) =>
    case Producing(x) => MadeEventIsNew(w, x);
  }

  lemma {:induction false} StalledStays(w: World, es: seq<Event>, id: nat)
    requires Inv(w) && Stalled(w, id)
    ensures Same(w, Run(w, es), id) && Inv(Run(w, es))
  {
    if es != [] {
      var before := es[..|es| - 1];
      StalledStays(w, before, id);
      StepKeeps(Run(w, before), es[|es| - 1], id);
      StepKeepsInv(Run(w, before), es[|es| - 1]);
    }
  }

  // ------------------------------------------------ an owned event can go on

  ghost predicate From(w: World, v: World) { exists es :: v == Run(w, es) }

  lemma FromIsClosed(w: World)
    ensures StepClosed((v: World) => From(w, v)) && From(w, w)
  {
    assert w == Run(w, []);
    forall v: World, e: Event | From(w, v) ensures From(w, Step(v, e)) {
      var es :| v == Run(w, es);
      assert (es + [e])[..|es|] == es;
      assert Step(v, e) == Run(w, es + [e]);
    }
  }

  /** Done with, or to be claimed again from some time on. */
  ghost predicate Settles(e: OutboxEvent) { e.status == COMPLETED || exists now: int :: Due(e, now) }

  lemma GivenBackSettles(e: OutboxEvent, attempts: nat, error: string, at: Option<int>)
    ensures Settles(GivenBack(e, attempts, error, at))
  {
    var g := GivenBack(e, attempts, error, at);
    assert Due(g, if g.availableAt.Some? then g.availableAt.value else 0);
  }

  ghost predicate WorksOn(w: World, d: nat, id: nat, phase: DispatchPhase) {
    d in w.dispatchers && w.dispatchers[d].phase == phase && w.dispatchers[d].todo != [] && w.dispatchers[d].todo[0].0 == id
    && id in w.events && w.events[id].status == PROCESSING
  }

  lemma GivingBackEnds(R: World -> bool, w: World, d: nat, id: nat, attempts: nat) returns (v: World)
    requires StepClosed(R) && R(w) && WorksOn(w, d, id, GivingBack(attempts))
    ensures R(v) && id in v.events && Settles(v.events[id])
  {
    OneStep(R, w, Dispatching(d, GiveBack("", 0, Applied)));
    v := OnGiveBack(w, d, "", 0, Applied);
    GivenBackSettles(w.events[id], attempts, "", Some(0));
  }

  lemma FailingEnds(R: World -> bool, w: World, d: nat, id: nat) returns (v: World)
    requires StepClosed(R) && R(w) && WorksOn(w, d, id, Failing)
    ensures R(v) && id in v.events && Settles(v.events[id])
  {
    OneStep(R, w, Dispatching(d, ReadAttempts(true)));
    v := GivingBackEnds(R, OnReadAttempts(w, d, true), d, id, w.events[id].attempts);
  }

  lemma EnqueuedEnds(R: World -> bool, w: World, d: nat, id: nat) returns (v: World)
    requires StepClosed(R) && R(w) && WorksOn(w, d, id, Enqueued)
    ensures R(v) && id in v.events && Settles(v.events[id])
  {
    OneStep(R, w, Dispatching(d, Complete(0, Applied)));
    v := OnComplete(w, d, 0, Applied);
  }

  lemma OwningEnds(R: World -> bool, w: World, d: nat, id: nat) returns (v: World)
    requires StepClosed(R) && R(w) && WorksOn(w, d, id, Owning)
    ensures R(v) && id in v.events && Settles(v.events[id])
  {
    OneStep(R, w, Dispatching(d, Enqueue(Applied)));
    v := OnEnqueue(w, d, Applied);
    if GetQueue(w.dispatchers[d].todo[0].1.eventType).Some? {
      v := EnqueuedEnds(R, v, d, id);
    } else {
      v := FailingEnds(R, v, d, id);
    }
  }

  lemma OwnedEnds(w: World, d: nat, id: nat) returns (v: World)
    requires Owns(w.dispatchers, d, id) && id in w.events && w.events[id].status == PROCESSING
    ensures From(w, v) && id in v.events && Settles(v.events[id])
  {
    var R := (v: World) => From(w, v);
    FromIsClosed(w);
    match w.dispatchers[d].phase
    case Owning => v := OwningEnds(R, w, d, id);
    case Enqueued => v := EnqueuedEnds(R, w, d, id);
    case Failing => v := FailingEnds(R, w, d, id);
    case GivingBack(attempts) => v := GivingBackEnds(R, w, d, id, attempts);
  }

  // ------------------------------------------------ main results

  /** An event that is PROCESSING is ever COMPLETED, or due again, in some continuation
      if and only if a dispatcher is still at work on it. */
  lemma SettlesIffOwned(w: World, id: nat)
    requires Reachable(w) && id in w.events && w.events[id].status == PROCESSING
    ensures (exists v :: From(w, v) && id in v.events && Settles(v.events[id])) <==> (exists d :: Owns(w.dispatchers, d, id))
  {
    ReachableInv(w);
    if d :| Owns(w.dispatchers, d, id) {
      var v := OwnedEnds(w, d, id);
    } else {
      forall v | From(w, v) ensures !(id in v.events && Settles(v.events[id])) {
        var es :| v == Run(w, es);
        StalledStays(w, es, id);
      }
    }
  }

  /** Without one it stays exactly as it is, whatever happens. */
  lemma StalledForEver(w: World, es: seq<Event>, id: nat)
    requires Reachable(w) && Stalled(w, id)
    ensures Stalled(Run(w, es), id) && Run(w, es).events[id] == w.events[id]
  {
    ReachableInv(w);
    StalledStays(w, es, id);
  }

  lemma StalledIn(R: World -> bool) returns (w: World)
    requires Closed(R)
    ensures R(w) && Stalled(w, 1)
  {
    w := HookEventStored(R);
    w := Claims(R, w, 1, HOOK_EVENT, 0);
    w := Stops(R, w);
  }

  /** A run that comes to that: a dispatcher claims an event and stops. */
  lemma StalledIsReached()
    ensures exists w :: Reachable(w) && Stalled(w, 1)
  {
    ReachableIsClosed();
    var w := StalledIn((w: World) => Reachable(w));
  }
}
