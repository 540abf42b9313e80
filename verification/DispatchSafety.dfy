/** What holds of events and dispatchers in every reachable state of the pipeline. */
module DispatchSafety {
  import opened Common
  import opened Outbox
  import opened Pipeline

  // ------------------------------------------------ invariant

  /** The dispatcher is at work on this event. */
  ghost predicate Owns(dispatchers: map<nat, Dispatcher>, d: nat, id: nat) {
    d in dispatchers && dispatchers[d].phase != Between && dispatchers[d].todo != [] && dispatchers[d].todo[0].0 == id
  }

  /** The parts of an event that never change. */
  predicate SameContent(a: OutboxEvent, b: OutboxEvent) {
    a.eventType == b.eventType && a.aggregateId == b.aggregateId && a.workspaceId == b.workspaceId && a.payload == b.payload
  }

  ghost predicate ListsSound(events: Events, dispatchers: map<nat, Dispatcher>) {
    forall d, i :: d in dispatchers && 0 <= i < |dispatchers[d].todo| ==>
      dispatchers[d].todo[i].0 in events && SameContent(dispatchers[d].todo[i].1, events[dispatchers[d].todo[i].0])
  }

  ghost predicate OwnedStatus(events: Events, dispatcher: Dispatcher) {
    dispatcher.phase != Between ==>
      && dispatcher.todo != [] && dispatcher.todo[0].0 in events
      && var status := events[dispatcher.todo[0].0].status;
         if dispatcher.phase == Owning || dispatcher.phase == Enqueued then status == PROCESSING
         else status == PROCESSING || status == COMPLETED
  }

  ghost predicate OwnersSound(events: Events, dispatchers: map<nat, Dispatcher>) {
    forall d :: d in dispatchers ==> OwnedStatus(events, dispatchers[d])
  }

  ghost predicate OwnersUnique(dispatchers: map<nat, Dispatcher>) {
    forall d, e, id :: Owns(dispatchers, d, id) && Owns(dispatchers, e, id) ==> d == e
  }

  ghost predicate ClaimsCounted(events: Events, claims: multiset<nat>) {
    && (forall id :: id in events ==> events[id].attempts == claims[id])
    && (forall id :: id in claims ==> id in events)
  }

  function Route(id: nat, e: OutboxEvent): Option<JobKey> {
    match GetQueue(e.eventType)
    case Some(queue) => Some(JobKey(queue, id))
    case None => None
  }

  ghost predicate InQueue(events: Events, added: set<JobKey>, id: nat) {
    id in events && Route(id, events[id]).Some? && Route(id, events[id]).value in added
  }

  ghost predicate CompletedAdded(events: Events, dispatchers: map<nat, Dispatcher>, added: set<JobKey>) {
    && (forall id :: id in events && events[id].status == COMPLETED ==> InQueue(events, added, id))
    && (forall d :: d in dispatchers && dispatchers[d].phase == Enqueued && dispatchers[d].todo != [] ==>
          InQueue(events, added, dispatchers[d].todo[0].0))
  }

  ghost predicate JobsRouted(events: Events, jobs: map<JobKey, Job>, added: set<JobKey>) {
    forall k :: k in jobs ==>
      && k.id in events && Route(k.id, events[k.id]) == Some(k)
      && jobs[k].data == DataOf(k.id, events[k.id]) && k in added
  }

  ghost predicate IdsKnown(events: Events, ids: set<nat>, producers: map<nat, Producer>) {
    && events.Keys <= ids
    && (forall p :: p in producers && producers[p].Recorded? ==> producers[p].id in ids && producers[p].id !in events)
    && (forall p, q :: (p in producers && q in producers && producers[p].Recorded? && producers[q].Recorded?
                        && producers[p].id == producers[q].id) ==> p == q)
  }

  ghost predicate Inv(w: World) {
    && ListsSound(w.events, w.dispatchers)
    && OwnersSound(w.events, w.dispatchers)
    && OwnersUnique(w.dispatchers)
    && ClaimsCounted(w.events, w.claims)
    && CompletedAdded(w.events, w.dispatchers, w.added)
    && JobsRouted(w.events, w.jobs, w.added)
    && IdsKnown(w.events, w.ids, w.producers)
  }

  // ------------------------------------------------ what event updates may do

  /** Events are only added, and keep their content; completed ones do not change. */
  ghost predicate Evolves(before: Events, after: Events) {
    && before.Keys <= after.Keys
    && (forall id :: id in before ==> SameContent(before[id], after[id]))
    && (forall id :: id in before && before[id].status == COMPLETED ==> after[id] == before[id])
  }

  ghost predicate Update(before: Events, after: Events, id: nat) {
    Evolves(before, after) && ChangesOnly(before, after, id)
  }

  lemma ClaimEvolves(events: Events, id: nat)
    ensures Update(events, AfterClaim(events, id), id)
  {
  }

  lemma CompletionEvolves(events: Events, id: nat, now: int)
    ensures Update(events, AfterCompletion(events, id, now), id)
  {
  }

  lemma FailureEvolves(events: Events, id: nat, attempts: nat, error: string, availableAt: Option<int>)
    ensures Update(events, AfterFailure(events, id, attempts, error, availableAt), id)
  {
  }

  /** The counts of claims follow the three updates. */
  lemma UpdatesCounted(events: Events, claims: multiset<nat>, id: nat, now: int, attempts: nat, error: string, at: Option<int>)
    requires ClaimsCounted(events, claims)
    ensures id in events && Claimable(events[id]) ==> ClaimsCounted(AfterClaim(events, id), claims + multiset{id})
    ensures ClaimsCounted(AfterCompletion(events, id, now), claims)
    ensures ClaimsCounted(AfterFailure(events, id, attempts, error, at), claims)
  {
  }

  /** The list of a dispatcher stays sound when events evolve and it keeps its list
      or drops the head. */
  lemma ListsAfter(w: World, t: World, d: nat)
    requires ListsSound(w.events, w.dispatchers) && Evolves(w.events, t.events) && d in w.dispatchers
    requires t.dispatchers == w.dispatchers - {d}
             || (d in t.dispatchers && t.dispatchers == w.dispatchers[d := t.dispatchers[d]]
                 && (t.dispatchers[d].todo == w.dispatchers[d].todo
                     || (w.dispatchers[d].todo != [] && t.dispatchers[d].todo == w.dispatchers[d].todo[1..])))
    ensures ListsSound(t.events, t.dispatchers)
  {
    forall e, i | e in t.dispatchers && 0 <= i < |t.dispatchers[e].todo|
      ensures t.dispatchers[e].todo[i].0 in t.events
              && SameContent(t.dispatchers[e].todo[i].1, t.events[t.dispatchers[e].todo[i].0])
    {
      var j := if t.dispatchers[e].todo == w.dispatchers[e].todo then i else i + 1;
      assert t.dispatchers[e].todo[i] == w.dispatchers[e].todo[j];
    }
  }

  // ------------------------------------------------ owners

  ghost predicate ChangesOnly(before: Events, after: Events, id: nat) {
    before.Keys == after.Keys && forall i :: i in before && i != id ==> after[i] == before[i]
  }

  ghost predicate UnownedByOthers(dispatchers: map<nat, Dispatcher>, d: nat, id: nat) {
    forall e :: e != d ==> !Owns(dispatchers, e, id)
  }

  lemma OthersKeepStatus(before: Events, after: Events, dispatchers: map<nat, Dispatcher>, d: nat, id: nat)
    requires OwnersSound(before, dispatchers) && ChangesOnly(before, after, id) && UnownedByOthers(dispatchers, d, id)
    ensures forall e :: e in dispatchers && e != d ==> OwnedStatus(after, dispatchers[e])
  {
    forall e | e in dispatchers && e != d ensures OwnedStatus(after, dispatchers[e]) {
      assert OwnedStatus(before, dispatchers[e]) && !Owns(dispatchers, e, id);
    }
  }

  lemma PutKeepsUnique(dispatchers: map<nat, Dispatcher>, d: nat, next: Dispatcher)
    requires OwnersUnique(dispatchers)
    requires next.phase != Between && next.todo != [] ==> UnownedByOthers(dispatchers, d, next.todo[0].0)
    ensures OwnersUnique(dispatchers[d := next])
  {
    var after := dispatchers[d := next];
    forall e, id | e != d ensures Owns(after, e, id) <==> Owns(dispatchers, e, id) {
    }
  }

  lemma QuitKeepsUnique(dispatchers: map<nat, Dispatcher>, d: nat)
    requires OwnersUnique(dispatchers)
    ensures OwnersUnique(dispatchers - {d})
  {
    forall e, id ensures Owns(dispatchers - {d}, e, id) ==> Owns(dispatchers, e, id) {
    }
  }

  lemma ClaimableUnowned(events: Events, dispatchers: map<nat, Dispatcher>, d: nat, id: nat)
    requires OwnersSound(events, dispatchers) && id in events && Claimable(events[id])
    ensures forall e :: !Owns(dispatchers, e, id)
  {
    forall e ensures !Owns(dispatchers, e, id) {
      if e in dispatchers {
        assert OwnedStatus(events, dispatchers[e]);
      }
    }
  }

  ghost predicate OwnersInv(w: World) {
    OwnersSound(w.events, w.dispatchers) && OwnersUnique(w.dispatchers)
  }

  lemma OwnerUnowned(w: World, d: nat)
    requires OwnersInv(w) && d in w.dispatchers && w.dispatchers[d].phase != Between && w.dispatchers[d].todo != []
    ensures UnownedByOthers(w.dispatchers, d, w.dispatchers[d].todo[0].0)
  {
    assert Owns(w.dispatchers, d, w.dispatchers[d].todo[0].0);
  }

  /** One dispatcher's step on its event: the others are not disturbed, and it is
      left sound itself. */
  lemma OwnersAfter(w: World, t: World, d: nat, id: nat)
    requires OwnersInv(w) && ChangesOnly(w.events, t.events, id) && UnownedByOthers(w.dispatchers, d, id)
    requires t.dispatchers == w.dispatchers - {d}
             || (d in t.dispatchers && t.dispatchers == w.dispatchers[d := t.dispatchers[d]]
                 && OwnedStatus(t.events, t.dispatchers[d])
                 && (t.dispatchers[d].phase != Between ==> t.dispatchers[d].todo[0].0 == id))
    ensures OwnersInv(t)
  {
    OthersKeepStatus(w.events, t.events, w.dispatchers, d, id);
    if d in t.dispatchers {
      PutKeepsUnique(w.dispatchers, d, t.dispatchers[d]);
    } else {
      QuitKeepsUnique(w.dispatchers, d);
    }
  }

  lemma WonClaimKeepsOwners(w: World, d: nat, outcome: Outcome)
    requires OwnersInv(w) && Ready(w, d, Between)
    requires var id := w.dispatchers[d].todo[0].0; id in w.events && Claimable(w.events[id])
    ensures OwnersInv(OnClaim(w, d, outcome))
  {
    var id := w.dispatchers[d].todo[0].0;
    ClaimableUnowned(w.events, w.dispatchers, d, id);
    OwnersAfter(w, OnClaim(w, d, outcome), d, id);
  }

  lemma ClaimKeepsOwners(w: World, d: nat, outcome: Outcome)
    requires OwnersInv(w)
    ensures OwnersInv(OnClaim(w, d, outcome))
  {
    if Ready(w, d, Between) {
      var id := w.dispatchers[d].todo[0].0;
      if id in w.events && Claimable(w.events[id]) {
        WonClaimKeepsOwners(w, d, outcome);
      } else if outcome == Applied {
        PutKeepsUnique(w.dispatchers, d, Dispatcher(w.dispatchers[d].todo[1..], Between));
      } else {
        QuitKeepsUnique(w.dispatchers, d);
      }
    }
  }

  lemma EnqueueKeepsOwners(w: World, d: nat, outcome: Outcome)
    requires OwnersInv(w)
    ensures OwnersInv(OnEnqueue(w, d, outcome))
  {
    if Ready(w, d, Owning) {
      EnqueueFrame(w, d, outcome);
      assert OwnedStatus(w.events, w.dispatchers[d]);
      OwnerUnowned(w, d);
      OwnersAfter(w, OnEnqueue(w, d, outcome), d, w.dispatchers[d].todo[0].0);
    }
  }

  lemma CompleteKeepsOwners(w: World, d: nat, now: int, outcome: Outcome)
    requires OwnersInv(w)
    ensures OwnersInv(OnComplete(w, d, now, outcome))
  {
    if Ready(w, d, Enqueued) {
      OwnerUnowned(w, d);
      OwnersAfter(w, OnComplete(w, d, now, outcome), d, w.dispatchers[d].todo[0].0);
    }
  }

  lemma ReadAttemptsKeepsOwners(w: World, d: nat, works: bool)
    requires OwnersInv(w)
    ensures OwnersInv(OnReadAttempts(w, d, works))
  {
    if Ready(w, d, Failing) {
      OwnerUnowned(w, d);
      OwnersAfter(w, OnReadAttempts(w, d, works), d, w.dispatchers[d].todo[0].0);
    }
  }

  lemma GiveBackKeepsOwners(w: World, d: nat, error: string, availableAt: int, outcome: Outcome)
    requires OwnersInv(w)
    ensures OwnersInv(OnGiveBack(w, d, error, availableAt, outcome))
  {
    if d in w.dispatchers && w.dispatchers[d].phase.GivingBack? && w.dispatchers[d].todo != [] {
      OwnerUnowned(w, d);
      OwnersAfter(w, OnGiveBack(w, d, error, availableAt, outcome), d, w.dispatchers[d].todo[0].0);
    }
  }

  lemma DispatchKeepsOwners(w: World, d: nat, e: DispatchEvent)
    requires OwnersInv(w)
    ensures OwnersInv(OnDispatch(w, d, e))
  {
    match e
    case Begin(batch, _, _) => PutKeepsUnique(w.dispatchers, d, Dispatcher(batch, Between));
    case Claim(outcome) => ClaimKeepsOwners(w, d, outcome);
    case Enqueue(outcome) => EnqueueKeepsOwners(w, d, outcome);
    case Complete(now, outcome) => CompleteKeepsOwners(w, d, now, outcome);
    case ReadAttempts(works) => ReadAttemptsKeepsOwners(w, d, works);
    case GiveBack(error, availableAt, outcome) => GiveBackKeepsOwners(w, d, error, availableAt, outcome);
    case StopDispatcher => QuitKeepsUnique(w.dispatchers, d);
  }

  // ------------------------------------------------ lists, claims, queues

  /** What a dispatcher's step does to events and claims. */
  lemma DispatchUpdates(w: World, d: nat, e: DispatchEvent)
    requires ListsSound(w.events, w.dispatchers) && ClaimsCounted(w.events, w.claims)
    ensures var t := OnDispatch(w, d, e);
            && Evolves(w.events, t.events) && t.events.Keys == w.events.Keys
            && ListsSound(t.events, t.dispatchers) && ClaimsCounted(t.events, t.claims)
  {
    match e
    case Begin(batch, _, _) => BeginLists(w, d, e);
    case Claim(outcome) => ClaimUpdates(w, d, outcome);
    case Enqueue(outcome) => EnqueueUpdates(w, d, outcome);
    case Complete(now, outcome) => CompleteUpdates(w, d, now, outcome);
    case ReadAttempts(works) => ReadAttemptsUpdates(w, d, works);
    case GiveBack(error, availableAt, outcome) => GiveBackUpdates(w, d, error, availableAt, outcome);
    case StopDispatcher =>
  }

  ghost predicate Updated(w: World, t: World) {
    && Evolves(w.events, t.events) && t.events.Keys == w.events.Keys
    && ListsSound(t.events, t.dispatchers) && ClaimsCounted(t.events, t.claims)
  }

  lemma BeginLists(w: World, d: nat, e: DispatchEvent)
    requires e.Begin? && ListsSound(w.events, w.dispatchers) && ClaimsCounted(w.events, w.claims)
    ensures Updated(w, OnDispatch(w, d, e))
  {
    var t := OnDispatch(w, d, e);
    if t != w {
      assert ReadFrom(e.batch, w.events, e.now);
      forall c, i | c in t.dispatchers && 0 <= i < |t.dispatchers[c].todo|
        ensures t.dispatchers[c].todo[i].0 in w.events
                && SameContent(t.dispatchers[c].todo[i].1, w.events[t.dispatchers[c].todo[i].0])
      {
        if c != d { assert t.dispatchers[c] == w.dispatchers[c]; }
      }
    }
  }

  ghost predicate ClaimEvents(w: World, t: World, id: nat) {
    || (t.events == w.events && t.claims == w.claims)
    || (t.events == AfterClaim(w.events, id) && t.claims == w.claims + multiset{id} && id in w.events && Claimable(w.events[id]))
  }

  ghost predicate ClaimLists(w: World, t: World, d: nat)
    requires Ready(w, d, Between)
  {
    || t.dispatchers == w.dispatchers - {d}
    || (d in t.dispatchers && t.dispatchers == w.dispatchers[d := t.dispatchers[d]]
        && (t.dispatchers[d].todo == w.dispatchers[d].todo || t.dispatchers[d].todo == w.dispatchers[d].todo[1..])
        && t.dispatchers[d].phase != Enqueued)
  }

  lemma ClaimFrame(w: World, d: nat, outcome: Outcome)
    requires Ready(w, d, Between)
    ensures var t := OnClaim(w, d, outcome);
            ClaimEvents(w, t, w.dispatchers[d].todo[0].0) && t.jobs == w.jobs && t.added == w.added
    ensures ClaimLists(w, OnClaim(w, d, outcome), d)
  {
    ClaimEventsFrame(w, d, outcome);
    ClaimListsFrame(w, d, outcome);
  }

  lemma ClaimEventsFrame(w: World, d: nat, outcome: Outcome)
    requires Ready(w, d, Between)
    ensures var t := OnClaim(w, d, outcome);
            ClaimEvents(w, t, w.dispatchers[d].todo[0].0) && t.jobs == w.jobs && t.added == w.added
  {
  }

  lemma ClaimListsFrame(w: World, d: nat, outcome: Outcome)
    requires Ready(w, d, Between)
    ensures ClaimLists(w, OnClaim(w, d, outcome), d)
  {
  }

  lemma ClaimUpdates(w: World, d: nat, outcome: Outcome)
    requires ListsSound(w.events, w.dispatchers) && ClaimsCounted(w.events, w.claims)
    ensures Updated(w, OnClaim(w, d, outcome))
  {
    if Ready(w, d, Between) {
      var id := w.dispatchers[d].todo[0].0;
      ClaimEvolves(w.events, id);
      ClaimFrame(w, d, outcome);
      UpdatesCounted(w.events, w.claims, id, 0, 0, "", None);
      ListsAfter(w, OnClaim(w, d, outcome), d);
    }
  }

  lemma EnqueueFrame(w: World, d: nat, outcome: Outcome)
    requires Ready(w, d, Owning)
    ensures var t := OnEnqueue(w, d, outcome);
            && t.events == w.events && t.claims == w.claims && d in t.dispatchers
            && t.dispatchers == w.dispatchers[d := t.dispatchers[d]] && t.dispatchers[d].todo == w.dispatchers[d].todo
  {
  }

  lemma EnqueueUpdates(w: World, d: nat, outcome: Outcome)
    requires ListsSound(w.events, w.dispatchers) && ClaimsCounted(w.events, w.claims)
    ensures Updated(w, OnEnqueue(w, d, outcome))
  {
    if Ready(w, d, Owning) {
      EnqueueFrame(w, d, outcome);
      ListsAfter(w, OnEnqueue(w, d, outcome), d);
    }
  }

  lemma CompleteUpdates(w: World, d: nat, now: int, outcome: Outcome)
    requires ListsSound(w.events, w.dispatchers) && ClaimsCounted(w.events, w.claims)
    ensures Updated(w, OnComplete(w, d, now, outcome))
  {
    if Ready(w, d, Enqueued) {
      var id := w.dispatchers[d].todo[0].0;
      CompletionEvolves(w.events, id, now);
      UpdatesCounted(w.events, w.claims, id, now, 0, "", None);
      ListsAfter(w, OnComplete(w, d, now, outcome), d);
    }
  }

  lemma ReadAttemptsUpdates(w: World, d: nat, works: bool)
    requires ListsSound(w.events, w.dispatchers) && ClaimsCounted(w.events, w.claims)
    ensures Updated(w, OnReadAttempts(w, d, works))
  {
    if Ready(w, d, Failing) {
      ListsAfter(w, OnReadAttempts(w, d, works), d);
    }
  }

  lemma GiveBackUpdates(w: World, d: nat, error: string, availableAt: int, outcome: Outcome)
    requires ListsSound(w.events, w.dispatchers) && ClaimsCounted(w.events, w.claims)
    ensures Updated(w, OnGiveBack(w, d, error, availableAt, outcome))
  {
    if d in w.dispatchers && w.dispatchers[d].phase.GivingBack? && w.dispatchers[d].todo != [] {
      var id, attempts := w.dispatchers[d].todo[0].0, w.dispatchers[d].phase.attempts;
      FailureEvolves(w.events, id, attempts, error, Some(availableAt));
      UpdatesCounted(w.events, w.claims, id, 0, attempts, error, Some(availableAt));
      ListsAfter(w, OnGiveBack(w, d, error, availableAt, outcome), d);
    }
  }

  // ------------------------------------------------ completed events and jobs

  lemma InQueueFollows(before: Events, after: Events, added: set<JobKey>, more: set<JobKey>, id: nat)
    requires Evolves(before, after) && added <= more && InQueue(before, added, id)
    ensures InQueue(after, more, id)
  {
  }

  ghost predicate Queued(w: World) {
    CompletedAdded(w.events, w.dispatchers, w.added) && JobsRouted(w.events, w.jobs, w.added)
  }

  /** When one event changes, without being completed unless its job was added, and
      one dispatcher moves, without standing after an enqueue, queued things stay queued. */
  lemma QueuedFollows(w: World, t: World, d: nat, id: nat)
    requires Queued(w) && Evolves(w.events, t.events) && ChangesOnly(w.events, t.events, id)
    requires DispatchFrame(w, t, d) && t.jobs == w.jobs && t.added == w.added
    requires id in w.events && t.events[id].status == COMPLETED ==>
               w.events[id].status == COMPLETED || InQueue(w.events, w.added, id)
    requires d in t.dispatchers ==> t.dispatchers[d].phase != Enqueued || t.dispatchers == w.dispatchers
    ensures Queued(t)
  {
    forall i | i in t.events && t.events[i].status == COMPLETED ensures InQueue(t.events, t.added, i) {
      InQueueFollows(w.events, t.events, w.added, t.added, i);
    }
    forall c | c in t.dispatchers && t.dispatchers[c].phase == Enqueued && t.dispatchers[c].todo != []
      ensures InQueue(t.events, t.added, t.dispatchers[c].todo[0].0)
    {
      assert c in w.dispatchers && t.dispatchers[c] == w.dispatchers[c];
      InQueueFollows(w.events, t.events, w.added, t.added, t.dispatchers[c].todo[0].0);
    }
    JobsFollow(w.events, t.events, w.jobs, w.added);
  }

  lemma JobsFollow(before: Events, after: Events, jobs: map<JobKey, Job>, added: set<JobKey>)
    requires Evolves(before, after) && JobsRouted(before, jobs, added)
    ensures JobsRouted(after, jobs, added)
  {
  }

  lemma EnqueueKeepsQueued(w: World, d: nat, outcome: Outcome)
    requires Queued(w) && ListsSound(w.events, w.dispatchers)
    ensures Queued(OnEnqueue(w, d, outcome))
  {
    if Ready(w, d, Owning) {
      var t := OnEnqueue(w, d, outcome);
      var (id, e) := w.dispatchers[d].todo[0];
      EnqueueFrame(w, d, outcome);
      assert SameContent(e, w.events[id]);
      EnqueueAddsJob(w, d, outcome);
      forall c | c in t.dispatchers && t.dispatchers[c].phase == Enqueued && t.dispatchers[c].todo != []
        ensures InQueue(t.events, t.added, t.dispatchers[c].todo[0].0)
      {
        if c != d { assert t.dispatchers[c] == w.dispatchers[c]; }
      }
    }
  }

  /** Adding to a queue, seen from its result: the job is there, with the event's
      content, in the queue of the event's type. */
  lemma EnqueueAddsJob(w: World, d: nat, outcome: Outcome)
    requires Ready(w, d, Owning) && JobsRouted(w.events, w.jobs, w.added)
    requires var (id, e) := w.dispatchers[d].todo[0]; id in w.events && SameContent(e, w.events[id])
    ensures var t := OnEnqueue(w, d, outcome);
            && w.added <= t.added && JobsRouted(w.events, t.jobs, t.added)
            && (t.dispatchers[d].phase == Enqueued ==> InQueue(w.events, t.added, w.dispatchers[d].todo[0].0))
  {
    var (id, e) := w.dispatchers[d].todo[0];
    assert Route(id, e) == Route(id, w.events[id]) && DataOf(id, e) == DataOf(id, w.events[id]);
  }

  lemma ClaimKeepsQueued(w: World, d: nat, outcome: Outcome)
    requires Queued(w)
    ensures Queued(OnClaim(w, d, outcome))
  {
    if Ready(w, d, Between) {
      ClaimEvolves(w.events, w.dispatchers[d].todo[0].0);
      ClaimFrame(w, d, outcome);
      QueuedFollows(w, OnClaim(w, d, outcome), d, w.dispatchers[d].todo[0].0);
    }
  }

  lemma CompleteKeepsQueued(w: World, d: nat, now: int, outcome: Outcome)
    requires Queued(w)
    ensures Queued(OnComplete(w, d, now, outcome))
  {
    if Ready(w, d, Enqueued) {
      CompletionEvolves(w.events, w.dispatchers[d].todo[0].0, now);
      QueuedFollows(w, OnComplete(w, d, now, outcome), d, w.dispatchers[d].todo[0].0);
    }
  }

  lemma GiveBackKeepsQueued(w: World, d: nat, error: string, at: int, outcome: Outcome)
    requires Queued(w)
    ensures Queued(OnGiveBack(w, d, error, at, outcome))
  {
    if d in w.dispatchers && w.dispatchers[d].phase.GivingBack? && w.dispatchers[d].todo != [] {
      FailureEvolves(w.events, w.dispatchers[d].todo[0].0, w.dispatchers[d].phase.attempts, error, Some(at));
      QueuedFollows(w, OnGiveBack(w, d, error, at, outcome), d, w.dispatchers[d].todo[0].0);
    }
  }

  lemma QueuedIdle(w: World, t: World, d: nat)
    requires Queued(w) && DispatchFrame(w, t, d)
    requires t.events == w.events && t.jobs == w.jobs && t.added == w.added
    requires d in t.dispatchers ==> t.dispatchers[d].phase != Enqueued || t.dispatchers == w.dispatchers
    ensures Queued(t)
  {
    forall c | c in t.dispatchers && t.dispatchers[c].phase == Enqueued && t.dispatchers[c].todo != []
      ensures InQueue(t.events, t.added, t.dispatchers[c].todo[0].0)
    {
      assert c in w.dispatchers && t.dispatchers[c] == w.dispatchers[c];
    }
  }

  lemma ReadAttemptsKeepsQueued(w: World, d: nat, works: bool)
    requires Queued(w)
    ensures Queued(OnReadAttempts(w, d, works))
  {
    QueuedIdle(w, OnReadAttempts(w, d, works), d);
  }

  lemma BeginKeepsQueued(w: World, d: nat, e: DispatchEvent)
    requires Queued(w) && e.Begin?
    ensures Queued(OnDispatch(w, d, e))
  {
    QueuedIdle(w, OnDispatch(w, d, e), d);
  }

  lemma DispatchKeepsQueued(w: World, d: nat, e: DispatchEvent)
    requires Queued(w) && ListsSound(w.events, w.dispatchers)
    ensures Queued(OnDispatch(w, d, e))
  {
    match e
    case Enqueue(outcome) => EnqueueKeepsQueued(w, d, outcome);
    case Claim(outcome) => ClaimKeepsQueued(w, d, outcome);
    case Complete(now, outcome) => CompleteKeepsQueued(w, d, now, outcome);
    case GiveBack(error, at, outcome) => GiveBackKeepsQueued(w, d, error, at, outcome);
    case ReadAttempts(works) => ReadAttemptsKeepsQueued(w, d, works);
    case Begin(_, _, _) => BeginKeepsQueued(w, d, e);
    case StopDispatcher => QueuedIdle(w, Quit(w, d), d);
  }

  lemma DispatchKeepsInv(w: World, d: nat, e: DispatchEvent)
    requires Inv(w)
    ensures Inv(OnDispatch(w, d, e)) && Evolves(w.events, OnDispatch(w, d, e).events)
  {
    DispatchKeepsOwners(w, d, e);
    DispatchUpdates(w, d, e);
    DispatchKeepsQueued(w, d, e);
    SameKeysSameIds(w, OnDispatch(w, d, e));
  }

  lemma SameKeysSameIds(w: World, t: World)
    requires IdsKnown(w.events, w.ids, w.producers)
    requires t.events.Keys == w.events.Keys && t.ids == w.ids && t.producers == w.producers
    ensures IdsKnown(t.events, t.ids, t.producers)
  {
  }

  // ------------------------------------------------ producers and workers

  /** A new event changes nothing for the others. */
  lemma NewEventKeepsInv(w: World, t: World, id: nat)
    requires ListsSound(w.events, w.dispatchers) && OwnersInv(w) && ClaimsCounted(w.events, w.claims) && Queued(w)
    requires id !in w.events && id in t.events && t.events == w.events[id := t.events[id]]
    requires t.events[id].status == PENDING && t.events[id].attempts == 0
    requires t.dispatchers == w.dispatchers && t.claims == w.claims && t.added == w.added && t.jobs == w.jobs
    ensures ListsSound(t.events, t.dispatchers) && OwnersInv(t) && ClaimsCounted(t.events, t.claims) && Queued(t)
    ensures Evolves(w.events, t.events)
  {
    forall i | i in t.events && t.events[i].status == COMPLETED ensures InQueue(t.events, t.added, i) {
      InQueueFollows(w.events, t.events, w.added, t.added, i);
    }
    JobsFollow(w.events, t.events, w.jobs, w.added);
    ListsFollow(w.events, t.events, w.dispatchers);
    forall d | d in t.dispatchers ensures OwnedStatus(t.events, t.dispatchers[d]) {
      assert OwnedStatus(w.events, w.dispatchers[d]);
    }
  }

  lemma ListsFollow(before: Events, after: Events, dispatchers: map<nat, Dispatcher>)
    requires Evolves(before, after) && ListsSound(before, dispatchers)
    ensures ListsSound(after, dispatchers)
  {
  }

  function MadeId(w: World, e: ProduceEvent): nat {
    match e
    case CreateEvent(id, _, _, _, _, _) => id
    case RequestExport(_, id, _, _) => id
    case EmitMail(p, _, _) => if p in w.producers && w.producers[p].Recorded? then w.producers[p].id else 0
    case _ => 0
  }

  lemma MadeEventIsNew(w: World, e: ProduceEvent)
    requires IdsKnown(w.events, w.ids, w.producers)
    ensures var t, id := OnProduce(w, e), MadeId(w, e);
            t.events == w.events
            || (id !in w.events && id in t.events && t.events == w.events[id := t.events[id]]
                && t.events[id].status == PENDING && t.events[id].attempts == 0)
  {
  }

  lemma ProduceKeepsIds(w: World, e: ProduceEvent)
    requires IdsKnown(w.events, w.ids, w.producers)
    ensures IdsKnown(OnProduce(w, e).events, OnProduce(w, e).ids, OnProduce(w, e).producers)
  {
  }

  lemma ProduceKeepsInv(w: World, e: ProduceEvent)
    requires Inv(w)
    ensures Inv(OnProduce(w, e)) && Evolves(w.events, OnProduce(w, e).events)
  {
    MadeEventIsNew(w, e);
    ProduceKeepsIds(w, e);
    if OnProduce(w, e).events != w.events {
      NewEventKeepsInv(w, OnProduce(w, e), MadeId(w, e));
    }
  }

  lemma WorkKeepsInv(w: World, k: JobKey, e: WorkEvent)
    requires Inv(w)
    ensures Inv(OnWork(w, k, e)) && OnWork(w, k, e).events == w.events
  {
    if k in w.jobs {
      WorkFrame(w, k, e);
    }
  }

  lemma EvictKeepsInv(w: World, k: JobKey)
    requires Inv(w)
    ensures Inv(OnEvict(w, k)) && OnEvict(w, k).events == w.events
  {
  }

  lemma StepKeepsInv(w: World, e: Event)
    requires Inv(w)
    ensures Inv(Step(w, e))
  {
    match e
    case Dispatching(d, x) => DispatchKeepsInv(w, d, x);
    case WorkingOn(k, x) => WorkKeepsInv(w, k, x);
    case Evicting(k) => EvictKeepsInv(w, k);
    case Producing(x) => ProduceKeepsInv(w, x);
  }

  lemma StepEvolves(w: World, e: Event)
    requires Inv(w)
    ensures Evolves(w.events, Step(w, e).events)
  {
    match e
    case Dispatching(d, x) => DispatchUpdates(w, d, x);
    case WorkingOn(k, x) => WorkKeepsInv(w, k, x);
    case Evicting(k) => EvictKeepsInv(w, k);
    case Producing(x) => ProduceKeepsInv(w, x);
  }

  lemma {:induction false} RunKeepsInv(events: seq<Event>)
    ensures Inv(Run(INIT, events))
  {
    if events != [] {
      RunKeepsInv(events[..|events| - 1]);
      StepKeepsInv(Run(INIT, events[..|events| - 1]), events[|events| - 1]);
    }
  }

  lemma ReachableInv(w: World)
    requires Reachable(w)
    ensures Inv(w)
  {
    var events :| w == Run(INIT, events);
    RunKeepsInv(events);
  }

  // ------------------------------------------------ main results

  /** No event has two owners, and an event in work is PROCESSING, or already
      COMPLETED when the call that completed it reported a failure. */
  lemma AtMostOneOwner(w: World, d: nat, e: nat, id: nat)
    requires Reachable(w) && Owns(w.dispatchers, d, id)
    ensures id in w.events && (w.events[id].status == PROCESSING || w.events[id].status == COMPLETED)
    ensures Owns(w.dispatchers, e, id) ==> e == d
  {
    ReachableInv(w);
    assert OwnedStatus(w.events, w.dispatchers[d]);
  }

  /** The attempts of an event are the successful claims it has had. */
  lemma AttemptsAreClaims(w: World, id: nat)
    requires Reachable(w) && id in w.events
    ensures w.events[id].attempts == w.claims[id]
  {
    ReachableInv(w);
  }

  /** An event is COMPLETED only after a job with its id was added to the queue of
      its type; every job in a queue belongs there and carries its event's content. */
  lemma CompletedMeansEnqueued(w: World, id: nat)
    requires Reachable(w) && id in w.events && w.events[id].status == COMPLETED
    ensures var queue := GetQueue(w.events[id].eventType); queue.Some? && JobKey(queue.value, id) in w.added
  {
    ReachableInv(w);
  }

  lemma JobsCarryTheirEvents(w: World, k: JobKey)
    requires Reachable(w) && k in w.jobs
    ensures k.id in w.events && GetQueue(w.events[k.id].eventType) == Some(k.queue)
    ensures var e := w.events[k.id]; w.jobs[k].data == JobData(k.id, e.eventType, e.aggregateId, e.workspaceId, e.payload)
    ensures k in w.added
  {
    ReachableInv(w);
  }

  /** COMPLETED is final, over every continuation. */
  lemma {:induction false} CompletedIsFinal(w: World, events: seq<Event>, id: nat)
    requires Inv(w) && id in w.events && w.events[id].status == COMPLETED
    ensures id in Run(w, events).events && Run(w, events).events[id] == w.events[id] && Inv(Run(w, events))
  {
    if events != [] {
      CompletedIsFinal(w, events[..|events| - 1], id);
      StepKeepsInv(Run(w, events[..|events| - 1]), events[|events| - 1]);
      StepEvolves(Run(w, events[..|events| - 1]), events[|events| - 1]);
    }
  }
}
