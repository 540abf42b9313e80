/** The dispatcher of the machine is the loop of the code, cut between its calls. */
module DispatchTurns {
  import opened Common
  import opened Outbox
  import opened Pipeline

  ghost predicate Kept(R: World -> bool) { forall w: World, e: Event :: R(w) ==> R(Step(w, e)) }

  lemma Takes(R: World -> bool, w: World, d: nat, e: DispatchEvent)
    requires Kept(R) && R(w)
    ensures R(OnDispatch(w, d, e))
  {
    assert Step(w, Dispatching(d, e)) == OnDispatch(w, d, e);
  }

  /** The dispatcher works on the first event of its list. */
  ghost predicate Stands(w: World, d: nat, id: nat, e: OutboxEvent, rest: Batch, phase: DispatchPhase) {
    && d in w.dispatchers && w.dispatchers[d] == Dispatcher([(id, e)] + rest, phase) && id in w.events
    && ([(id, e)] + rest)[1..] == rest
  }

  /** What a turn leaves: the event as given, and the dispatcher gone or at the next event. */
  ghost predicate Leaves(w: World, t: World, d: nat, id: nat, after: OutboxEvent, rest: Batch, gone: bool) {
    && t.events == w.events[id := after]
    && (if gone then d !in t.dispatchers else d in t.dispatchers && t.dispatchers[d] == Dispatcher(rest, Between))
  }

  lemma GivesBack(w: World, d: nat, id: nat, e: OutboxEvent, rest: Batch, attempts: nat, c: Circumstance, wait: int)
    requires Stands(w, d, id, e, rest, GivingBack(attempts))
    ensures var given := if c.giveBack != LostBefore && w.events[id].status == PROCESSING
                         then GivenBack(w.events[id], attempts, c.error, Some(c.at + wait)) else w.events[id];
            Leaves(w, OnGiveBack(w, d, c.error, c.at + wait, c.giveBack), d, id, given, rest, c.giveBack != Applied)
  {
    assert w.events[id := w.events[id]] == w.events;
  }

  /** From the failed try block on. */
  lemma Fails(R: World -> bool, w: World, d: nat, id: nat, e: OutboxEvent, rest: Batch, c: Circumstance, wait: int) returns (t: World)
    requires Kept(R) && R(w) && Stands(w, d, id, e, rest, Failing)
    ensures R(t)
    ensures var given := if c.readAttempts && c.giveBack != LostBefore && w.events[id].status == PROCESSING
                         then GivenBack(w.events[id], w.events[id].attempts, c.error, Some(c.at + wait)) else w.events[id];
            Leaves(w, t, d, id, given, rest, !c.readAttempts || c.giveBack != Applied)
  {
    Takes(R, w, d, ReadAttempts(c.readAttempts));
    t := OnReadAttempts(w, d, c.readAttempts);
    assert w.events[id := w.events[id]] == w.events;
    if c.readAttempts {
      GivesBack(t, d, id, e, rest, w.events[id].attempts, c, wait);
      Takes(R, t, d, GiveBack(c.error, c.at + wait, c.giveBack));
      t := OnGiveBack(t, d, c.error, c.at + wait, c.giveBack);
    }
  }

  lemma CompletesIt(w: World, d: nat, id: nat, e: OutboxEvent, rest: Batch, c: Circumstance)
    requires Stands(w, d, id, e, rest, Enqueued) && w.events[id] == Claimed(e)
    ensures var t := OnComplete(w, d, c.at, c.complete);
            && t.events == w.events[id := if c.complete != LostBefore then Finished(Claimed(e), c.at) else Claimed(e)]
            && (if c.complete == Applied then d in t.dispatchers && t.dispatchers[d] == Dispatcher(rest, Between)
                else Stands(t, d, id, e, rest, Failing))
  {
    assert w.events[id := w.events[id]] == w.events;
  }

  lemma Enqueues(w: World, d: nat, id: nat, e: OutboxEvent, rest: Batch, c: Circumstance)
    requires Stands(w, d, id, e, rest, Owning)
    ensures var t := OnEnqueue(w, d, c.add);
            && t.events == w.events
            && Stands(t, d, id, e, rest, if GetQueue(e.eventType).Some? && c.add == Applied then Enqueued else Failing)
  {
  }

  /** The try block and what follows its failure. */
  lemma Tries(R: World -> bool, w: World, d: nat, id: nat, e: OutboxEvent, rest: Batch, c: Circumstance, wait: int) returns (t: World)
    requires Kept(R) && R(w) && Stands(w, d, id, e, rest, Owning) && w.events[id] == Claimed(e)
    ensures R(t)
    ensures var after := if Completes(e, c) then Finished(Claimed(e), c.at)
                         else if c.readAttempts && c.giveBack != LostBefore
                         then GivenBack(Claimed(e), e.attempts + 1, c.error, Some(c.at + wait)) else Claimed(e);
            Leaves(w, t, d, id, after, rest, !GoesWell(e, c) && (!c.readAttempts || c.giveBack != Applied))
  {
    Takes(R, w, d, Enqueue(c.add));
    Enqueues(w, d, id, e, rest, c);
    t := OnEnqueue(w, d, c.add);
    if GetQueue(e.eventType).Some? && c.add == Applied {
      Takes(R, t, d, Complete(c.at, c.complete));
      CompletesIt(t, d, id, e, rest, c);
      t := OnComplete(t, d, c.at, c.complete);
    }
    if !GoesWell(e, c) { t := Fails(R, t, d, id, e, rest, c, wait); }
  }

  lemma Claims(w: World, d: nat, id: nat, e: OutboxEvent, rest: Batch, c: Circumstance)
    requires Stands(w, d, id, e, rest, Between) && w.events[id] == e && Claimable(e)
    ensures var t := OnClaim(w, d, c.claim);
            && t.events == w.events[id := if c.claim != LostBefore then Claimed(e) else e]
            && (if c.claim == Applied then Stands(t, d, id, e, rest, Owning) else d !in t.dispatchers)
  {
    assert w.events[id := w.events[id]] == w.events;
  }

  /** Every turn of the loop is a path of the machine: it leaves the event as the loop does,
      and the dispatcher stops exactly where the loop throws. */
  lemma TurnIsAPath(R: World -> bool, w: World, d: nat, id: nat, e: OutboxEvent, rest: Batch, c: Circumstance) returns (t: World)
    requires Kept(R) && R(w) && Stands(w, d, id, e, rest, Between) && w.events[id] == e && Claimable(e)
    ensures R(t) && Leaves(w, t, d, id, Dispatched(e, c), rest, Throws(e, c))
  {
    Takes(R, w, d, Claim(c.claim));
    Claims(w, d, id, e, rest, c);
    t := OnClaim(w, d, c.claim);
    if c.claim == Applied { t := Tries(R, t, d, id, e, rest, c, RetryDelay(e.attempts)); }
  }
}
