/** The transactional outbox: stored events, the repository that changes them in
    place, one pass of the dispatcher, and the waits between failed claims. */
module Outbox {
  import opened Common

  datatype Status = PENDING | PROCESSING | COMPLETED | FAILED

  datatype Payload = Plain(text: string) | ForExport(exportId: nat)

  datatype OutboxEvent = OutboxEvent(eventType: string, aggregateId: nat, workspaceId: Option<nat>, payload: Payload,
                                     status: Status, attempts: nat, createdAt: int,
                                     availableAt: Option<int>, processedAt: Option<int>, lastError: Option<string>)

  type Events = map<nat, OutboxEvent>

  const MAX_ATTEMPTS: nat := 5

  predicate Claimable(e: OutboxEvent) { e.status == PENDING || e.status == FAILED }

  predicate Due(e: OutboxEvent, now: int) {
    Claimable(e) && (e.availableAt.None? || e.availableAt.value <= now)
  }

  // ------------------------------------------------ single-event updates

  function Claimed(e: OutboxEvent): OutboxEvent { e.(status := PROCESSING, attempts := e.attempts + 1) }

  function Finished(e: OutboxEvent, now: int): OutboxEvent { e.(status := COMPLETED, processedAt := Some(now)) }

  /** The update after a failed dispatch. `attempts` is the count read just before;
      at the maximum the time of the next try is removed instead of set. */
  function GivenBack(e: OutboxEvent, attempts: nat, error: string, availableAt: Option<int>): OutboxEvent {
    e.(status := FAILED, lastError := Some(error),
       availableAt := if attempts >= MAX_ATTEMPTS then None else if availableAt.Some? then availableAt else e.availableAt)
  }

  function AfterClaim(events: Events, id: nat): Events {
    if id in events && Claimable(events[id]) then events[id := Claimed(events[id])] else events
  }

  function AfterCompletion(events: Events, id: nat, now: int): Events {
    if id in events && events[id].status == PROCESSING then events[id := Finished(events[id], now)] else events
  }

  function AfterFailure(events: Events, id: nat, attempts: nat, error: string, availableAt: Option<int>): Events {
    if id in events && events[id].status == PROCESSING
    then events[id := GivenBack(events[id], attempts, error, availableAt)] else events
  }

  // ------------------------------------------------ the batch of a pass

  type Batch = seq<(nat, OutboxEvent)>

  ghost predicate InBatch(batch: Batch, id: nat) {
    exists i :: 0 <= i < |batch| && batch[i].0 == id
  }

  function DueIds(events: Events, now: int): set<nat> {
    set id | id in events && Due(events[id], now)
  }

  ghost predicate DistinctIds(batch: Batch) {
    forall i, j :: 0 <= i < j < |batch| ==> batch[i].0 != batch[j].0
  }

  ghost predicate OldestFirst(batch: Batch) {
    forall i, j :: 0 <= i < j < |batch| ==> batch[i].1.createdAt <= batch[j].1.createdAt
  }

  ghost predicate ReadFrom(batch: Batch, events: Events, now: int) {
    forall i :: 0 <= i < |batch| ==> batch[i].0 in events && batch[i].1 == events[batch[i].0] && Due(batch[i].1, now)
  }

  /** What a query for at most `limit` due events may return: the oldest ones, oldest first. */
  ghost predicate IsBatch(events: Events, limit: nat, now: int, batch: Batch) {
    && |batch| == Min(limit, |DueIds(events, now)|)
    && DistinctIds(batch) && OldestFirst(batch) && ReadFrom(batch, events, now)
    && forall i, id :: 0 <= i < |batch| && id in DueIds(events, now) && !InBatch(batch, id)
         ==> batch[i].1.createdAt <= events[id].createdAt
  }

  lemma {:induction false} OldestExists(events: Events, ids: set<nat>)
    requires ids != {} && ids <= events.Keys
    ensures exists id :: id in ids && forall x :: x in ids ==> events[id].createdAt <= events[x].createdAt
  {
    var y :| y in ids;
    var older := set x | x in ids && events[x].createdAt < events[y].createdAt;
    if older == {} {
      assert forall x :: x in ids ==> x in older || events[y].createdAt <= events[x].createdAt;
    } else {
      assert older < ids by { assert y !in older; }
      OldestExists(events, older);
      var m :| m in older && forall x :: x in older ==> events[m].createdAt <= events[x].createdAt;
      assert forall x :: x in ids ==> x in older || events[y].createdAt <= events[x].createdAt;
    }
  }

  predicate MayBeTaken(e: OutboxEvent, now: int) {
    && (e.status == PENDING || e.status == FAILED)
    && (e.availableAt.None? || e.availableAt.value <= now)
  }

  /** What a batch is: events that are PENDING or FAILED and whose time has come, each once,
      oldest first; when it is not full there are no others, and none it leaves out is older. */
  lemma BatchMeans(events: Events, limit: nat, now: int, batch: Batch, i: nat, j: nat, id: nat)
    requires IsBatch(events, limit, now, batch)
    ensures |batch| <= limit
    ensures i < |batch| ==> batch[i].0 in events && batch[i].1 == events[batch[i].0] && MayBeTaken(batch[i].1, now)
    ensures i < j < |batch| ==> batch[i].0 != batch[j].0 && batch[i].1.createdAt <= batch[j].1.createdAt
    ensures id in events && MayBeTaken(events[id], now) && (forall k :: 0 <= k < |batch| ==> batch[k].0 != id) ==>
              |batch| == limit && (i < |batch| ==> batch[i].1.createdAt <= events[id].createdAt)
  {
    if id in events && MayBeTaken(events[id], now) && (forall k :: 0 <= k < |batch| ==> batch[k].0 != id) {
      assert id in DueIds(events, now) && !InBatch(batch, id);
      if |batch| < limit { AllTaken(events, now, batch, id); }
    }
  }

  lemma AllTaken(events: Events, now: int, batch: Batch, id: nat)
    requires DistinctIds(batch) && ReadFrom(batch, events, now) && |batch| == |DueIds(events, now)| && id in DueIds(events, now)
    ensures InBatch(batch, id)
  {
    TakenCounts(batch);
    if id !in Taken(batch) {
      assert Taken(batch) <= DueIds(events, now) - {id};
      SubsetCounts(Taken(batch), DueIds(events, now) - {id});
    } else {
      var i :| 0 <= i < |batch| && batch[i].0 == id;
      assert InBatch(batch, batch[i].0);
    }
  }

  function Taken(batch: Batch): set<nat> { set i | 0 <= i < |batch| :: batch[i].0 }

  lemma {:induction false} TakenCounts(batch: Batch)
    requires DistinctIds(batch)
    ensures |Taken(batch)| == |batch|
  {
    if batch != [] {
      TakenCounts(batch[..|batch| - 1]);
      assert Taken(batch) == Taken(batch[..|batch| - 1]) + {batch[|batch| - 1].0};
    }
  }

  lemma {:induction false} SubsetCounts(a: set<nat>, b: set<nat>)
    requires a <= b
    ensures |a| <= |b|
  {
    if a != {} {
      var x :| x in a;
      SubsetCounts(a - {x}, b - {x});
    }
  }

  class OutboxRepository {
    var events: Events

    constructor ()
      ensures events == map[]
    {
      events := map[];
    }

    method FindPending(limit: nat, now: int) returns (batch: Batch)
      ensures IsBatch(events, limit, now, batch)
    {
      var due := DueIds(events, now);
      var rest := due;
      batch := [];
      while |batch| < limit && rest != {}
        invariant rest <= due && |batch| + |rest| == |due| && |batch| <= limit
        invariant DistinctIds(batch) && OldestFirst(batch) && ReadFrom(batch, events, now)
        invariant forall id :: id in due ==> (id in rest <==> !InBatch(batch, id))
        invariant forall i, id :: 0 <= i < |batch| && id in rest ==> batch[i].1.createdAt <= events[id].createdAt
        decreases |rest|
      {
        OldestExists(events, rest);
        var id :| id in rest && forall x :: x in rest ==> events[id].createdAt <= events[x].createdAt;
        batch, rest := TakeOldest(batch, rest, id);
      }
    }

    /** One more event of the query's answer. */
    method TakeOldest(batch: Batch, rest: set<nat>, id: nat) returns (longer: Batch, fewer: set<nat>)
      requires rest <= events.Keys && id in rest
      requires forall x :: x in rest ==> !InBatch(batch, x)
      ensures longer == batch + [(id, events[id])] && fewer == rest - {id}
      ensures forall x :: InBatch(longer, x) <==> x == id || InBatch(batch, x)
      ensures DistinctIds(batch) ==> DistinctIds(longer)
    {
      longer, fewer := batch + [(id, events[id])], rest - {id};
      forall x ensures InBatch(longer, x) <==> x == id || InBatch(batch, x) {
        if InBatch(batch, x) {
          var i :| 0 <= i < |batch| && batch[i].0 == x;
          assert longer[i].0 == x;
        }
        assert longer[|batch|].0 == id;
      }
      forall i | 0 <= i < |batch| ensures batch[i].0 != id {
        assert InBatch(batch, batch[i].0);
      }
    }

    method MarkProcessing(id: nat) returns (event: Option<OutboxEvent>)
      modifies this
      ensures events == AfterClaim(old(events), id)
      ensures events == if id in old(events) && (old(events)[id].status == PENDING || old(events)[id].status == FAILED)
                        then old(events)[id := old(events)[id].(status := PROCESSING, attempts := old(events)[id].attempts + 1)]
                        else old(events)
      ensures event == if id in old(events) && Claimable(old(events)[id]) then Some(events[id]) else None
    {
      event := None;
      if id in events && (events[id].status == PENDING || events[id].status == FAILED) {
        events := events[id := events[id].(status := PROCESSING, attempts := events[id].attempts + 1)];
        event := Some(events[id]);
      }
    }

    method MarkCompleted(id: nat, now: int) returns (event: Option<OutboxEvent>)
      modifies this
      ensures events == AfterCompletion(old(events), id, now)
      ensures events == if id in old(events) && old(events)[id].status == PROCESSING
                        then old(events)[id := old(events)[id].(status := COMPLETED, processedAt := Some(now))] else old(events)
      ensures event == if id in old(events) && old(events)[id].status == PROCESSING then Some(events[id]) else None
    {
      event := None;
      if id in events && events[id].status == PROCESSING {
        events := events[id := events[id].(status := COMPLETED, processedAt := Some(now))];
        event := Some(events[id]);
      }
    }

    method MarkFailed(id: nat, error: string, availableAt: Option<int>) returns (event: Option<OutboxEvent>)
      modifies this
      ensures events == if id in old(events)
                        then AfterFailure(old(events), id, old(events)[id].attempts, error, availableAt) else old(events)
      ensures id in old(events) && old(events)[id].status == PROCESSING ==>
                && events == old(events)[id := old(events)[id].(status := FAILED, lastError := Some(error),
                                                                availableAt := events[id].availableAt)]
                && (old(events)[id].attempts >= 5 ==> events[id].availableAt.None?)
                && (old(events)[id].attempts < 5 ==>
                      events[id].availableAt == if availableAt.Some? then availableAt else old(events)[id].availableAt)
      ensures event == if id in old(events) && old(events)[id].status == PROCESSING then Some(events[id]) else None
    {
      if id !in events {
        return None;
      }
      var found := events[id];
      if found.status != PROCESSING {
        return None;
      }
      if found.attempts >= MAX_ATTEMPTS {
        events := events[id := found.(status := FAILED, lastError := Some(error), availableAt := None)];
      } else {
        var updated := found.(status := FAILED, lastError := Some(error));
        events := events[id := if availableAt.Some? then updated.(availableAt := availableAt) else updated];
      }
      event := Some(events[id]);
    }
  }

  // ------------------------------------------------ routing

  datatype QueueName = EMAIL | REMINDER | WEBHOOK | EXPORT

  function GetQueue(eventType: string): Option<QueueName> {
    match eventType
    case "TASK_CREATED" | "TASK_COMPLETED" | "TASK_ASSIGNED" => Some(WEBHOOK)
    case "REMINDER_DUE" => Some(REMINDER)
    case "EMAIL_REQUESTED" => Some(EMAIL)
    case "EXPORT_REQUESTED" => Some(EXPORT)
    case _ => None
  }

  /** Which queue an event's type goes to. */
  lemma RoutingTable(eventType: string)
    ensures GetQueue(eventType) == Some(WEBHOOK) <==> eventType in {"TASK_CREATED", "TASK_COMPLETED", "TASK_ASSIGNED"}
    ensures GetQueue(eventType) == Some(REMINDER) <==> eventType == "REMINDER_DUE"
    ensures GetQueue(eventType) == Some(EMAIL) <==> eventType == "EMAIL_REQUESTED"
    ensures GetQueue(eventType) == Some(EXPORT) <==> eventType == "EXPORT_REQUESTED"
  {
  }

  /** What the dispatcher puts into a job. */
  datatype JobData = JobData(outboxEventId: nat, eventType: string, aggregateId: nat, workspaceId: Option<nat>,
                             payload: Payload)

  function DataOf(id: nat, e: OutboxEvent): JobData {
    JobData(id, e.eventType, e.aggregateId, e.workspaceId, e.payload)
  }

  datatype JobKey = JobKey(queue: QueueName, id: nat)

  // ------------------------------------------------ one pass

  function Pow2(n: nat): nat { if n == 0 then 1 else 2 * Pow2(n - 1) }

  /** The wait before the next try, from the attempts of the event as it was read. */
  function RetryDelay(attempts: nat): int { Min(30000, 1000 * Pow2(attempts)) }

  /** What happens around one event of the batch: how each call goes, and the time
      when its outcome is stored. */
  datatype Circumstance = Circumstance(
    claim: Outcome, add: Outcome, complete: Outcome, readAttempts: bool, giveBack: Outcome, at: int, error: string)

  /** The try block of the loop ends without an error. */
  predicate GoesWell(e: OutboxEvent, c: Circumstance) {
    GetQueue(e.eventType).Some? && c.add == Applied && c.complete == Applied
  }

  /** The event is marked COMPLETED, be the call that did it reported as failed or not. */
  predicate Completes(e: OutboxEvent, c: Circumstance) {
    GetQueue(e.eventType).Some? && c.add == Applied && c.complete != LostBefore
  }

  /** What a pass makes of one event it comes to, whatever becomes of the others. */
  function Dispatched(e: OutboxEvent, c: Circumstance): OutboxEvent {
    if c.claim == LostBefore then e
    else if c.claim == LostAfter then Claimed(e)
    else if Completes(e, c) then Finished(Claimed(e), c.at)
    else if !c.readAttempts || c.giveBack == LostBefore then Claimed(e)
    else GivenBack(Claimed(e), e.attempts + 1, c.error, Some(c.at + RetryDelay(e.attempts)))
  }

  /** The claim, and the two calls of `markFailed`, stand outside the try block: when
      one of them throws, the pass ends. */
  predicate Throws(e: OutboxEvent, c: Circumstance) {
    c.claim != Applied || (!GoesWell(e, c) && (!c.readAttempts || c.giveBack != Applied))
  }

  /** How many events of the batch a pass comes to: all, or those up to the first
      whose uncaught call throws. */
  function Reached(batch: Batch, around: nat -> Circumstance): (n: nat)
    ensures n <= |batch|
  {
    if batch == [] then 0
    else
      var n := Reached(batch[..|batch| - 1], around);
      if n < |batch| - 1 || (n > 0 && Throws(batch[n - 1].1, around(batch[n - 1].0))) then n else |batch|
  }

  ghost predicate PassResult(before: Events, batch: Batch, around: nat -> Circumstance, after: Events) {
    && after.Keys == before.Keys
    && forall id :: id in before ==>
         after[id] == if InBatch(batch[..Reached(batch, around)], id) then Dispatched(before[id], around(id)) else before[id]
  }

  ghost predicate AllDispatched(before: Events, batch: Batch, around: nat -> Circumstance, after: Events) {
    && after.Keys == before.Keys
    && forall id :: id in before ==> after[id] == if InBatch(batch, id) then Dispatched(before[id], around(id)) else before[id]
  }

  /** Jobs are only added, for events of the batch, in the queue of their type, with
      their content. */
  ghost predicate JobsOf(before: Events, batch: Batch, held: map<JobKey, JobData>, jobs: map<JobKey, JobData>) {
    && (forall key :: key in held ==> key in jobs && jobs[key] == held[key])
    && (forall key :: key in jobs && key !in held ==>
          && InBatch(batch, key.id) && key.id in before
          && GetQueue(before[key.id].eventType) == Some(key.queue) && jobs[key] == DataOf(key.id, before[key.id]))
  }

  lemma JobsMean(before: Events, batch: Batch, held: map<JobKey, JobData>, jobs: map<JobKey, JobData>, key: JobKey)
    requires JobsOf(before, batch, held, jobs) && key in jobs
    ensures (key in held && jobs[key] == held[key])
            || (key.id in before && var e := before[key.id];
                                    jobs[key] == JobData(key.id, e.eventType, e.aggregateId, e.workspaceId, e.payload))
  {
  }

  predicate JobQueued(e: OutboxEvent, id: nat, jobs: map<JobKey, JobData>) {
    GetQueue(e.eventType).Some? && JobKey(GetQueue(e.eventType).value, id) in jobs
  }

  /** Every event of the batch that is COMPLETED has its job. */
  ghost predicate CompletedQueued(before: Events, batch: Batch, after: Events, jobs: map<JobKey, JobData>) {
    forall id :: InBatch(batch, id) && id in before && id in after && after[id].status == COMPLETED ==> JobQueued(before[id], id, jobs)
  }

  class OutboxDispatcher {
    const repository: OutboxRepository
    var jobs: map<JobKey, JobData>

    constructor (repository: OutboxRepository)
      ensures this.repository == repository && jobs == map[]
    {
      this.repository := repository;
      jobs := map[];
    }

    /** Adding a job: a job id that the queue already has is left alone. */
    method Add(queue: QueueName, data: JobData, outcome: Outcome) returns (added: bool)
      modifies this
      ensures added <==> outcome == Applied
      ensures jobs == if outcome != LostBefore && JobKey(queue, data.outboxEventId) !in old(jobs)
                      then old(jobs)[JobKey(queue, data.outboxEventId) := data] else old(jobs)
    {
      var key := JobKey(queue, data.outboxEventId);
      if outcome != LostBefore && key !in jobs {
        jobs := jobs[key := data];
      }
      added := outcome == Applied;
    }

    /** The try block: enqueue and complete; `ok` is false where it throws. */
    method Enqueue(id: nat, event: OutboxEvent, c: Circumstance) returns (ok: bool)
      requires id in repository.events && repository.events[id] == Claimed(event)
      modifies this, repository
      ensures ok <==> GoesWell(event, c)
      ensures repository.events == if Completes(event, c) then old(repository.events)[id := Finished(Claimed(event), c.at)]
                                   else old(repository.events)
      ensures AddsJob(id, event, old(jobs), jobs)
      ensures Completes(event, c) ==> JobQueued(event, id, jobs)
    {
      var queue := GetQueue(event.eventType);
      if queue.None? {
        return false;
      }
      var added := Add(queue.value, DataOf(id, event), c.add);
      if !added {
        return false;
      }
      if c.complete != LostBefore {
        var _ := repository.MarkCompleted(id, c.at);
      }
      ok := c.complete == Applied;
    }

    /** The body of the loop: claim, enqueue, store the outcome; `threw` tells that an
        uncaught call failed. */
    method DispatchOne(id: nat, event: OutboxEvent, c: Circumstance) returns (threw: bool)
      requires id in repository.events && event == repository.events[id] && Claimable(event)
      modifies this, repository
      ensures threw <==> Throws(event, c)
      ensures repository.events == old(repository.events)[id := Dispatched(event, c)]
      ensures AddsJob(id, event, old(jobs), jobs)
      ensures repository.events[id].status == COMPLETED ==> JobQueued(event, id, jobs)
    {
      if c.claim == LostBefore {
        return true;
      }
      var processing := repository.MarkProcessing(id);
      if c.claim == LostAfter {
        return true;
      }
      var ok := Enqueue(id, event, c);
      if ok {
        return false;
      }
      if !c.readAttempts {
        return true;
      }
      if c.giveBack != LostBefore {
        var _ := repository.MarkFailed(id, c.error, Some(c.at + RetryDelay(event.attempts)));
      }
      threw := c.giveBack != Applied;
    }

    /** `dispatchPending` with no other dispatcher around: the events it comes to get
        the outcome of their own calls, each independently of the others, all other
        events stay as they are, and it throws where an uncaught call throws. */
    method DispatchPending(limit: nat, now: int, around: nat -> Circumstance) returns (batch: Batch, threw: bool)
      modifies this, repository
      ensures IsBatch(old(repository.events), limit, now, batch)
      ensures PassResult(old(repository.events), batch, around, repository.events)
      ensures threw <==> exists i :: 0 <= i < |batch| && Throws(batch[i].1, around(batch[i].0))
      ensures JobsOf(old(repository.events), batch, old(jobs), jobs)
      ensures CompletedQueued(old(repository.events), batch, repository.events, jobs)
    {
      ghost var before, held := repository.events, jobs;
      batch := repository.FindPending(limit, now);
      var i := 0;
      threw := false;
      while i < |batch| && !threw
        invariant i <= |batch| && IsBatch(before, limit, now, batch)
        invariant Progress(before, batch, i, around, repository.events, held, jobs) && StopsAt(batch, i, around, threw)
        decreases |batch| - i
      {
        ghost var mid, queued := repository.events, jobs;
        NextIsFresh(before, limit, now, batch, i, around, repository.events);
        threw := DispatchOne(batch[i].0, batch[i].1, around(batch[i].0));
        OneTurn(before, batch, i, around, mid, repository.events, held, queued, jobs);
        i := i + 1;
      }
      assert threw ==> Throws(batch[i - 1].1, around(batch[i - 1].0));
      ReachedIs(batch, around, i);
      BatchSettled(before, limit, now, batch, i, repository.events, held, jobs, around);
    }
  }

  ghost predicate Progress(before: Events, batch: Batch, i: nat, around: nat -> Circumstance, events: Events,
                           held: map<JobKey, JobData>, jobs: map<JobKey, JobData>)
    requires i <= |batch|
  {
    && AllDispatched(before, batch[..i], around, events) && JobsOf(before, batch[..i], held, jobs)
    && CompletedQueued(before, batch[..i], events, jobs)
  }

  ghost predicate StopsAt(batch: Batch, i: nat, around: nat -> Circumstance, threw: bool)
    requires i <= |batch|
  {
    && (threw ==> i > 0)
    && forall j :: 0 <= j < i ==> (Throws(batch[j].1, around(batch[j].0)) <==> threw && j == i - 1)
  }

  lemma NextIsFresh(before: Events, limit: nat, now: int, batch: Batch, i: nat, around: nat -> Circumstance, events: Events)
    requires IsBatch(before, limit, now, batch) && i < |batch| && AllDispatched(before, batch[..i], around, events)
    ensures var (id, e) := batch[i];
            id in before && before[id] == e && id in events && events[id] == e && Claimable(e)
  {
    NotYetTaken(batch, i);
  }

  lemma OneTurn(before: Events, batch: Batch, i: nat, around: nat -> Circumstance, mid: Events, after: Events,
                held: map<JobKey, JobData>, queued: map<JobKey, JobData>, jobs: map<JobKey, JobData>)
    requires i < |batch| && batch[i].0 in before && batch[i].1 == before[batch[i].0]
    requires Progress(before, batch, i, around, mid, held, queued)
    requires after == mid[batch[i].0 := Dispatched(batch[i].1, around(batch[i].0))]
    requires AddsJob(batch[i].0, batch[i].1, queued, jobs)
    requires after[batch[i].0].status == COMPLETED ==> JobQueued(batch[i].1, batch[i].0, jobs)
    ensures Progress(before, batch, i + 1, around, after, held, jobs)
  {
    OneMoreDispatched(before, batch, i, around, mid, after);
    OneMoreJob(before, batch, i, held, queued, jobs);
    OneMoreQueued(before, batch, i, mid, after, queued, jobs);
  }

  lemma OneMoreDispatched(before: Events, batch: Batch, i: nat, around: nat -> Circumstance, mid: Events, after: Events)
    requires i < |batch| && batch[i].0 in before && batch[i].1 == before[batch[i].0]
    requires AllDispatched(before, batch[..i], around, mid) && after == mid[batch[i].0 := Dispatched(batch[i].1, around(batch[i].0))]
    ensures AllDispatched(before, batch[..i + 1], around, after)
  {
    GrowBatch(batch, i);
  }

  /** One turn of the loop adds the event's job, if any. */
  ghost predicate AddsJob(id: nat, e: OutboxEvent, queued: map<JobKey, JobData>, jobs: map<JobKey, JobData>) {
    jobs == queued || (GetQueue(e.eventType).Some? && JobKey(GetQueue(e.eventType).value, id) !in queued
                       && jobs == queued[JobKey(GetQueue(e.eventType).value, id) := DataOf(id, e)])
  }

  lemma OneMoreJob(before: Events, batch: Batch, i: nat, held: map<JobKey, JobData>, queued: map<JobKey, JobData>,
                   jobs: map<JobKey, JobData>)
    requires i < |batch| && batch[i].0 in before && batch[i].1 == before[batch[i].0]
    requires JobsOf(before, batch[..i], held, queued) && AddsJob(batch[i].0, batch[i].1, queued, jobs)
    ensures JobsOf(before, batch[..i + 1], held, jobs)
  {
    GrowBatch(batch, i);
  }

  lemma OneMoreQueued(before: Events, batch: Batch, i: nat, mid: Events, after: Events, queued: map<JobKey, JobData>,
                      jobs: map<JobKey, JobData>)
    requires i < |batch| && batch[i].0 in before && batch[i].1 == before[batch[i].0] && batch[i].0 in after
    requires CompletedQueued(before, batch[..i], mid, queued) && AddsJob(batch[i].0, batch[i].1, queued, jobs)
    requires after == mid[batch[i].0 := after[batch[i].0]]
    requires after[batch[i].0].status == COMPLETED ==> JobQueued(batch[i].1, batch[i].0, jobs)
    ensures CompletedQueued(before, batch[..i + 1], after, jobs)
  {
    GrowBatch(batch, i);
  }

  lemma BatchSettled(before: Events, limit: nat, now: int, batch: Batch, n: nat, after: Events, held: map<JobKey, JobData>,
                     jobs: map<JobKey, JobData>, around: nat -> Circumstance)
    requires IsBatch(before, limit, now, batch) && n <= |batch| && AllDispatched(before, batch[..n], around, after)
    requires JobsOf(before, batch[..n], held, jobs) && CompletedQueued(before, batch[..n], after, jobs)
    ensures JobsOf(before, batch, held, jobs) && CompletedQueued(before, batch, after, jobs)
  {
    InPrefix(batch, n);
    NotReached(before, batch, n);
  }

  lemma InPrefix(batch: Batch, n: nat)
    requires n <= |batch|
    ensures forall id :: InBatch(batch[..n], id) ==> InBatch(batch, id)
  {
    forall id | InBatch(batch[..n], id) ensures InBatch(batch, id) {
      var k :| 0 <= k < n && batch[..n][k].0 == id;
      assert batch[k].0 == id;
    }
  }

  /** Events of the batch that a pass does not come to are still due, not COMPLETED. */
  lemma NotReached(before: Events, batch: Batch, n: nat)
    requires n <= |batch| && forall i :: 0 <= i < |batch| ==> batch[i].0 in before && Claimable(before[batch[i].0])
    ensures forall id :: InBatch(batch, id) ==> id in before && before[id].status != COMPLETED
  {
  }

  /** Where a pass stops. */
  lemma {:induction false} ReachedIs(batch: Batch, around: nat -> Circumstance, n: nat)
    requires n <= |batch|
    requires forall i :: 0 <= i < n - 1 ==> !Throws(batch[i].1, around(batch[i].0))
    requires n < |batch| ==> n > 0 && Throws(batch[n - 1].1, around(batch[n - 1].0))
    ensures Reached(batch, around) == n
  {
    if n < |batch| {
      ReachedIs(batch[..|batch| - 1], around, n);
    } else if batch != [] {
      ReachedIs(batch[..n - 1], around, n - 1);
    }
  }

  lemma NotYetTaken(batch: Batch, i: nat)
    requires i < |batch| && DistinctIds(batch)
    ensures !InBatch(batch[..i], batch[i].0)
  {
  }

  lemma GrowBatch(batch: Batch, i: nat)
    requires i < |batch|
    ensures forall id :: InBatch(batch[..i + 1], id) <==> InBatch(batch[..i], id) || id == batch[i].0
  {
    forall id ensures InBatch(batch[..i + 1], id) <==> InBatch(batch[..i], id) || id == batch[i].0 {
      if InBatch(batch[..i], id) {
        var k :| 0 <= k < |batch[..i]| && batch[..i][k].0 == id;
        assert batch[..i + 1][k].0 == id;
      }
      assert batch[..i + 1][i] == batch[i];
      if InBatch(batch[..i + 1], id) && id != batch[i].0 {
        var k :| 0 <= k < |batch[..i + 1]| && batch[..i + 1][k].0 == id;
        assert batch[..i][k].0 == id;
      }
    }
  }

  /** Failure isolation: every event a pass comes to ends by its own calls alone. It is
      COMPLETED exactly when it was claimed, its type has a queue, its job was added and
      the completion took effect; otherwise it is FAILED exactly when it could be given
      back; else it is left PROCESSING, or, if not even the claim took effect, as it was. */
  lemma PassSettlesEveryEvent(before: Events, limit: nat, now: int, batch: Batch, around: nat -> Circumstance,
                              after: Events, i: nat)
    requires IsBatch(before, limit, now, batch) && PassResult(before, batch, around, after) && i < Reached(batch, around)
    ensures var (id, e) := batch[i];
            var c := around(id);
            var completes := GetQueue(e.eventType).Some? && c.add == Applied && c.complete != LostBefore;
            && id in before && e == before[id] && Due(e, now) && id in after
            && after[id] == (if c.claim == LostBefore then e
                             else if c.claim == Applied && completes
                             then e.(status := COMPLETED, attempts := e.attempts + 1, processedAt := Some(c.at))
                             else if c.claim == Applied && c.readAttempts && c.giveBack != LostBefore
                             then e.(status := FAILED, attempts := e.attempts + 1, lastError := Some(c.error),
                                     availableAt := after[id].availableAt)
                             else e.(status := PROCESSING, attempts := e.attempts + 1))
  {
    ReachedInBatch(batch, around, i);
  }

  lemma ReachedInBatch(batch: Batch, around: nat -> Circumstance, i: nat)
    requires i < Reached(batch, around)
    ensures InBatch(batch[..Reached(batch, around)], batch[i].0)
  {
    assert batch[..Reached(batch, around)][i].0 == batch[i].0;
  }

  /** The wait doubles from one second up to thirty. */
  lemma {:induction false} DelayDoubles(attempts: nat)
    ensures RetryDelay(0) == 1000 && RetryDelay(1) == 2000 && RetryDelay(2) == 4000 && RetryDelay(3) == 8000
    ensures RetryDelay(attempts + 1) == if 2 * RetryDelay(attempts) < 30000 then 2 * RetryDelay(attempts) else 30000
    ensures attempts >= 5 ==> RetryDelay(attempts) == 30000
  {
    assert Pow2(1) == 2 && Pow2(2) == 4 && Pow2(3) == 8 && Pow2(4) == 16 && Pow2(5) == 32;
    if attempts > 5 { DelayDoubles(attempts - 1); }
  }

  lemma GivenBackWaits(e: OutboxEvent, c: Circumstance, t: int)
    requires c.claim == Applied && Dispatched(e, c).status == FAILED
    ensures var wait := if e.attempts == 0 then 1000 else if e.attempts == 1 then 2000 else if e.attempts == 2 then 4000 else 8000;
            && Dispatched(e, c).availableAt == (if e.attempts < 4 then Some(c.at + wait) else None)
            && (Due(Dispatched(e, c), t) <==> e.attempts >= 4 || c.at + wait <= t)
  {
    DelayDoubles(0);
  }

  /** An event that a pass gives back is due again exactly when its wait is over: one,
      two, four or eight seconds after its first, second, third or fourth failure; after
      the fifth it is due at once, and always. */
  lemma GivenBackIsDueAgain(before: Events, limit: nat, now: int, batch: Batch, around: nat -> Circumstance,
                            after: Events, i: nat, t: int)
    requires IsBatch(before, limit, now, batch) && PassResult(before, batch, around, after) && i < Reached(batch, around)
    requires batch[i].0 in after && after[batch[i].0].status == FAILED && around(batch[i].0).claim == Applied
    ensures var (id, e) := batch[i];
            var wait := if e.attempts == 0 then 1000 else if e.attempts == 1 then 2000 else if e.attempts == 2 then 4000 else 8000;
            && (e.attempts < 4 ==> after[id].availableAt == Some(around(id).at + wait))
            && (e.attempts >= 4 ==> after[id].availableAt == None)
            && (Due(after[id], t) <==> e.attempts >= 4 || around(id).at + wait <= t)
  {
    ReachedInBatch(batch, around, i);
    GivenBackWaits(batch[i].1, around(batch[i].0), t);
  }

  /** A failure that the loop catches ends nothing: the pass comes to every event of its
      batch if and only if no event but the last has an uncaught call that throws; and
      what it does not come to stays as it was. */
  lemma {:induction false} PassIsCutByUncaughtCalls(batch: Batch, around: nat -> Circumstance)
    ensures Reached(batch, around) == |batch| <==> forall i :: 0 <= i < |batch| - 1 ==> !Throws(batch[i].1, around(batch[i].0))
    ensures forall e, c :: Throws(e, c) <==>
              c.claim != Applied
              || (!(GetQueue(e.eventType).Some? && c.add == Applied && c.complete == Applied) && (!c.readAttempts || c.giveBack != Applied))
    ensures Reached(batch, around) < |batch| ==>
              var n := Reached(batch, around); n > 0 && Throws(batch[n - 1].1, around(batch[n - 1].0))
  {
    if batch != [] {
      PassIsCutByUncaughtCalls(batch[..|batch| - 1], around);
    }
  }

  lemma UnreachedStay(before: Events, limit: nat, now: int, batch: Batch, around: nat -> Circumstance, after: Events, i: nat)
    requires IsBatch(before, limit, now, batch) && PassResult(before, batch, around, after)
    requires Reached(batch, around) <= i < |batch|
    ensures batch[i].0 in after && after[batch[i].0] == before[batch[i].0]
  {
    assert forall k :: 0 <= k < Reached(batch, around) ==> batch[..Reached(batch, around)][k].0 == batch[k].0;
  }

  // ------------------------------------------------ waits between claims

  /** One claim of an event by a pass: the pass read the events at `now`, claimed
      this one at `claimedAt` and stored its failure at `at`. */
  datatype Try = Try(now: int, claimedAt: int, at: int, error: string)

  /** Its job could not be added, and it was given back. */
  function AfterTry(e: OutboxEvent, t: Try): OutboxEvent {
    Dispatched(e, Circumstance(Applied, LostBefore, Applied, true, Applied, t.at, t.error))
  }

  function AfterTries(e: OutboxEvent, tries: seq<Try>): OutboxEvent {
    if tries == [] then e else AfterTry(AfterTries(e, tries[..|tries| - 1]), tries[|tries| - 1])
  }

  /** Failed claims one after the other in time, each of an event that was due. */
  ghost predicate Feasible(e: OutboxEvent, tries: seq<Try>) {
    forall i :: 0 <= i < |tries| ==> FeasibleTry(e, tries, i)
  }

  ghost predicate FeasibleTry(e: OutboxEvent, tries: seq<Try>, i: nat)
    requires i < |tries|
  {
    && tries[i].now <= tries[i].claimedAt <= tries[i].at
    && (i > 0 ==> tries[i - 1].at <= tries[i].now)
    && Due(AfterTries(e, tries[..i]), tries[i].now)
  }

  lemma {:induction false} AttemptsCountTries(e: OutboxEvent, tries: seq<Try>)
    ensures AfterTries(e, tries).attempts == e.attempts + |tries|
    ensures tries != [] ==> AfterTries(e, tries).status == FAILED
  {
    if tries != [] {
      AttemptsCountTries(e, tries[..|tries| - 1]);
    }
  }

  /** Between the k-th failure of an event and its next claim, for k below the maximum,
      at least 1, 2, 4 and 8 seconds pass, and at that time it is due again. */
  lemma ClaimsAreSpaced(e: OutboxEvent, tries: seq<Try>, k: nat)
    requires e.attempts == 0 && Feasible(e, tries)
    requires 1 <= k < 5 && k < |tries|
    ensures var wait := if k == 1 then 1000 else if k == 2 then 2000 else if k == 3 then 4000 else 8000;
            && tries[k].claimedAt >= tries[k - 1].at + wait
            && forall t :: Due(AfterTries(e, tries[..k]), t) <==> tries[k - 1].at + wait <= t
  {
    var last := tries[..k];
    assert last[..k - 1] == tries[..k - 1];
    AttemptsCountTries(e, tries[..k - 1]);
    assert AfterTries(e, last) == AfterTry(AfterTries(e, tries[..k - 1]), tries[k - 1]);
    assert FeasibleTry(e, tries, k) && FeasibleTry(e, tries, k - 1);
    DelayDoubles(0);
  }

  /** The fifth claim comes at least fifteen seconds after the first. */
  lemma FifthClaimAfterFifteenSeconds(e: OutboxEvent, tries: seq<Try>)
    requires e.attempts == 0 && Feasible(e, tries) && |tries| >= 5
    ensures tries[4].claimedAt >= tries[0].claimedAt + 15000
  {
    forall k | 0 <= k < 4 ensures tries[k].at >= tries[k].claimedAt {
      assert FeasibleTry(e, tries, k);
    }
    ClaimsAreSpaced(e, tries, 1);
    ClaimsAreSpaced(e, tries, 2);
    ClaimsAreSpaced(e, tries, 3);
    ClaimsAreSpaced(e, tries, 4);
  }

  /** The maximum does not stop the claims: from the fifth failure on the event is
      due at every moment, and any number of claims is possible. */
  lemma NoLimitOnClaims(e: OutboxEvent, t: Try, now: int)
    requires e.attempts >= 4
    ensures Due(AfterTry(e, t), now) && AfterTry(e, t).attempts == e.attempts + 1
  {
  }

  lemma {:induction false} AnyNumberOfClaims(e: OutboxEvent, n: nat) returns (tries: seq<Try>)
    requires Claimable(e)
    ensures |tries| == n && Feasible(e, tries)
  {
    if n == 0 {
      tries := [];
    } else {
      var earlier := AnyNumberOfClaims(e, n - 1);
      var current := AfterTries(e, earlier);
      AttemptsCountTries(e, earlier);
      var clock := if earlier == [] then 0 else earlier[|earlier| - 1].at;
      var now := if current.availableAt.Some? then Max(clock, current.availableAt.value) else clock;
      tries := earlier + [Try(now, now, now, "")];
      forall i | 0 <= i < n ensures FeasibleTry(e, tries, i) {
        assert tries[..i] == earlier[..i];
        if i == n - 1 {
          assert earlier[..i] == earlier;
        } else {
          assert FeasibleTry(e, earlier, i);
        }
      }
    }
  }
}
