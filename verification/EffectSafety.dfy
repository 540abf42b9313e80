/** How often the body of a job succeeds, over all dispatches, retries and crashes. */
module EffectSafety {
  import opened Common
  import opened Outbox
  import opened Pipeline
  import opened DispatchSafety

  // ------------------------------------------------ one job

  /** The job is past the check for processed events in its present attempt. */
  predicate Checked(job: Job) {
    || job.stage == Active(Finding) || job.stage == Active(Starting) || job.stage == Active(Working)
    || job.stage == Active(Settling) || job.stage == Active(Marking)
  }

  /** Successes of a guarded body are exactly those whose trace was lost, plus one
      when the event is marked processed or about to be. */
  predicate GuardedExact(l: Local) {
    && l.effects == l.lost + (if l.processed || l.job.stage == Active(Settling) || l.job.stage == Active(Marking) then 1 else 0)
    && (Checked(l.job) ==> !l.processed)
  }

  /** Without the guard a success is remembered only as long as the finished job is. */
  predicate MailExact(l: Local, evicted: nat) {
    && l.effects == l.lost + evicted + (if l.job.stage == Done || Unsettled(EMAIL, l.job) then 1 else 0)
    && l.job.stage != Active(Checking) && l.job.stage != Active(Marking)
  }

  lemma AttemptKeepsGuarded(queue: QueueName, l: Local, e: WorkEvent, hasRecord: bool)
    requires GuardedExact(l) && Guarded(queue)
    ensures GuardedExact(Attempt(queue, l, e, hasRecord))
  {
  }

  lemma AttemptKeepsMail(l: Local, e: WorkEvent, hasRecord: bool, evicted: nat)
    requires MailExact(l, evicted)
    ensures MailExact(Attempt(EMAIL, l, e, hasRecord), evicted)
  {
  }

  // ------------------------------------------------ all jobs

  ghost predicate Exact(w: World, k: JobKey) {
    if k in w.jobs then
      if Guarded(k.queue) then GuardedExact(ViewOf(w, k)) else MailExact(ViewOf(w, k), w.evicted[k])
    else
      w.effects[k] == w.lost[k] + (if !Guarded(k.queue) then w.evicted[k] else if k.id in w.processed then 1 else 0)
  }

  ghost predicate Routed(events: Events, k: JobKey) {
    k.id in events && Route(k.id, events[k.id]) == Some(k)
  }

  /** Nothing is recorded of ids that are not events. */
  ghost predicate NothingUnknown(w: World) {
    && w.processed <= w.events.Keys
    && (forall k: JobKey :: k.id !in w.events ==> w.effects[k] == 0 && w.lost[k] == 0 && w.evicted[k] == 0)
  }

  ghost predicate EffectsInv(w: World) {
    && NothingUnknown(w)
    && forall k: JobKey :: Routed(w.events, k) ==> Exact(w, k)
  }

  lemma WorkKeepsUnknown(w: World, k: JobKey, e: WorkEvent)
    requires NothingUnknown(w) && k in w.jobs && k.id in w.events
    ensures NothingUnknown(OnWork(w, k, e))
  {
    WorkFrame(w, k, e);
    RecordsApart(w, k, w.jobs[k].data.payload, RecordStep(k.queue, w.jobs[k], e));
  }

  lemma WorkKeepsExact(w: World, k: JobKey, e: WorkEvent, j: JobKey)
    requires k in w.jobs && Exact(w, k) && Exact(w, j) && (j == k || j.id != k.id)
    ensures Exact(OnWork(w, k, e), j)
  {
    RecordsApart(w, k, w.jobs[k].data.payload, RecordStep(k.queue, w.jobs[k], e));
    if j == k {
      WorkIsLocal(w, k, e);
      if Guarded(k.queue) {
        AttemptKeepsGuarded(k.queue, ViewOf(w, k), e, HasRecord(w, k));
      } else {
        AttemptKeepsMail(ViewOf(w, k), e, HasRecord(w, k), w.evicted[k]);
      }
    } else {
      WorkElsewhere(w, k, e, j);
    }
  }

  lemma WorkKeepsEffects(w: World, k: JobKey, e: WorkEvent)
    requires JobsRouted(w.events, w.jobs, w.added) && EffectsInv(w)
    ensures EffectsInv(OnWork(w, k, e))
  {
    if k in w.jobs {
      assert Routed(w.events, k);
      WorkFrame(w, k, e);
      WorkKeepsUnknown(w, k, e);
      forall j: JobKey | Routed(w.events, j) ensures Exact(OnWork(w, k, e), j) {
        WorkKeepsExact(w, k, e, j);
      }
    }
  }

  lemma EvictKeepsExact(w: World, k: JobKey, j: JobKey)
    requires Exact(w, j)
    ensures Exact(OnEvict(w, k), j)
  {
  }

  lemma EvictKeepsEffects(w: World, k: JobKey)
    requires JobsRouted(w.events, w.jobs, w.added) && EffectsInv(w)
    ensures EffectsInv(OnEvict(w, k))
  {
    forall j: JobKey | Routed(w.events, j) ensures Exact(OnEvict(w, k), j) {
      EvictKeepsExact(w, k, j);
    }
  }

  /** Dispatchers and producers leave the histories alone; they add waiting jobs and
      new events. */
  ghost predicate Quiet(w: World, t: World) {
    && t.processed == w.processed && t.effects == w.effects && t.lost == w.lost && t.evicted == w.evicted
    && t.deadLetters == w.deadLetters
    && (forall j :: j in w.jobs ==> j in t.jobs && t.jobs[j] == w.jobs[j])
    && (forall j :: j in t.jobs && j !in w.jobs ==>
          t.jobs[j].stage == Waiting && t.jobs[j].attemptsMade == 0 && t.jobs[j].attempts == JOB_ATTEMPTS)
  }

  lemma QuietKeepsEffects(w: World, t: World)
    requires EffectsInv(w) && JobsRouted(w.events, w.jobs, w.added) && Evolves(w.events, t.events) && Quiet(w, t)
    ensures EffectsInv(t)
  {
    forall j: JobKey | Routed(t.events, j) ensures Exact(t, j) {
      if j.id in w.events {
        assert Routed(w.events, j);
      } else {
        assert j !in w.jobs;
      }
    }
  }

  lemma EnqueueIsQuiet(w: World, d: nat, outcome: Outcome)
    ensures Quiet(w, OnEnqueue(w, d, outcome))
  {
  }

  lemma ClaimIsQuiet(w: World, d: nat, outcome: Outcome)
    ensures Quiet(w, OnClaim(w, d, outcome))
  {
  }

  lemma DispatchIsQuiet(w: World, d: nat, e: DispatchEvent)
    ensures Quiet(w, OnDispatch(w, d, e))
  {
    match e
    case Enqueue(outcome) => EnqueueIsQuiet(w, d, outcome);
    case Claim(outcome) => ClaimIsQuiet(w, d, outcome);
    case _ =>
  }

  lemma ProduceIsQuiet(w: World, e: ProduceEvent)
    ensures Quiet(w, OnProduce(w, e))
  {
  }

  lemma StepKeepsEffects(w: World, e: Event)
    requires Inv(w) && EffectsInv(w)
    ensures EffectsInv(Step(w, e))
  {
    StepEvolves(w, e);
    match e
    case Dispatching(d, x) =>
      DispatchIsQuiet(w, d, x);
      QuietKeepsEffects(w, OnDispatch(w, d, x));
    case WorkingOn(k, x) => WorkKeepsEffects(w, k, x);
    case Evicting(k) => EvictKeepsEffects(w, k);
    case Producing(x) =>
      ProduceIsQuiet(w, x);
      QuietKeepsEffects(w, OnProduce(w, x));
  }

  lemma {:induction false} RunKeepsEffects(events: seq<Event>)
    ensures Inv(Run(INIT, events)) && EffectsInv(Run(INIT, events))
  {
    if events != [] {
      RunKeepsEffects(events[..|events| - 1]);
      StepKeepsInv(Run(INIT, events[..|events| - 1]), events[|events| - 1]);
      StepKeepsEffects(Run(INIT, events[..|events| - 1]), events[|events| - 1]);
    }
  }

  // ------------------------------------------------ main results

  /** In every reachable state, over any number of dispatches, retries, evictions and
      crashes, the body of a webhook, export or reminder job has succeeded exactly as
      often as its success was lost, and once more when the event is marked processed
      or about to be. Without losses it succeeds at most once. */
  lemma EffectsAreCounted(w: World, k: JobKey)
    requires Reachable(w) && Guarded(k.queue) && k.id in w.events && GetQueue(w.events[k.id].eventType) == Some(k.queue)
    ensures w.effects[k] == w.lost[k] + (if k.id in w.processed || (k in w.jobs && Unsettled(k.queue, w.jobs[k])) then 1 else 0)
    ensures w.lost[k] == 0 ==> w.effects[k] <= 1
  {
    var events :| w == Run(INIT, events);
    RunKeepsEffects(events);
    assert Routed(w.events, k) && Exact(w, k);
  }

  /** An e-mail goes out once more for every time its finished job was removed from
      the queue: nothing else remembers that it was sent. */
  lemma MailsAreCounted(w: World, k: JobKey)
    requires Reachable(w) && k.queue == EMAIL && k.id in w.events && GetQueue(w.events[k.id].eventType) == Some(EMAIL)
    ensures w.effects[k] == w.lost[k] + w.evicted[k]
              + (if k in w.jobs && (w.jobs[k].stage == Done || Unsettled(EMAIL, w.jobs[k])) then 1 else 0)
  {
    var events :| w == Run(INIT, events);
    RunKeepsEffects(events);
    assert Routed(w.events, k) && Exact(w, k);
  }

  /** Marking never meets the unique index: no event is marked twice. */
  lemma MarkIsFirst(w: World, k: JobKey)
    requires Reachable(w) && k in w.jobs && w.jobs[k].stage == Active(Marking)
    ensures k.id !in w.processed
  {
    var events :| w == Run(INIT, events);
    RunKeepsEffects(events);
    assert Routed(w.events, k) && Exact(w, k);
  }
}
