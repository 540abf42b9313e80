/** Runs of the pipeline, step by step: that what it does not promise does happen. */
module PipelineRuns {
  import opened Common
  import opened Outbox
  import opened Pipeline
  import opened DispatchSafety
  import opened EffectSafety
  import opened RecordSafety
  import opened RetryOutcome
  import opened RetryCauses

  // ------------------------------------------------ steps of a run

  /** The runs below keep every property that every step keeps; so does being reachable,
      and being reached from a given state. */
  ghost predicate StepClosed(R: World -> bool) { forall w: World, e: Event :: R(w) ==> R(Step(w, e)) }

  ghost predicate Closed(R: World -> bool) { R(INIT) && StepClosed(R) }

  lemma OneStep(R: World -> bool, w: World, e: Event)
    requires StepClosed(R) && R(w)
    ensures R(Step(w, e))
  {
  }

  lemma ReachableIsClosed()
    ensures Closed((w: World) => Reachable(w))
  {
    assert INIT == Run(INIT, []);
    forall w: World, e: Event | Reachable(w) ensures Reachable(Step(w, e)) {
      var es :| w == Run(INIT, es);
      assert (es + [e])[..|es|] == es;
      assert Step(w, e) == Run(INIT, es + [e]);
    }
  }

  /** What is reached from a state. */
  ghost function From(v: World): World -> bool { (w: World) => exists rest :: w == Run(v, rest) }

  lemma FromIsClosed(v: World)
    ensures StepClosed(From(v)) && From(v)(v)
  {
    assert v == Run(v, []);
    forall w: World, e: Event | From(v)(w) ensures From(v)(Step(w, e)) {
      var rest :| w == Run(v, rest);
      assert (rest + [e])[..|rest|] == rest;
      assert Step(w, e) == Run(v, rest + [e]);
    }
  }

  /** The stores a dispatcher does not touch. */
  ghost predicate SameBooks(w: World, v: World) {
    && v.processed == w.processed && v.deadLetters == w.deadLetters && v.effects == w.effects && v.lost == w.lost
    && v.evicted == w.evicted && v.mails == w.mails && v.exports == w.exports
  }

  /** One event is stored, and no dispatcher runs. */
  ghost predicate Lone(w: World, id: nat, e: OutboxEvent) {
    w.events == map[id := e] && w.dispatchers == map[]
  }

  lemma LoneBatch(id: nat, e: OutboxEvent, now: int)
    requires Due(e, now)
    ensures IsBatch(map[id := e], 50, now, [(id, e)])
  {
    assert id in map[id := e];
    assert DueIds(map[id := e], now) == {id};
    assert [(id, e)][0].0 == id;
    assert InBatch([(id, e)], id);
  }

  function Doing(id: nat, e: OutboxEvent, phase: DispatchPhase): map<nat, Dispatcher> {
    map[0 := Dispatcher([(id, e)], phase)]
  }

  lemma ClaimStep(w: World, id: nat, e: OutboxEvent)
    requires w.events == map[id := e] && Claimable(e) && w.dispatchers == Doing(id, e, Between)
    ensures var v := OnClaim(w, 0, Applied);
            v.events == map[id := Claimed(e)] && v.jobs == w.jobs && SameBooks(w, v) && v.dispatchers == Doing(id, e, Owning)
  {
  }

  lemma EnqueueStep(w: World, id: nat, e: OutboxEvent, k: JobKey)
    requires w.dispatchers == Doing(id, e, Owning) && GetQueue(e.eventType) == Some(k.queue) && k.id == id && k !in w.jobs
    ensures var v := OnEnqueue(w, 0, Applied);
            && v.events == w.events && SameBooks(w, v) && v.dispatchers == Doing(id, e, Enqueued)
            && v.jobs == w.jobs[k := Job(DataOf(id, e), JOB_ATTEMPTS, 0, Waiting)]
  {
    assert JobKey(k.queue, id) == k;
  }

  lemma CompleteStep(w: World, id: nat, e: OutboxEvent)
    requires w.dispatchers == Doing(id, e, Enqueued)
    ensures var v := OnComplete(w, 0, 0, LostBefore);
            v.events == w.events && v.jobs == w.jobs && SameBooks(w, v) && v.dispatchers == Doing(id, e, Failing)
  {
  }

  lemma ReadStep(w: World, id: nat, e: OutboxEvent)
    requires w.dispatchers == Doing(id, e, Failing) && id in w.events
    ensures var v := OnReadAttempts(w, 0, true);
            && v.events == w.events && v.jobs == w.jobs && SameBooks(w, v)
            && v.dispatchers == Doing(id, e, GivingBack(w.events[id].attempts))
  {
  }

  lemma GiveBackStep(w: World, id: nat, e: OutboxEvent, c: OutboxEvent)
    requires w.dispatchers == Doing(id, e, GivingBack(c.attempts)) && w.events == map[id := c] && c.status == PROCESSING
    ensures var v := OnGiveBack(w, 0, "", 0, Applied);
            && v.jobs == w.jobs && SameBooks(w, v) && v.dispatchers.Keys == {0}
            && v.events == map[id := GivenBack(c, c.attempts, "", Some(0))]
  {
  }

  /** A dispatcher reads the event and claims it. */
  lemma Claims(R: World -> bool, w: World, id: nat, e: OutboxEvent, now: int) returns (v: World)
    requires Closed(R)
    requires R(w) && Lone(w, id, e) && Due(e, now)
    ensures R(v) && v.events == map[id := Claimed(e)] && v.jobs == w.jobs && SameBooks(w, v)
    ensures v.dispatchers == Doing(id, e, Owning)
  {
    LoneBatch(id, e, now);
    OneStep(R, w, Dispatching(0, Begin([(id, e)], 50, now)));
    v := Put(w, 0, [(id, e)], Between);
    OneStep(R, v, Dispatching(0, Claim(Applied)));
    ClaimStep(v, id, e);
    v := OnClaim(v, 0, Applied);
  }

  /** It adds the job. */
  lemma Adds(R: World -> bool, w: World, id: nat, e: OutboxEvent, k: JobKey) returns (v: World)
    requires Closed(R)
    requires R(w) && w.dispatchers == Doing(id, e, Owning)
    requires GetQueue(e.eventType) == Some(k.queue) && k.id == id && k !in w.jobs
    ensures R(v) && v.events == w.events && SameBooks(w, v) && v.dispatchers == Doing(id, e, Enqueued)
    ensures v.jobs == w.jobs[k := Job(DataOf(id, e), JOB_ATTEMPTS, 0, Waiting)]
  {
    OneStep(R, w, Dispatching(0, Enqueue(Applied)));
    EnqueueStep(w, id, e, k);
    v := OnEnqueue(w, 0, Applied);
  }

  /** The completion fails without effect, and the dispatcher is left with the event. */
  lemma FailsToComplete(R: World -> bool, w: World, id: nat, e: OutboxEvent) returns (v: World)
    requires Closed(R)
    requires R(w) && w.dispatchers == Doing(id, e, Enqueued) && id in w.events
    ensures R(v) && v.events == w.events && v.jobs == w.jobs && SameBooks(w, v)
    ensures v.dispatchers == Doing(id, e, GivingBack(w.events[id].attempts))
  {
    OneStep(R, w, Dispatching(0, Complete(0, LostBefore)));
    CompleteStep(w, id, e);
    v := OnComplete(w, 0, 0, LostBefore);
    OneStep(R, v, Dispatching(0, ReadAttempts(true)));
    ReadStep(v, id, e);
    v := OnReadAttempts(v, 0, true);
  }

  /** It gives the event back, and its pass is over. */
  lemma GivesBack(R: World -> bool, w: World, id: nat, e: OutboxEvent, c: OutboxEvent) returns (v: World)
    requires Closed(R)
    requires R(w) && w.dispatchers == Doing(id, e, GivingBack(c.attempts)) && w.events == map[id := c] && c.status == PROCESSING
    ensures R(v) && v.jobs == w.jobs && SameBooks(w, v) && v.dispatchers == map[]
    ensures v.events == map[id := GivenBack(c, c.attempts, "", Some(0))]
  {
    OneStep(R, w, Dispatching(0, GiveBack("", 0, Applied)));
    GiveBackStep(w, id, e, c);
    v := Stops(R, OnGiveBack(w, 0, "", 0, Applied));
  }

  lemma Stops(R: World -> bool, w: World) returns (v: World)
    requires Closed(R)
    requires R(w) && w.dispatchers.Keys == {0}
    ensures R(v) && v.events == w.events && v.jobs == w.jobs && SameBooks(w, v) && v.dispatchers == map[]
  {
    OneStep(R, w, Dispatching(0, StopDispatcher));
    v := Quit(w, 0);
  }

  // ------------------------------------------------ a worker's steps

  ghost predicate Stands(R: World -> bool, w: World, k: JobKey, l: Local) {
    R(w) && k in w.jobs && HasRecord(w, k) && ViewOf(w, k) == l
  }

  /** What a job's worker leaves alone. */
  ghost predicate SameElse(w: World, v: World) {
    v.events == w.events && v.dispatchers == w.dispatchers && v.evicted == w.evicted && v.jobs.Keys == w.jobs.Keys
  }

  /** A worker's call, as its job sees it. */
  lemma Works(R: World -> bool, w: World, k: JobKey, l: Local, e: WorkEvent, m: Local) returns (v: World)
    requires StepClosed(R)
    requires Stands(R, w, k, l) && (k.queue == WEBHOOK || k.queue == EMAIL) && Attempt(k.queue, l, e, true) == m
    ensures Stands(R, v, k, m) && SameElse(w, v)
  {
    OneStep(R, w, WorkingOn(k, e));
    v := OnWork(w, k, e);
    WorkIsLocal(w, k, e);
    WorkFrame(w, k, e);
    WorkKeepsRecords(w, k, e);
    RecordsApart(w, k, w.jobs[k].data.payload, RecordStep(k.queue, w.jobs[k], e));
  }

  /** The same call, as the beginning of a run of its own. */
  lemma Departs(R: World -> bool, u: World, k: JobKey, l: Local, e: WorkEvent, m: Local) returns (v: World)
    requires StepClosed(R)
    requires Stands(R, u, k, l) && (k.queue == WEBHOOK || k.queue == EMAIL) && Attempt(k.queue, l, e, true) == m
    ensures v == Step(u, WorkingOn(k, e)) && StepClosed(From(v)) && Stands(From(v), v, k, m)
  {
    v := Works(R, u, k, l, e, m);
    v := OnWork(u, k, e);
    FromIsClosed(v);
    WorkIsLocal(u, k, e);
    WorkKeepsRecords(u, k, e);
    RecordsApart(u, k, u.jobs[k].data.payload, RecordStep(k.queue, u.jobs[k], e));
  }

  // ------------------------------------------------ where the runs start

  /** A job as a dispatcher adds it. */
  function Fresh(data: JobData, effects: nat): Local { Local(Job(data, JOB_ATTEMPTS, 0, Waiting), false, effects, 0, None) }

  const HOOK := JobKey(WEBHOOK, 1)
  const HOOK_EVENT := NewEvent("TASK_CREATED", 1, Some(1), Plain(""), 0)

  lemma HookEventStored(R: World -> bool) returns (w: World)
    requires Closed(R)
    ensures R(w) && Lone(w, 1, HOOK_EVENT) && w.jobs == map[] && SameBooks(INIT, w)
  {
    OneStep(R, INIT, Producing(CreateEvent(1, "TASK_CREATED", 1, Some(1), "", 0)));
    w := OnCreateEvent(INIT, 1, "TASK_CREATED", 1, Some(1), "", 0);
  }

  lemma HookWaits(R: World -> bool) returns (w: World)
    requires Closed(R)
    ensures R(w) && HOOK in w.jobs && HasRecord(w, HOOK) && ViewOf(w, HOOK) == Fresh(DataOf(1, HOOK_EVENT), 0)
  {
    w := HookEventStored(R);
    w := Claims(R, w, 1, HOOK_EVENT, 0);
    w := Adds(R, w, 1, HOOK_EVENT, HOOK);
  }

  const MAIL := JobKey(EMAIL, 1)
  const MAIL_EVENT := NewEvent("EMAIL_REQUESTED", 7, None, Plain(""), 0)

  lemma MailEventStored(R: World -> bool) returns (w: World)
    requires Closed(R)
    ensures R(w) && Lone(w, 1, MAIL_EVENT) && w.jobs == map[] && w.mails == map[1 := MailQueued]
    ensures w.processed == {} && w.deadLetters == map[] && w.effects == multiset{} && w.lost == multiset{} && w.evicted == multiset{}
  {
    OneStep(R, INIT, Producing(RecordMail(0, 1, ForAccount(7))));
    w := OnRecordMail(INIT, 0, 1, ForAccount(7));
    OneStep(R, w, Producing(EmitMail(0, "", 0)));
    w := OnEmitMail(w, 0, "", 0);
  }

  /** The mail's job waits, and its dispatcher has still to complete the event. */
  lemma MailWaits(R: World -> bool) returns (w: World)
    requires Closed(R)
    ensures R(w) && MAIL in w.jobs && HasRecord(w, MAIL) && ViewOf(w, MAIL) == Fresh(DataOf(1, MAIL_EVENT), 0)
    ensures w.events == map[1 := Claimed(MAIL_EVENT)] && w.dispatchers == Doing(1, MAIL_EVENT, Enqueued) && w.jobs.Keys == {MAIL}
    ensures w.evicted == multiset{}
  {
    w := MailEventStored(R);
    w := Claims(R, w, 1, MAIL_EVENT, 0);
    w := Adds(R, w, 1, MAIL_EVENT, MAIL);
  }

  // ------------------------------------------------ how the rule of retries is broken

  /** The attempt of a webhook's job up to its body. */
  lemma HookBegins(R: World -> bool, w: World, l: Local) returns (v: World)
    requires StepClosed(R)
    requires Stands(R, w, HOOK, l) && l.job.stage == Waiting && !l.processed && l.job.data.workspaceId.Some?
    ensures Stands(R, v, HOOK, To(l, Working))
  {
    v := Works(R, w, HOOK, l, Take, To(l, Checking));
    v := Works(R, v, HOOK, To(l, Checking), CheckProcessed(true), To(l, Working));
  }

  lemma HookFails(R: World -> bool, w: World, l: Local) returns (v: World)
    requires StepClosed(R)
    requires Stands(R, w, HOOK, l) && l.job.stage == Waiting && !l.processed && l.job.data.workspaceId.Some?
    ensures Stands(R, v, HOOK, To(l, if Final(l.job) then Burying else Throwing))
  {
    v := HookBegins(R, w, l);
    v := Works(R, v, HOOK, To(l, Working), RunBody(false), To(l, Catching));
    v := Works(R, v, HOOK, To(l, Catching), HandleError(Applied), To(l, if Final(l.job) then Burying else Throwing));
  }

  function NthTry(data: JobData, n: nat): Local { Local(Job(data, JOB_ATTEMPTS, n, Waiting), false, 0, 0, None) }

  lemma HookRetries(R: World -> bool, w: World, data: JobData, n: nat) returns (v: World)
    requires StepClosed(R)
    requires Stands(R, w, HOOK, NthTry(data, n)) && n < 2 && data.workspaceId.Some?
    ensures Stands(R, v, HOOK, NthTry(data, n + 1))
  {
    v := HookFails(R, w, NthTry(data, n));
    v := Works(R, v, HOOK, To(NthTry(data, n), Throwing), Report, NthTry(data, n + 1));
  }

  const HOOK_DATA := DataOf(1, HOOK_EVENT)

  lemma LastTryWaits(R: World -> bool) returns (w: World)
    requires Closed(R)
    ensures Stands(R, w, HOOK, NthTry(HOOK_DATA, 2))
  {
    w := HookWaits(R);
    w := HookRetries(R, w, HOOK_DATA, 0);
    w := HookRetries(R, w, HOOK_DATA, 1);
  }

  ghost predicate BrokenAt(R: World -> bool, w: World, k: JobKey, stage: Stage) {
    R(w) && k in w.jobs && w.jobs[k].stage == stage && !EndsByTheRule(w, k)
  }

  lemma DeadUnburied(R: World -> bool, w: World, k: JobKey, l: Local)
    requires Stands(R, w, k, l) && l.job.stage == Dead && (l.buried.None? || l.processed)
    ensures BrokenAt(R, w, k, Dead) && (k in w.deadLetters <==> l.buried.Some?) && (k.id in w.processed <==> l.processed)
  {
  }

  function Dying(l: Local): Local { OnReport(To(l, Throwing)) }

  /** A reachable state in which the call is the one the cause names, and one reached
      after it in which the job has ended against the rule. */
  ghost predicate Broken(R: World -> bool, cause: Cause, u: World, k: JobKey, e: WorkEvent, w: World, stage: Stage) {
    R(u) && BreaksIn(cause, u, k, e) && BrokenAt(From(Step(u, WorkingOn(k, e))), w, k, stage)
  }

  lemma BreaksHere(R: World -> bool, u: World, k: JobKey, l: Local, cause: Cause, e: WorkEvent)
    requires Stands(R, u, k, l) && Breaks(cause, k.queue, l, StateOf(u, k), e, true)
    ensures BreaksIn(cause, u, k, e)
  {
  }

  /** After the call the attempt has only to be reported, and then the job is dead. */
  lemma DiesBroken(R: World -> bool, u: World, k: JobKey, l: Local, cause: Cause, e: WorkEvent, m: Local) returns (w: World)
    requires StepClosed(R)
    requires Stands(R, u, k, l) && (k.queue == WEBHOOK || k.queue == EMAIL) && Attempt(k.queue, l, e, true) == To(m, Throwing)
    requires BreaksIn(cause, u, k, e) && Final(m.job) && (m.buried.None? || m.processed)
    ensures Broken(R, cause, u, k, e, w, Dead) && (k in w.deadLetters <==> m.buried.Some?) && (k.id in w.processed <==> m.processed)
  {
    var v := Departs(R, u, k, l, e, To(m, Throwing));
    w := Works(From(v), v, k, To(m, Throwing), Report, Dying(m));
    DeadUnburied(From(v), w, k, Dying(m));
  }

  /** The letter of the final attempt cannot be written: the job is dead without one. */
  lemma LetterUnwritten(R: World -> bool) returns (u: World, w: World)
    requires Closed(R)
    ensures Broken(R, LetterNotWritten, u, HOOK, Bury(LostBefore), w, Dead) && HOOK !in w.deadLetters
  {
    var l := NthTry(HOOK_DATA, 2);
    u := LastTryWaits(R);
    u := HookFails(R, u, l);
    BreaksHere(R, u, HOOK, To(l, Burying), LetterNotWritten, Bury(LostBefore));
    w := DiesBroken(R, u, HOOK, To(l, Burying), LetterNotWritten, Bury(LostBefore), l);
  }

  /** The queue gives up a job that stalled: the same. */
  lemma GivenUp(R: World -> bool) returns (u: World, w: World)
    requires Closed(R)
    ensures Broken(R, StalledTooOften, u, HOOK, Crash(true), w, Dead) && HOOK !in w.deadLetters
  {
    var l := Fresh(HOOK_DATA, 0);
    u := HookWaits(R);
    u := Works(R, u, HOOK, l, Take, To(l, Checking));
    w := Departs(R, u, HOOK, To(l, Checking), Crash(true), Move(l, Dead));
    DeadUnburied(From(w), w, HOOK, Move(l, Dead));
  }

  function MarkedThird(): Local { NthTry(HOOK_DATA, 2).(effects := 1, processed := true) }

  lemma FailsMarked(R: World -> bool) returns (u: World)
    requires Closed(R)
    ensures Stands(R, u, HOOK, To(MarkedThird(), Burying))
  {
    var l, m := NthTry(HOOK_DATA, 2), MarkedThird();
    u := LastTryWaits(R);
    u := HookBegins(R, u, l);
    u := Works(R, u, HOOK, To(l, Working), RunBody(true), To(l, Marking).(effects := 1));
    u := Works(R, u, HOOK, To(l, Marking).(effects := 1), MarkProcessed(LostAfter), To(m, Catching));
    u := Works(R, u, HOOK, To(m, Catching), HandleError(Applied), To(m, Burying));
  }

  /** The mark of the final attempt takes effect but is reported as failed: the event
      is processed, and its job gets a letter. */
  lemma FailedThoughProcessed(R: World -> bool) returns (u: World, w: World)
    requires Closed(R)
    ensures Broken(R, CaughtThoughProcessed, u, HOOK, Bury(Applied), w, Dead) && HOOK in w.deadLetters && HOOK.id in w.processed
  {
    var m := MarkedThird();
    u := FailsMarked(R);
    BreaksHere(R, u, HOOK, To(m, Burying), CaughtThoughProcessed, Bury(Applied));
    w := DiesBroken(R, u, HOOK, To(m, Burying), CaughtThoughProcessed, Bury(Applied), m.(buried := Some(3)));
  }

  /** The worker stops after the letter of the final attempt. */
  lemma WaitsAfterLetter(R: World -> bool) returns (w: World)
    requires Closed(R)
    ensures Stands(R, w, HOOK, NthTry(HOOK_DATA, 2).(buried := Some(3)))
  {
    var l := NthTry(HOOK_DATA, 2);
    var m := l.(buried := Some(3));
    w := LastTryWaits(R);
    w := HookFails(R, w, l);
    w := Works(R, w, HOOK, To(l, Burying), Bury(Applied), To(m, Throwing));
    w := Works(R, w, HOOK, To(m, Throwing), Crash(false), m);
  }

  /** The attempt, repeated, succeeds: the job is done, with a letter. */
  lemma SucceededAfterLetter(R: World -> bool) returns (u: World, w: World)
    requires Closed(R)
    ensures Broken(R, SucceedsAfterLetter, u, HOOK, MarkProcessed(Applied), w, Done) && HOOK in w.deadLetters
  {
    var l := NthTry(HOOK_DATA, 2).(buried := Some(3));
    u := WaitsAfterLetter(R);
    u := HookBegins(R, u, l);
    u := Works(R, u, HOOK, To(l, Working), RunBody(true), To(l, Marking).(effects := 1));
    BreaksHere(R, u, HOOK, To(l, Marking).(effects := 1), SucceedsAfterLetter, MarkProcessed(Applied));
    w := SucceedsBuried(R, u, l.(effects := 1));
  }

  lemma SucceedsBuried(R: World -> bool, u: World, l: Local) returns (w: World)
    requires StepClosed(R)
    requires Stands(R, u, HOOK, To(l, Marking)) && l.buried.Some? && !l.processed
    ensures var v := Step(u, WorkingOn(HOOK, MarkProcessed(Applied))); BrokenAt(From(v), w, HOOK, Done) && HOOK in w.deadLetters
  {
    var m := l.(processed := true);
    var v := Departs(R, u, HOOK, To(l, Marking), MarkProcessed(Applied), To(m, Returning));
    w := Works(From(v), v, HOOK, To(m, Returning), Report, Move(m, Done));
  }

  const MAIL_DATA := DataOf(1, MAIL_EVENT)

  lemma SearchFails(R: World -> bool, w: World, l: Local) returns (v: World)
    requires StepClosed(R)
    requires Stands(R, w, MAIL, l) && l.job.stage == Waiting
    ensures Stands(R, v, MAIL, Dying(l))
  {
    v := Works(R, w, MAIL, l, Take, To(l, Finding));
    v := Works(R, v, MAIL, To(l, Finding), FindRecord(false), To(l, Throwing));
    v := Works(R, v, MAIL, To(l, Throwing), Report, Dying(l));
  }

  /** The search for the record fails in every attempt of a mail, before the try block:
      the job is dead without a letter. */
  lemma EscapedFinally(R: World -> bool) returns (u: World, w: World)
    requires Closed(R)
    ensures Broken(R, ThrowsPastCatch, u, MAIL, FindRecord(false), w, Dead) && MAIL !in w.deadLetters
  {
    var l := NthTry(MAIL_DATA, 2);
    u := MailWaits(R);
    u := SearchFails(R, u, NthTry(MAIL_DATA, 0));
    u := SearchFails(R, u, NthTry(MAIL_DATA, 1));
    u := Works(R, u, MAIL, l, Take, To(l, Finding));
    BreaksHere(R, u, MAIL, To(l, Finding), ThrowsPastCatch, FindRecord(false));
    w := DiesBroken(R, u, MAIL, To(l, Finding), ThrowsPastCatch, FindRecord(false), l);
  }

  // ------------------------------------------------ a mail sent twice

  lemma MailGoesOut(R: World -> bool, w: World, l: Local) returns (v: World)
    requires StepClosed(R)
    requires Stands(R, w, MAIL, l) && l.job.stage == Waiting
    ensures Stands(R, v, MAIL, To(l, Settling).(effects := l.effects + 1)) && SameElse(w, v)
  {
    v := Works(R, w, MAIL, l, Take, To(l, Finding));
    v := Works(R, v, MAIL, To(l, Finding), FindRecord(true), To(l, Starting));
    v := Works(R, v, MAIL, To(l, Starting), MarkStarted(Applied), To(l, Working));
    v := Works(R, v, MAIL, To(l, Working), RunBody(true), To(l, Settling).(effects := l.effects + 1));
  }

  lemma MailSettles(R: World -> bool, w: World, l: Local) returns (v: World)
    requires StepClosed(R)
    requires Stands(R, w, MAIL, To(l, Settling))
    ensures Stands(R, v, MAIL, Move(l, Done)) && SameElse(w, v)
  {
    v := Works(R, w, MAIL, To(l, Settling), SettleRecord("", Applied), To(l, Returning));
    v := Works(R, v, MAIL, To(l, Returning), Report, Move(l, Done));
  }

  lemma MailEvicted(R: World -> bool, w: World, l: Local) returns (v: World)
    requires Closed(R)
    requires Stands(R, w, MAIL, Move(l, Done)) && w.jobs.Keys == {MAIL}
    ensures R(v) && v.jobs == map[] && v.events == w.events && v.dispatchers == w.dispatchers
    ensures v.effects[MAIL] == l.effects && v.lost[MAIL] == l.lost && 1 in v.mails
    ensures (1 in v.processed <==> l.processed) && (MAIL in v.deadLetters <==> l.buried.Some?)
  {
    OneStep(R, w, Evicting(MAIL));
    v := OnEvict(w, MAIL);
    assert v.jobs == map[];
  }

  /** Nothing was lost, and the mail has gone out twice: the completion of its event
      failed, and when it was dispatched again its finished job had been removed. */
  lemma MailSentTwice(R: World -> bool) returns (w: World)
    requires Closed(R)
    ensures R(w) && w.effects[MAIL] == 2 && w.lost[MAIL] == 0
  {
    var l := Fresh(MAIL_DATA, 0);
    w := MailWaits(R);
    w := MailGoesOut(R, w, l);
    w := MailSettles(R, w, l.(effects := 1));
    w := MailEvicted(R, w, l.(effects := 1));
    w := FailsToComplete(R, w, 1, MAIL_EVENT);
    w := GivesBack(R, w, 1, MAIL_EVENT, Claimed(MAIL_EVENT));
    w := MailSentAgain(R, w);
  }

  lemma MailSentAgain(R: World -> bool, w: World) returns (v: World)
    requires Closed(R)
    requires R(w) && Lone(w, 1, GivenBack(Claimed(MAIL_EVENT), 1, "", Some(0))) && w.jobs == map[]
    requires w.effects[MAIL] == 1 && w.lost[MAIL] == 0 && 1 in w.mails && 1 !in w.processed && MAIL !in w.deadLetters
    ensures R(v) && v.effects[MAIL] == 2 && v.lost[MAIL] == 0
  {
    var e := GivenBack(Claimed(MAIL_EVENT), 1, "", Some(0));
    v := Claims(R, w, 1, e, 0);
    v := Adds(R, v, 1, e, MAIL);
    v := MailGoesOut(R, v, Fresh(DataOf(1, e), 1));
  }

  // ------------------------------------------------ the results

  function KeyOf(cause: Cause): JobKey { if cause == ThrowsPastCatch then MAIL else HOOK }

  function EndOf(cause: Cause): Stage { if cause == SucceedsAfterLetter then Done else Dead }

  /** What the job leaves: a letter, and a mark of its event, as the cause has it. */
  ghost predicate LeftBehind(cause: Cause, w: World) {
    && (KeyOf(cause) in w.deadLetters <==> cause == CaughtThoughProcessed || cause == SucceedsAfterLetter)
    && (cause == CaughtThoughProcessed ==> KeyOf(cause).id in w.processed)
  }

  lemma SomeRunBreaks(R: World -> bool, cause: Cause) returns (u: World, e: WorkEvent, w: World)
    requires Closed(R)
    ensures Broken(R, cause, u, KeyOf(cause), e, w, EndOf(cause)) && LeftBehind(cause, w)
  {
    match cause
    case ThrowsPastCatch => e := FindRecord(false); u, w := EscapedFinally(R);
    case LetterNotWritten => e := Bury(LostBefore); u, w := LetterUnwritten(R);
    case StalledTooOften => e := Crash(true); u, w := GivenUp(R);
    case CaughtThoughProcessed => e := Bury(Applied); u, w := FailedThoughProcessed(R);
    case SucceedsAfterLetter => e := MarkProcessed(Applied); u, w := SucceededAfterLetter(R);
  }

  lemma RestOf(v: World, w: World) returns (rest: seq<Event>)
    requires From(v)(w)
    ensures w == Run(v, rest)
  {
    rest :| w == Run(v, rest);
  }

  /** Each of the five calls is made in some run: from a reachable state the call that
      the cause names, and the rest of a run in which the job then ends against the rule:
      dead without a letter, dead with a letter of a processed event, or done with a
      letter. */
  lemma EveryCauseHappens(cause: Cause) returns (u: World, e: WorkEvent, rest: seq<Event>)
    ensures var w := Run(Step(u, WorkingOn(KeyOf(cause), e)), rest);
            && Reachable(u) && BreaksIn(cause, u, KeyOf(cause), e)
            && KeyOf(cause) in w.jobs && w.jobs[KeyOf(cause)].stage == EndOf(cause)
            && !EndsByTheRule(w, KeyOf(cause)) && LeftBehind(cause, w)
  {
    ReachableIsClosed();
    var w;
    u, e, w := SomeRunBreaks((w: World) => Reachable(w), cause);
    rest := RestOf(Step(u, WorkingOn(KeyOf(cause), e)), w);
  }

  /** Without any loss a mail goes out twice. */
  lemma MailIsNotIdempotent() returns (w: World)
    ensures Reachable(w) && w.effects[MAIL] == 2 && w.lost[MAIL] == 0
  {
    ReachableIsClosed();
    w := MailSentTwice((w: World) => Reachable(w));
  }
}
