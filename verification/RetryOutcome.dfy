/** How the attempts of a job end: in a processed event, or in one dead letter. */
module RetryOutcome {
  import opened Common
  import opened Outbox
  import opened Pipeline
  import opened DispatchSafety
  import opened EffectSafety
  import opened RecordSafety

  // ------------------------------------------------ the record of a job

  /** The delivery record of a job; a finished export has its file. */
  datatype RecordState = Missing | Open | Delivered | Undeliverable

  function MailState(mails: map<nat, MailStatus>, id: nat): RecordState {
    if id !in mails then Missing
    else match mails[id] case MailQueued | Sending => Open case Sent => Delivered case MailFailed => Undeliverable
  }

  function ExportState(exports: map<nat, Export>, id: nat): RecordState {
    if id !in exports then Missing
    else
      match exports[id].status
      case ExportQueued | Exporting => Open
      case Exported => if exports[id].file.Some? then Delivered else Open
      case ExportFailed => Undeliverable
  }

  function StateOf(w: World, k: JobKey): RecordState {
    match k.queue
    case WEBHOOK => Missing
    case EXPORT => ExportState(w.exports, k.id)
    case REMINDER | EMAIL => MailState(w.mails, k.id)
  }

  function Changed(state: RecordState, change: RecordChange): RecordState {
    if state == Missing then Missing
    else
      match change
      case Keep => state
      case Started => Open
      case Settled(_) => Delivered
      case Failed => Undeliverable
  }

  // ------------------------------------------------ the rule, and what breaks it

  predicate Recorded(queue: QueueName) { queue != WEBHOOK }

  /** What a job that failed for good should leave: one letter, an event not marked
      processed, and, where there is a record, a failed one. */
  predicate Buried(queue: QueueName, l: Local, s: RecordState) {
    l.buried.Some? && !l.processed && (Recorded(queue) ==> s == Undeliverable)
  }

  /** And one that succeeded: no letter, and a settled record. */
  predicate Unburied(queue: QueueName, l: Local, s: RecordState) {
    l.buried.None? && (Recorded(queue) ==> s == Delivered)
  }

  /** The event is marked processed although the job has a letter or a failed record:
      no end of the job can be right any more. */
  predicate Contradicted(l: Local, s: RecordState) {
    l.processed && (l.buried.Some? || s == Undeliverable)
  }

  /** The call throws on the final attempt, past the catch block: the check for
      processed events and the search for the record stand before it, and the catch
      block's own update of the record may fail in it. */
  predicate Escapes(queue: QueueName, l: Local, e: WorkEvent, hasRecord: bool) {
    Final(l.job) && queue != WEBHOOK &&
    match e
    case Take => queue == EXPORT && !l.job.data.payload.ForExport?
    case CheckProcessed(works) => !works
    case FindRecord(works) => queue != EXPORT && !(works && hasRecord)
    case HandleError(outcome) => outcome != Applied
    case _ => false
  }

  /** The calls that break the rule: the final attempt throws past the catch block, its
      letter cannot be written, or the queue gives a stalled job up, and what should be
      there by then (`Buried`; for the letter, an earlier one) is not; the final catch
      block runs for an event that is marked processed; a success is recorded after the
      letter. */
  datatype Cause = ThrowsPastCatch | LetterNotWritten | StalledTooOften | CaughtThoughProcessed | SucceedsAfterLetter

  /** The call, made in this state, is the one the cause names. */
  predicate Breaks(cause: Cause, queue: QueueName, l: Local, s: RecordState, e: WorkEvent, hasRecord: bool) {
    Enabled(l.job.stage, e) &&
    match cause
    case ThrowsPastCatch => Escapes(queue, l, e, hasRecord) && !Buried(queue, l, Changed(s, RecordStep(queue, l.job, e)))
    case LetterNotWritten => e == Bury(LostBefore) && l.buried.None?
    case StalledTooOften => e == Crash(true) && !Buried(queue, l, s)
    case CaughtThoughProcessed =>
      l.processed && (e.Bury? || (e.HandleError? && Final(l.job) && Recorded(queue) && !Escapes(queue, l, e, hasRecord)))
    case SucceedsAfterLetter =>
      l.buried.Some? && ((e.MarkProcessed? && e.outcome != LostBefore)
                         || (e.SettleRecord? && e.outcome == Applied && !Guarded(queue)))
  }

  /** Whether the rule is broken after a call, given whether it was before. How a job
      ends that throws past its catch block or is given up is decided then and there; a
      worker that stops has its attempt repeated, and with it goes what the attempt
      alone did wrong. */
  predicate FlawAfter(queue: QueueName, l: Local, s: RecordState, e: WorkEvent, hasRecord: bool, flawed: bool) {
    if !Enabled(l.job.stage, e) then flawed
    else if Escapes(queue, l, e, hasRecord) then Breaks(ThrowsPastCatch, queue, l, s, e, hasRecord)
    else if e.Crash? then if e.gone then Breaks(StalledTooOften, queue, l, s, e, hasRecord) else Contradicted(l, s)
    else
      || flawed || Breaks(LetterNotWritten, queue, l, s, e, hasRecord)
      || Breaks(CaughtThoughProcessed, queue, l, s, e, hasRecord) || Breaks(SucceedsAfterLetter, queue, l, s, e, hasRecord)
  }

  // ------------------------------------------------ one job

  /** What holds of a job and its record at every moment. */
  predicate Steady(queue: QueueName, l: Local, s: RecordState) {
    && l.job.attempts >= 1 && (l.buried.Some? ==> l.buried.value == l.job.attempts)
    && (l.processed ==> Guarded(queue) && (Recorded(queue) ==> s == Delivered || s == Undeliverable))
    && (Recorded(queue) <==> s != Missing)
    && SteadyStage(queue, l, s)
  }

  predicate SteadyStage(queue: QueueName, l: Local, s: RecordState) {
    match l.job.stage
    case Waiting => l.job.attemptsMade < l.job.attempts
    case Active(phase) => l.job.attemptsMade < l.job.attempts && SteadyPhase(queue, l, s, phase)
    case Done => (Guarded(queue) ==> l.processed) && (!Guarded(queue) ==> s == Delivered)
    case Dead => true
  }

  predicate SteadyPhase(queue: QueueName, l: Local, s: RecordState, phase: WorkPhase) {
    match phase
    case Checking => Guarded(queue)
    case Finding | Starting | Settling => !l.processed && Recorded(queue)
    case Working => !l.processed
    case Marking => !l.processed && Guarded(queue) && (Recorded(queue) ==> s == Delivered)
    case Returning => (Guarded(queue) ==> l.processed) && (!Guarded(queue) ==> s == Delivered)
    case Burying => Final(l.job) && (Recorded(queue) ==> s == Undeliverable)
    case Catching | Throwing => true
  }

  /** The flag says exactly whether the rule is, or is bound to be, broken. */
  predicate FlagExact(queue: QueueName, l: Local, s: RecordState, flawed: bool) {
    match l.job.stage
    case Done => flawed <==> !Unburied(queue, l, s)
    case Dead => flawed <==> !Buried(queue, l, s)
    case Waiting => flawed <==> Contradicted(l, s)
    case Active(phase) =>
      if phase == Returning then flawed <==> !Unburied(queue, l, s)
      else if phase == Throwing && Final(l.job) then flawed <==> !Buried(queue, l, s)
      else flawed <==> Contradicted(l, s)
  }

  lemma AttemptKeepsSteady(queue: QueueName, l: Local, s: RecordState, e: WorkEvent, hasRecord: bool)
    requires Steady(queue, l, s) && (Recorded(queue) ==> hasRecord)
    ensures Steady(queue, Attempt(queue, l, e, hasRecord), RecordAfter(queue, l, s, e))
  {
  }

  /** The record after a call of its own job. */
  function RecordAfter(queue: QueueName, l: Local, s: RecordState, e: WorkEvent): RecordState {
    if Recorded(queue) then Changed(s, RecordStep(queue, l.job, e)) else s
  }

  predicate ExactAfter(queue: QueueName, l: Local, s: RecordState, e: WorkEvent, hasRecord: bool, flawed: bool) {
    FlagExact(queue, Attempt(queue, l, e, hasRecord), RecordAfter(queue, l, s, e), FlawAfter(queue, l, s, e, hasRecord, flawed))
  }

  lemma EscapeKeepsExact(queue: QueueName, l: Local, s: RecordState, e: WorkEvent, hasRecord: bool, flawed: bool)
    requires Steady(queue, l, s) && FlagExact(queue, l, s, flawed) && (Recorded(queue) ==> hasRecord)
    requires Escapes(queue, l, e, hasRecord)
    ensures ExactAfter(queue, l, s, e, hasRecord, flawed)
  {
  }

  lemma EndKeepsExact(queue: QueueName, l: Local, s: RecordState, e: WorkEvent, hasRecord: bool, flawed: bool)
    requires Steady(queue, l, s) && FlagExact(queue, l, s, flawed) && (Recorded(queue) ==> hasRecord)
    requires e.Crash? || e.Report?
    ensures ExactAfter(queue, l, s, e, hasRecord, flawed)
  {
  }

  lemma CatchKeepsExact(queue: QueueName, l: Local, s: RecordState, e: WorkEvent, hasRecord: bool, flawed: bool)
    requires Steady(queue, l, s) && FlagExact(queue, l, s, flawed) && (Recorded(queue) ==> hasRecord)
    requires !Escapes(queue, l, e, hasRecord) && (e.HandleError? || e.Bury?)
    ensures ExactAfter(queue, l, s, e, hasRecord, flawed)
  {
  }

  lemma SuccessKeepsExact(queue: QueueName, l: Local, s: RecordState, e: WorkEvent, hasRecord: bool, flawed: bool)
    requires Steady(queue, l, s) && FlagExact(queue, l, s, flawed) && (Recorded(queue) ==> hasRecord)
    requires e.SettleRecord? || e.MarkProcessed?
    ensures ExactAfter(queue, l, s, e, hasRecord, flawed)
  {
  }

  lemma BeginKeepsExact(queue: QueueName, l: Local, s: RecordState, e: WorkEvent, hasRecord: bool, flawed: bool)
    requires Steady(queue, l, s) && FlagExact(queue, l, s, flawed) && (Recorded(queue) ==> hasRecord)
    requires !Escapes(queue, l, e, hasRecord) && (e.Take? || e.CheckProcessed?)
    ensures ExactAfter(queue, l, s, e, hasRecord, flawed)
  {
  }

  lemma TryKeepsExact(queue: QueueName, l: Local, s: RecordState, e: WorkEvent, hasRecord: bool, flawed: bool)
    requires Steady(queue, l, s) && FlagExact(queue, l, s, flawed) && (Recorded(queue) ==> hasRecord)
    requires !Escapes(queue, l, e, hasRecord) && (e.FindRecord? || e.MarkStarted? || e.RunBody?)
    ensures ExactAfter(queue, l, s, e, hasRecord, flawed)
  {
  }

  lemma AttemptKeepsExact(queue: QueueName, l: Local, s: RecordState, e: WorkEvent, hasRecord: bool, flawed: bool)
    requires Steady(queue, l, s) && FlagExact(queue, l, s, flawed) && (Recorded(queue) ==> hasRecord)
    ensures ExactAfter(queue, l, s, e, hasRecord, flawed)
  {
    if Escapes(queue, l, e, hasRecord) {
      EscapeKeepsExact(queue, l, s, e, hasRecord, flawed);
    } else {
      match e
      case Crash(_) | Report => EndKeepsExact(queue, l, s, e, hasRecord, flawed);
      case HandleError(_) | Bury(_) => CatchKeepsExact(queue, l, s, e, hasRecord, flawed);
      case SettleRecord(_, _) | MarkProcessed(_) => SuccessKeepsExact(queue, l, s, e, hasRecord, flawed);
      case Take | CheckProcessed(_) => BeginKeepsExact(queue, l, s, e, hasRecord, flawed);
      case _ => TryKeepsExact(queue, l, s, e, hasRecord, flawed);
    }
  }

  /** The update of a record, seen from its own job and from the others. */
  lemma MailChanges(mails: map<nat, MailStatus>, id: nat, change: RecordChange, j: nat)
    ensures MailState(ChangeMail(mails, id, change), j) == if j == id then Changed(MailState(mails, id), change) else MailState(mails, j)
  {
  }

  lemma ExportChanges(exports: map<nat, Export>, id: nat, payload: Payload, change: RecordChange, j: nat)
    requires id in exports && payload == ForExport(exports[id].exportId)
    requires forall i :: i in exports && exports[i].exportId == exports[id].exportId ==> i == id
    ensures ExportState(ChangeExport(exports, id, payload, change), j)
              == if j == id then Changed(ExportState(exports, id), change) else ExportState(exports, j)
  {
  }

  // ------------------------------------------------ all jobs, all runs

  /** Whether, in a run, a job's end breaks the rule. A removed job starts anew. */
  ghost predicate Flawed(es: seq<Event>, k: JobKey) {
    if es == [] then false
    else
      var before := es[..|es| - 1];
      FlawStep(Run(INIT, before), es[|es| - 1], k, Flawed(before, k))
  }

  ghost predicate FlawStep(w: World, e: Event, k: JobKey, flawed: bool) {
    if k !in w.jobs then flawed
    else
      match e
      case WorkingOn(j, x) => if j == k then FlawAfter(k.queue, ViewOf(w, k), StateOf(w, k), x, HasRecord(w, k), flawed) else flawed
      case Evicting(j) => if j == k && w.jobs[k].stage == Done then Contradicted(ViewOf(w, k), StateOf(w, k)) else flawed
      case _ => flawed
  }

  /** The part of a view that outlives the job. */
  ghost predicate Lasting(w: World, k: JobKey, flawed: bool) {
    && (k in w.deadLetters ==> w.deadLetters[k] == JOB_ATTEMPTS)
    && (k.id in w.processed ==> Guarded(k.queue) && (Recorded(k.queue) ==> StateOf(w, k) == Delivered || StateOf(w, k) == Undeliverable))
    && (Recorded(k.queue) ==> StateOf(w, k) != Missing)
    && (flawed <==> k.id in w.processed && (k in w.deadLetters || StateOf(w, k) == Undeliverable))
  }

  ghost predicate Orderly(w: World, k: JobKey, flawed: bool) {
    if k in w.jobs then
      && w.jobs[k].attempts == JOB_ATTEMPTS
      && Steady(k.queue, ViewOf(w, k), StateOf(w, k)) && FlagExact(k.queue, ViewOf(w, k), StateOf(w, k), flawed)
    else
      Lasting(w, k, flawed)
  }

  ghost predicate NoOrphans(w: World) {
    NothingUnknown(w) && forall k :: k in w.deadLetters ==> k.id in w.events
  }

  /** Facts about a job of a reachable state that its worker's step relies on. */
  ghost predicate JobSound(w: World, k: JobKey) {
    && k in w.jobs && Routed(w.events, k)
    && (k.queue == EXPORT ==>
          && k.id in w.exports && w.jobs[k].data.payload == ForExport(w.exports[k.id].exportId)
          && forall i :: i in w.exports && w.exports[i].exportId == w.exports[k.id].exportId ==> i == k.id)
  }

  lemma JobIsSound(w: World, k: JobKey)
    requires Inv(w) && RecordsInv(w) && k in w.jobs
    ensures JobSound(w, k)
  {
    assert EventRecorded(w.events[k.id], k.id, w.mails, w.exports);
  }

  lemma OwnStateAfter(w: World, k: JobKey, change: RecordChange)
    requires JobSound(w, k) && k.queue != WEBHOOK
    ensures StateOf(ChangeRecord(w, k, w.jobs[k].data.payload, change), k) == Changed(StateOf(w, k), change)
  {
    match k.queue
    case EXPORT => ExportChanges(w.exports, k.id, w.jobs[k].data.payload, change, k.id);
    case REMINDER | EMAIL => MailChanges(w.mails, k.id, change, k.id);
  }

  lemma OtherStateAfter(w: World, k: JobKey, change: RecordChange, j: JobKey)
    requires JobSound(w, k) && j.id != k.id
    ensures StateOf(ChangeRecord(w, k, w.jobs[k].data.payload, change), j) == StateOf(w, j)
  {
    match k.queue
    case WEBHOOK =>
    case EXPORT => ExportChanges(w.exports, k.id, w.jobs[k].data.payload, change, j.id);
    case REMINDER | EMAIL => MailChanges(w.mails, k.id, change, j.id);
  }

  lemma StoreKeepsState(w: World, k: JobKey, l: Local, j: JobKey)
    ensures StateOf(Store(w, k, l), j) == StateOf(w, j)
  {
  }

  lemma StateAfter(w: World, k: JobKey, e: WorkEvent, j: JobKey)
    requires JobSound(w, k) && (if j == k then k.queue != WEBHOOK else j.id != k.id)
    ensures StateOf(OnWork(w, k, e), j)
              == if j == k then Changed(StateOf(w, k), RecordStep(k.queue, w.jobs[k], e)) else StateOf(w, j)
  {
    var change := RecordStep(k.queue, w.jobs[k], e);
    if j == k { OwnStateAfter(w, k, change); } else { OtherStateAfter(w, k, change, j); }
    StoreKeepsState(ChangeRecord(w, k, w.jobs[k].data.payload, change), k, Attempt(k.queue, ViewOf(w, k), e, HasRecord(w, k)), j);
  }

  lemma LettersAfter(w: World, k: JobKey, e: WorkEvent)
    requires k in w.jobs
    ensures forall j :: j in OnWork(w, k, e).deadLetters ==> j in w.deadLetters || j == k
    ensures forall j: JobKey :: j != k ==> (j in w.deadLetters <==> j in OnWork(w, k, e).deadLetters)
    ensures forall j: JobKey :: j != k && j in w.deadLetters ==> OnWork(w, k, e).deadLetters[j] == w.deadLetters[j]
  {
    RecordsApart(w, k, w.jobs[k].data.payload, RecordStep(k.queue, w.jobs[k], e));
  }

  lemma OwnWorkOrderly(w: World, k: JobKey, e: WorkEvent, flawed: bool)
    requires JobSound(w, k) && Orderly(w, k, flawed) && HasRecord(w, k)
    ensures Orderly(OnWork(w, k, e), k, FlawStep(w, WorkingOn(k, e), k, flawed))
  {
    var l, s, r := ViewOf(w, k), StateOf(w, k), HasRecord(w, k);
    WorkIsLocal(w, k, e);
    AttemptKeeps(k.queue, l, e, r);
    AttemptKeepsSteady(k.queue, l, s, e, r);
    AttemptKeepsExact(k.queue, l, s, e, r, flawed);
    if Recorded(k.queue) { StateAfter(w, k, e, k); }
  }

  lemma OtherWorkOrderly(w: World, k: JobKey, e: WorkEvent, j: JobKey, flawed: bool)
    requires JobSound(w, k) && Orderly(w, j, flawed) && j.id != k.id
    ensures Orderly(OnWork(w, k, e), j, FlawStep(w, WorkingOn(k, e), j, flawed))
  {
    WorkElsewhere(w, k, e, j);
    LettersAfter(w, k, e);
    StateAfter(w, k, e, j);
  }

  lemma EvictKeepsOrderly(w: World, k: JobKey, j: JobKey, flawed: bool)
    requires Orderly(w, j, flawed)
    ensures Orderly(OnEvict(w, k), j, FlawStep(w, Evicting(k), j, flawed))
  {
  }

  /** Dispatchers and producers add waiting jobs, and records of new ids only. */
  ghost predicate OldRecordsKept(w: World, t: World) {
    && (forall id :: id in w.events && id in w.mails ==> id in t.mails && t.mails[id] == w.mails[id])
    && (forall id :: id in w.events && id in w.exports ==> id in t.exports && t.exports[id] == w.exports[id])
    && (forall id :: id in w.events && id !in w.mails ==> id !in t.mails)
    && (forall id :: id in w.events && id !in w.exports ==> id !in t.exports)
  }

  lemma QuietOrderly(w: World, t: World, j: JobKey, flawed: bool)
    requires Quiet(w, t) && OldRecordsKept(w, t) && Orderly(w, j, flawed) && j.id in w.events
    ensures Orderly(t, j, flawed)
  {
    assert StateOf(t, j) == StateOf(w, j);
  }

  lemma NewEventOrderly(w: World, t: World, j: JobKey)
    requires Quiet(w, t) && NoOrphans(w) && j.id !in w.events && j !in t.jobs && (Recorded(j.queue) ==> StateOf(t, j) != Missing)
    ensures Orderly(t, j, false)
  {
  }

  lemma ProduceKeepsOldRecords(w: World, e: ProduceEvent)
    requires IdsKnown(w.events, w.ids, w.producers)
    ensures OldRecordsKept(w, OnProduce(w, e)) && OnProduce(w, e).jobs == w.jobs
  {
  }

  lemma WorkKeepsNoOrphans(w: World, k: JobKey, e: WorkEvent)
    requires NoOrphans(w) && JobsRouted(w.events, w.jobs, w.added)
    ensures NoOrphans(OnWork(w, k, e))
  {
    if k in w.jobs {
      WorkKeepsUnknown(w, k, e);
      WorkFrame(w, k, e);
      LettersAfter(w, k, e);
    }
  }

  lemma QuietKeepsNoOrphans(w: World, t: World)
    requires NoOrphans(w) && Quiet(w, t) && w.events.Keys <= t.events.Keys
    ensures NoOrphans(t)
  {
  }

  lemma EvictKeepsNoOrphans(w: World, k: JobKey)
    requires NoOrphans(w) && JobsRouted(w.events, w.jobs, w.added)
    ensures NoOrphans(OnEvict(w, k))
  {
  }

  lemma StepKeepsNoOrphans(w: World, e: Event)
    requires Inv(w) && NoOrphans(w)
    ensures NoOrphans(Step(w, e))
  {
    StepEvolves(w, e);
    match e
    case Dispatching(d, x) =>
      DispatchIsQuiet(w, d, x);
      QuietKeepsNoOrphans(w, OnDispatch(w, d, x));
    case WorkingOn(k, x) => WorkKeepsNoOrphans(w, k, x);
    case Evicting(k) => EvictKeepsNoOrphans(w, k);
    case Producing(x) =>
      ProduceIsQuiet(w, x);
      QuietKeepsNoOrphans(w, OnProduce(w, x));
  }

  lemma WorkStepOrderly(w: World, k: JobKey, x: WorkEvent, j: JobKey, flawed: bool)
    requires Inv(w) && RecordsInv(w) && Routed(w.events, j) && Orderly(w, j, flawed)
    ensures Orderly(OnWork(w, k, x), j, FlawStep(w, WorkingOn(k, x), j, flawed))
  {
    if k in w.jobs {
      JobIsSound(w, k);
      if j == k { OwnWorkOrderly(w, k, x, flawed); } else { OtherWorkOrderly(w, k, x, j, flawed); }
    }
  }

  lemma DispatchStepOrderly(w: World, d: nat, x: DispatchEvent, j: JobKey, flawed: bool)
    requires j.id in w.events && Orderly(w, j, flawed)
    ensures Orderly(OnDispatch(w, d, x), j, flawed)
  {
    DispatchIsQuiet(w, d, x);
    QuietOrderly(w, OnDispatch(w, d, x), j, flawed);
  }

  lemma ProduceStepOrderly(w: World, x: ProduceEvent, j: JobKey, flawed: bool)
    requires IdsKnown(w.events, w.ids, w.producers) && j.id in w.events && Orderly(w, j, flawed)
    ensures Orderly(OnProduce(w, x), j, flawed)
  {
    ProduceIsQuiet(w, x);
    ProduceKeepsOldRecords(w, x);
    QuietOrderly(w, OnProduce(w, x), j, flawed);
  }

  /** A step as a job's event goes through it. */
  lemma StepOrderly(w: World, e: Event, j: JobKey, flawed: bool)
    requires Inv(w) && RecordsInv(w) && Routed(w.events, j) && Orderly(w, j, flawed)
    ensures Orderly(Step(w, e), j, FlawStep(w, e, j, flawed))
  {
    match e
    case Dispatching(d, x) => DispatchStepOrderly(w, d, x, j, flawed);
    case WorkingOn(k, x) => WorkStepOrderly(w, k, x, j, flawed);
    case Evicting(k) => EvictKeepsOrderly(w, k, j, flawed);
    case Producing(x) => ProduceStepOrderly(w, x, j, flawed);
  }

  lemma OnlyProducersStore(w: World, e: Event)
    requires Inv(w) && !e.Producing?
    ensures Step(w, e).events.Keys == w.events.Keys
  {
    match e
    case Dispatching(d, x) => DispatchUpdates(w, d, x);
    case WorkingOn(k, x) => WorkKeepsInv(w, k, x);
    case Evicting(k) =>
  }

  /** A step that stores the event. */
  lemma FirstOrderly(w: World, t: World, j: JobKey)
    requires JobsRouted(w.events, w.jobs, w.added) && NoOrphans(w) && Quiet(w, t) && t.jobs == w.jobs
    requires EventsRecorded(t.events, t.mails, t.exports) && j.id !in w.events && Routed(t.events, j)
    ensures Orderly(t, j, false)
  {
    assert EventRecorded(t.events[j.id], j.id, t.mails, t.exports);
    NewEventOrderly(w, t, j);
  }

  lemma {:induction false} NotFlawedBefore(es: seq<Event>, j: JobKey)
    requires j.id !in Run(INIT, es).events
    ensures !Flawed(es, j)
  {
    if es != [] {
      var before := es[..|es| - 1];
      RunKeepsInv(before);
      StepEvolves(Run(INIT, before), es[|es| - 1]);
      NotFlawedBefore(before, j);
    }
  }

  lemma {:induction false} RunKeepsNoOrphans(es: seq<Event>)
    ensures NoOrphans(Run(INIT, es))
  {
    if es != [] {
      RunKeepsNoOrphans(es[..|es| - 1]);
      RunKeepsInv(es[..|es| - 1]);
      StepKeepsNoOrphans(Run(INIT, es[..|es| - 1]), es[|es| - 1]);
    }
  }

  lemma {:induction false} RunKeepsOrderly(es: seq<Event>, j: JobKey)
    requires Routed(Run(INIT, es).events, j)
    ensures Orderly(Run(INIT, es), j, Flawed(es, j))
  {
    var before, e := es[..|es| - 1], es[|es| - 1];
    var w := Run(INIT, before);
    RunKeepsRecords(before);
    RunKeepsRecords(es);
    if j.id in w.events {
      RoutedBefore(w, e, j);
      RunKeepsOrderly(before, j);
      StepOrderly(w, e, j, Flawed(before, j));
    } else {
      RunKeepsNoOrphans(before);
      if !e.Producing? { OnlyProducersStore(w, e); }
      ProduceIsQuiet(w, e.produce);
      ProduceKeepsOldRecords(w, e.produce);
      FirstOrderly(w, OnProduce(w, e.produce), j);
      NotFlawedBefore(before, j);
    }
  }

  lemma RoutedBefore(w: World, e: Event, j: JobKey)
    requires Inv(w) && j.id in w.events && Routed(Step(w, e).events, j)
    ensures Routed(w.events, j)
  {
    StepEvolves(w, e);
  }

  // ------------------------------------------------ main results

  /** How a job ends when all goes by the rule: processed, without a letter and with a
      settled record; or with one letter, of its last attempt, unprocessed and with a
      failed record. */
  ghost predicate EndsByTheRule(w: World, k: JobKey)
    requires k in w.jobs
  {
    if w.jobs[k].stage == Done then
      && k !in w.deadLetters && (Guarded(k.queue) ==> k.id in w.processed)
      && (Recorded(k.queue) ==> StateOf(w, k) == Delivered)
    else
      && k in w.deadLetters && w.deadLetters[k] == w.jobs[k].attempts && k.id !in w.processed
      && (Recorded(k.queue) ==> StateOf(w, k) == Undeliverable)
  }

  /** In every run, over dispatches, retries, crashes and removals: a job that ended,
      ended by the rule if and only if the rule was not broken, or was broken only by
      attempts that were repeated. */
  lemma RetriesEndOneWay(es: seq<Event>, k: JobKey)
    requires k in Run(INIT, es).jobs && (Run(INIT, es).jobs[k].stage == Done || Run(INIT, es).jobs[k].stage == Dead)
    ensures EndsByTheRule(Run(INIT, es), k) <==> !Flawed(es, k)
  {
    RunKeepsInv(es);
    assert Routed(Run(INIT, es).events, k);
    RunKeepsOrderly(es, k);
  }

  // ------------------------------------------------ termination

  function PhaseRank(stage: Stage): nat {
    match stage
    case Done | Dead => 0
    case Waiting => 11
    case Active(phase) =>
      match phase
      case Checking => 10
      case Finding => 9
      case Starting => 8
      case Working => 7
      case Settling => 6
      case Marking => 5
      case Catching => 4
      case Burying => 3
      case Throwing => 2
      case Returning => 1
  }

  /** Bounds what a job can still go through without a crash. */
  function Rank(job: Job): nat {
    if job.stage == Done || job.stage == Dead then 0
    else 12 * (if job.attemptsMade < job.attempts then job.attempts - job.attemptsMade else 0) + PhaseRank(job.stage)
  }

  lemma PhaseDescends(queue: QueueName, l: Local, e: WorkEvent, hasRecord: bool)
    requires Enabled(l.job.stage, e) && !e.Crash? && !e.Report?
    ensures var t := Attempt(queue, l, e, hasRecord).job;
            t.attemptsMade == l.job.attemptsMade && t.attempts == l.job.attempts && t.stage.Active?
            && PhaseRank(t.stage) < PhaseRank(l.job.stage)
  {
  }

  lemma ReportDescends(l: Local)
    requires Enabled(l.job.stage, Report)
    ensures Rank(OnReport(l).job) < Rank(l.job)
  {
  }

  lemma AttemptDescends(queue: QueueName, l: Local, e: WorkEvent, hasRecord: bool)
    requires Enabled(l.job.stage, e) && !e.Crash?
    ensures Rank(Attempt(queue, l, e, hasRecord).job) < Rank(l.job)
  {
    if e.Report? {
      ReportDescends(l);
    } else {
      PhaseDescends(queue, l, e, hasRecord);
    }
  }

  /** A job's history as its worker sees it. */
  function Attempts(queue: QueueName, l: Local, es: seq<(WorkEvent, bool)>): Local {
    if es == [] then l
    else Attempt(queue, Attempts(queue, l, es[..|es| - 1]), es[|es| - 1].0, es[|es| - 1].1)
  }

  ghost predicate AllEnabled(queue: QueueName, l: Local, es: seq<(WorkEvent, bool)>) {
    forall i :: 0 <= i < |es| ==> Enabled(Attempts(queue, l, es[..i]).job.stage, es[i].0) && !es[i].0.Crash?
  }

  /** Retries terminate: without crashes, no sequence of calls of a worker is longer
      than the rank of the job it starts from, and one that cannot go on has ended. */
  lemma {:induction false} RetriesTerminate(queue: QueueName, l: Local, es: seq<(WorkEvent, bool)>)
    requires AllEnabled(queue, l, es)
    ensures |es| + Rank(Attempts(queue, l, es).job) <= Rank(l.job)
  {
    if es != [] {
      var before := es[..|es| - 1];
      assert forall i :: 0 <= i < |before| ==> before[..i] == es[..i];
      RetriesTerminate(queue, l, before);
      AttemptDescends(queue, Attempts(queue, l, before), es[|es| - 1].0, es[|es| - 1].1);
    }
  }

  lemma OnlyEndedJobsAreStuck(job: Job)
    ensures (job.stage == Done || job.stage == Dead) <==> forall e: WorkEvent :: !e.Crash? ==> !Enabled(job.stage, e)
  {
    match job.stage
    case Waiting => assert Enabled(job.stage, Take);
    case Done =>
    case Dead =>
    case Active(phase) =>
      match phase
      case Checking => assert Enabled(job.stage, CheckProcessed(true));
      case Finding => assert Enabled(job.stage, FindRecord(true));
      case Starting => assert Enabled(job.stage, MarkStarted(Applied));
      case Working => assert Enabled(job.stage, RunBody(true));
      case Settling => assert Enabled(job.stage, SettleRecord("", Applied));
      case Marking => assert Enabled(job.stage, MarkProcessed(Applied));
      case Catching => assert Enabled(job.stage, HandleError(Applied));
      case Burying => assert Enabled(job.stage, Bury(Applied));
      case Throwing => assert Enabled(job.stage, Report);
      case Returning => assert Enabled(job.stage, Report);
  }
}
