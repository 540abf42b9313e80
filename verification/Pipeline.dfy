/** The asynchronous pipeline as one state machine: producers that store events,
    dispatchers that claim and enqueue them, and the workers of the four queues.

    Every database or queue call is one atomic step, steps of any number of
    producers, dispatchers and workers interleave freely, each call may fail, with
    or without having taken effect, and each process may stop between two calls. */
module Pipeline {
  import opened Common
  import opened Outbox

  // ------------------------------------------------ state

  /** A dispatcher between two calls. Outside `Between` it works on the first event
      of its list. */
  datatype DispatchPhase = Between | Owning | Enqueued | Failing | GivingBack(attempts: nat)

  datatype Dispatcher = Dispatcher(todo: Batch, phase: DispatchPhase)

  /** The next call of a running job. */
  datatype WorkPhase =
    | Checking | Finding | Starting | Working | Settling | Marking | Returning
    | Catching | Burying | Throwing

  datatype Stage = Waiting | Active(phase: WorkPhase) | Done | Dead

  datatype Job = Job(data: JobData, attempts: nat, attemptsMade: nat, stage: Stage)

  datatype MailStatus = MailQueued | Sending | Sent | MailFailed

  datatype ExportStatus = ExportQueued | Exporting | Exported | ExportFailed

  datatype Export = Export(exportId: nat, status: ExportStatus, file: Option<string>)

  datatype Mail = ForReminder(task: nat, workspace: nat) | ForAccount(user: nat)

  /** A producer after its delivery record is stored (`Recorded`), or after its
      event is (`Emitted`). */
  datatype Producer = Recorded(id: nat, mail: Mail) | Emitted(task: nat)

  /** `claims`, `added`, `effects`, `lost` and `evicted` are history: successful claims
      of an event, jobs added, bodies of jobs run to success, successes whose trace was
      lost before the event was marked processed, and removals of completed jobs. */
  datatype World = World(
    events: Events, dispatchers: map<nat, Dispatcher>, claims: multiset<nat>, added: set<JobKey>,
    jobs: map<JobKey, Job>, processed: set<nat>, deadLetters: map<JobKey, nat>,
    effects: multiset<JobKey>, lost: multiset<JobKey>, evicted: multiset<JobKey>,
    mails: map<nat, MailStatus>, exports: map<nat, Export>,
    producers: map<nat, Producer>, reminded: set<nat>, ids: set<nat>)

  const INIT := World(map[], map[], multiset{}, {}, map[], {}, map[], multiset{}, multiset{}, multiset{}, map[], map[], map[], {}, {})

  // ------------------------------------------------ dispatchers

  datatype DispatchEvent =
    | Begin(batch: Batch, limit: nat, now: int)
    | Claim(outcome: Outcome)
    | Enqueue(outcome: Outcome)
    | Complete(now: int, outcome: Outcome)
    | ReadAttempts(works: bool)
    | GiveBack(error: string, availableAt: int, outcome: Outcome)
    | StopDispatcher

  function Put(w: World, d: nat, todo: Batch, phase: DispatchPhase): World {
    w.(dispatchers := w.dispatchers[d := Dispatcher(todo, phase)])
  }

  function Quit(w: World, d: nat): World { w.(dispatchers := w.dispatchers - {d}) }

  predicate Ready(w: World, d: nat, phase: DispatchPhase) {
    d in w.dispatchers && w.dispatchers[d].phase == phase && w.dispatchers[d].todo != []
  }

  /** A dispatcher touches events, its own list, and the queues. */
  predicate DispatchFrame(w: World, t: World, d: nat) {
    && t == w.(events := t.events, dispatchers := t.dispatchers, claims := t.claims, added := t.added, jobs := t.jobs)
    && (t.dispatchers == w.dispatchers - {d} || t.dispatchers == w.dispatchers
        || (d in t.dispatchers && t.dispatchers == w.dispatchers[d := t.dispatchers[d]]))
  }

  /** `markProcessing`: a failing call ends the pass. */
  function OnClaim(w: World, d: nat, outcome: Outcome): (t: World)
    ensures DispatchFrame(w, t, d)
  {
    if !Ready(w, d, Between) then w
    else
      var todo := w.dispatchers[d].todo;
      var id := todo[0].0;
      var wins := outcome != LostBefore && id in w.events && Claimable(w.events[id]);
      var claimed := if wins then w.(events := AfterClaim(w.events, id), claims := w.claims + multiset{id}) else w;
      if outcome != Applied then Quit(claimed, d)
      else if wins then Put(claimed, d, todo, Owning)
      else Put(claimed, d, todo[1..], Between)
  }

  const JOB_ATTEMPTS: nat := 3

  /** `queue.add`: a job id the queue has is left alone. */
  function AddJob(jobs: map<JobKey, Job>, key: JobKey, data: JobData): map<JobKey, Job> {
    if key in jobs then jobs else jobs[key := Job(data, JOB_ATTEMPTS, 0, Waiting)]
  }

  function OnEnqueue(w: World, d: nat, outcome: Outcome): (t: World)
    ensures DispatchFrame(w, t, d)
  {
    if !Ready(w, d, Owning) then w
    else
      var todo := w.dispatchers[d].todo;
      var (id, e) := todo[0];
      match GetQueue(e.eventType)
      case None => Put(w, d, todo, Failing)
      case Some(queue) =>
        var key := JobKey(queue, id);
        if outcome == LostBefore then Put(w, d, todo, Failing)
        else Put(w, d, todo, if outcome == Applied then Enqueued else Failing)
               .(jobs := AddJob(w.jobs, key, DataOf(id, e)), added := w.added + {key})
  }

  function OnComplete(w: World, d: nat, now: int, outcome: Outcome): (t: World)
    ensures DispatchFrame(w, t, d)
  {
    if !Ready(w, d, Enqueued) then w
    else
      var todo := w.dispatchers[d].todo;
      var done := if outcome == LostBefore then w else w.(events := AfterCompletion(w.events, todo[0].0, now));
      if outcome == Applied then Put(done, d, todo[1..], Between) else Put(done, d, todo, Failing)
  }

  /** The read at the start of `markFailed`; its failure ends the pass. */
  function OnReadAttempts(w: World, d: nat, works: bool): (t: World)
    ensures DispatchFrame(w, t, d)
  {
    if !Ready(w, d, Failing) then w
    else
      var todo := w.dispatchers[d].todo;
      if !works then Quit(w, d)
      else if todo[0].0 !in w.events then Put(w, d, todo[1..], Between)
      else Put(w, d, todo, GivingBack(w.events[todo[0].0].attempts))
  }

  function OnGiveBack(w: World, d: nat, error: string, availableAt: int, outcome: Outcome): (t: World)
    ensures DispatchFrame(w, t, d)
  {
    if !(d in w.dispatchers && w.dispatchers[d].phase.GivingBack? && w.dispatchers[d].todo != []) then w
    else
      var todo := w.dispatchers[d].todo;
      var given := if outcome == LostBefore then w
                   else w.(events := AfterFailure(w.events, todo[0].0, w.dispatchers[d].phase.attempts, error, Some(availableAt)));
      if outcome == Applied then Put(given, d, todo[1..], Between) else Quit(given, d)
  }

  ghost function OnDispatch(w: World, d: nat, e: DispatchEvent): (t: World)
    ensures DispatchFrame(w, t, d)
  {
    match e
    case Begin(batch, limit, now) =>
      if d !in w.dispatchers && IsBatch(w.events, limit, now, batch) then Put(w, d, batch, Between) else w
    case Claim(outcome) => OnClaim(w, d, outcome)
    case Enqueue(outcome) => OnEnqueue(w, d, outcome)
    case Complete(now, outcome) => OnComplete(w, d, now, outcome)
    case ReadAttempts(works) => OnReadAttempts(w, d, works)
    case GiveBack(error, availableAt, outcome) => OnGiveBack(w, d, error, availableAt, outcome)
    case StopDispatcher => Quit(w, d)
  }

  // ------------------------------------------------ workers

  datatype WorkEvent =
    | Take
    | CheckProcessed(works: bool)
    | FindRecord(works: bool)
    | MarkStarted(outcome: Outcome)
    | RunBody(succeeds: bool)
    | SettleRecord(file: string, outcome: Outcome)
    | MarkProcessed(outcome: Outcome)
    | HandleError(outcome: Outcome)
    | Bury(outcome: Outcome)
    | Report
    | Crash(gone: bool)

  /** All a worker reads and writes for one job, its delivery record apart. */
  datatype Local = Local(
    job: Job, processed: bool, effects: nat, lost: nat, buried: Option<nat>)

  /** What a worker's call does to the delivery record. */
  datatype RecordChange = Keep | Started | Settled(file: string) | Failed

  /** The e-mail processor alone keeps no record of processed events. */
  predicate Guarded(queue: QueueName) { queue != EMAIL }

  function To(l: Local, phase: WorkPhase): Local { Move(l, Active(phase)) }

  function Move(l: Local, stage: Stage): Local { l.(job := l.job.(stage := stage)) }

  predicate Final(job: Job) { job.attemptsMade + 1 >= job.attempts }

  /** The attempt throws, at the end of its catch block or past it. */
  function Throw(l: Local): Local { To(l, Throwing) }

  function OnTake(queue: QueueName, l: Local): Local {
    match queue
    case WEBHOOK => To(l, if l.job.data.workspaceId.Some? then Checking else Catching)
    case EXPORT => if l.job.data.payload.ForExport? then To(l, Checking) else Throw(l)
    case REMINDER => To(l, Checking)
    case EMAIL => To(l, Finding)
  }

  function OnCheckProcessed(queue: QueueName, l: Local, works: bool): Local {
    if !works then if queue == WEBHOOK then To(l, Catching) else Throw(l)
    else if l.processed then To(l, Returning)
    else To(l, if queue == WEBHOOK then Working else Finding)
  }

  function OnFindRecord(queue: QueueName, l: Local, found: bool): Local {
    if found then To(l, Starting) else if queue == EXPORT then To(l, Catching) else Throw(l)
  }

  function OnRunBody(queue: QueueName, l: Local, succeeds: bool): Local {
    if succeeds then To(l, if queue == WEBHOOK then Marking else Settling).(effects := l.effects + 1)
    else To(l, Catching)
  }

  function OnSettle(queue: QueueName, l: Local, outcome: Outcome): Local {
    if outcome != Applied then To(l, Catching).(lost := l.lost + 1)
    else To(l, if Guarded(queue) then Marking else Returning)
  }

  /** `markProcessed` inserts under a unique index. */
  function OnMark(l: Local, outcome: Outcome): Local {
    if outcome == LostBefore || l.processed then To(l, Catching).(lost := l.lost + 1)
    else if outcome == Applied then To(l, Returning).(processed := true)
    else To(l, Catching).(processed := true)
  }

  /** The catch block: on the final attempt the record is set to failed and the job
      goes to the dead-letter queue; before it, and when that update throws, the
      attempt just ends. */
  function OnHandleError(queue: QueueName, l: Local, outcome: Outcome): Local {
    if Final(l.job) && (queue == WEBHOOK || outcome == Applied) then To(l, Burying) else Throw(l)
  }

  /** The dead letter's own job id is derived from this job's: a second letter for
      the same job is left out. */
  function OnBury(l: Local, outcome: Outcome): Local {
    if outcome == LostBefore || l.buried.Some? then Throw(l) else Throw(l).(buried := Some(l.job.attemptsMade + 1))
  }

  /** The queue hears how the attempt ended. */
  function OnReport(l: Local): Local {
    if l.job.stage == Active(Returning) then Move(l, Done)
    else l.(job := l.job.(attemptsMade := l.job.attemptsMade + 1, stage := if Final(l.job) then Dead else Waiting))
  }

  /** A worker that stops: its job is found stalled and waits again, or, having
      stalled too often, is given up by the queue. */
  function OnCrash(queue: QueueName, l: Local, gone: bool): Local {
    Move(l, if gone then Dead else Waiting).(lost := if Unsettled(queue, l.job) then l.lost + 1 else l.lost)
  }

  /** The body succeeded and nothing durable says so yet. */
  predicate Unsettled(queue: QueueName, job: Job) {
    || job.stage == Active(Settling) || job.stage == Active(Marking)
    || (!Guarded(queue) && job.stage == Active(Returning))
  }

  /** The stage a job must be in for a call to be its next. */
  predicate Enabled(stage: Stage, e: WorkEvent) {
    match e
    case Take => stage == Waiting
    case CheckProcessed(_) => stage == Active(Checking)
    case FindRecord(_) => stage == Active(Finding)
    case MarkStarted(_) => stage == Active(Starting)
    case RunBody(_) => stage == Active(Working)
    case SettleRecord(_, _) => stage == Active(Settling)
    case MarkProcessed(_) => stage == Active(Marking)
    case HandleError(_) => stage == Active(Catching)
    case Bury(_) => stage == Active(Burying)
    case Report => stage == Active(Returning) || stage == Active(Throwing)
    case Crash(_) => stage.Active?
  }

  /** One call of a worker, as far as the job goes. */
  function Attempt(queue: QueueName, l: Local, e: WorkEvent, hasRecord: bool): Local {
    if !Enabled(l.job.stage, e) then l
    else
      match e
      case Take => OnTake(queue, l)
      case CheckProcessed(works) => OnCheckProcessed(queue, l, works)
      case FindRecord(works) => OnFindRecord(queue, l, works && hasRecord)
      case MarkStarted(outcome) => To(l, if outcome == Applied then Working else Catching)
      case RunBody(succeeds) => OnRunBody(queue, l, succeeds)
      case SettleRecord(_, outcome) => OnSettle(queue, l, outcome)
      case MarkProcessed(outcome) => OnMark(l, outcome)
      case HandleError(outcome) => OnHandleError(queue, l, outcome)
      case Bury(outcome) => OnBury(l, outcome)
      case Report => OnReport(l)
      case Crash(gone) => OnCrash(queue, l, gone)
  }

  /** The same call, as far as the delivery record goes. */
  function RecordStep(queue: QueueName, job: Job, e: WorkEvent): RecordChange {
    if !Enabled(job.stage, e) then Keep
    else
      match e
      case MarkStarted(outcome) => if outcome == LostBefore then Keep else Started
      case SettleRecord(file, outcome) => if outcome == LostBefore then Keep else Settled(file)
      case HandleError(outcome) => if Final(job) && outcome != LostBefore then Failed else Keep
      case _ => Keep
  }

  function ChangeMail(mails: map<nat, MailStatus>, id: nat, change: RecordChange): map<nat, MailStatus> {
    if id !in mails then mails
    else
      match change
      case Keep => mails
      case Started => mails[id := Sending]
      case Settled(_) => mails[id := Sent]
      case Failed => mails[id := MailFailed]
  }

  /** Starting and settling update the export found by its event, failing the one
      with the id in the job's payload. */
  function ChangeExport(exports: map<nat, Export>, id: nat, payload: Payload, change: RecordChange): map<nat, Export> {
    match change
    case Keep => exports
    case Started => if id in exports then exports[id := exports[id].(status := Exporting)] else exports
    case Settled(file) => if id in exports then exports[id := exports[id].(status := Exported, file := Some(file))] else exports
    case Failed =>
      map i | i in exports ::
        if payload.ForExport? && exports[i].exportId == payload.exportId then exports[i].(status := ExportFailed) else exports[i]
  }

  function ChangeRecord(w: World, k: JobKey, payload: Payload, change: RecordChange): World {
    match k.queue
    case WEBHOOK => w
    case EXPORT => w.(exports := ChangeExport(w.exports, k.id, payload, change))
    case REMINDER | EMAIL => w.(mails := ChangeMail(w.mails, k.id, change))
  }

  predicate HasRecord(w: World, k: JobKey) {
    match k.queue
    case WEBHOOK => true
    case EXPORT => k.id in w.exports
    case REMINDER | EMAIL => k.id in w.mails
  }

  function ViewOf(w: World, k: JobKey): Local
    requires k in w.jobs
  {
    Local(w.jobs[k], k.id in w.processed, w.effects[k], w.lost[k],
          if k in w.deadLetters then Some(w.deadLetters[k]) else None)
  }

  function Store(w: World, k: JobKey, l: Local): World {
    w.(jobs := w.jobs[k := l.job],
       processed := if l.processed then w.processed + {k.id} else w.processed,
       effects := w.effects[k := l.effects],
       lost := w.lost[k := l.lost],
       deadLetters := if l.buried.Some? then w.deadLetters[k := l.buried.value] else w.deadLetters)
  }

  function OnWork(w: World, k: JobKey, e: WorkEvent): World {
    if k !in w.jobs then w
    else Store(ChangeRecord(w, k, w.jobs[k].data.payload, RecordStep(k.queue, w.jobs[k], e)), k,
               Attempt(k.queue, ViewOf(w, k), e, HasRecord(w, k)))
  }

  /** Old completed jobs are removed from a queue; dead ones are kept. */
  function OnEvict(w: World, k: JobKey): World {
    if k in w.jobs && w.jobs[k].stage == Done then w.(jobs := w.jobs - {k}, evicted := w.evicted + multiset{k}) else w
  }

  /** A job never loses its content, an event its mark, a job its dead letter. */
  predicate Keeps(l: Local, t: Local) {
    && t.job.data == l.job.data && t.job.attempts == l.job.attempts && t.job.attemptsMade >= l.job.attemptsMade
    && (l.processed ==> t.processed) && (l.buried.Some? ==> t.buried == l.buried)
  }

  lemma AttemptKeeps(queue: QueueName, l: Local, e: WorkEvent, hasRecord: bool)
    ensures Keeps(l, Attempt(queue, l, e, hasRecord))
  {
  }

  lemma StoreViews(w: World, k: JobKey, l: Local)
    requires k in w.jobs && Keeps(ViewOf(w, k), l)
    ensures ViewOf(Store(w, k, l), k) == l
  {
  }

  lemma StoreElsewhere(w: World, k: JobKey, l: Local, j: JobKey)
    requires k in w.jobs && j.id != k.id
    ensures var t := Store(w, k, l);
            && (j in t.jobs <==> j in w.jobs) && (j in w.jobs ==> ViewOf(t, j) == ViewOf(w, j))
            && (j.id in t.processed <==> j.id in w.processed) && t.effects[j] == w.effects[j] && t.lost[j] == w.lost[j]
  {
  }

  lemma RecordsApart(w: World, k: JobKey, payload: Payload, change: RecordChange)
    ensures var t := ChangeRecord(w, k, payload, change);
            t == w.(exports := t.exports, mails := t.mails)
  {
  }

  /** A worker leaves events, dispatchers and producers alone, and of the queues it
      changes its own job only. */
  lemma WorkFrame(w: World, k: JobKey, e: WorkEvent)
    requires k in w.jobs
    ensures var t := OnWork(w, k, e);
            && t.events == w.events && t.dispatchers == w.dispatchers && t.claims == w.claims && t.added == w.added
            && t.ids == w.ids && t.producers == w.producers && t.reminded == w.reminded
            && k in t.jobs && t.jobs == w.jobs[k := t.jobs[k]] && t.jobs[k].data == w.jobs[k].data
  {
    RecordsApart(w, k, w.jobs[k].data.payload, RecordStep(k.queue, w.jobs[k], e));
    AttemptKeeps(k.queue, ViewOf(w, k), e, HasRecord(w, k));
  }

  /** The worker of a job sees its own step exactly. */
  lemma WorkIsLocal(w: World, k: JobKey, e: WorkEvent)
    requires k in w.jobs
    ensures k in OnWork(w, k, e).jobs
    ensures ViewOf(OnWork(w, k, e), k) == Attempt(k.queue, ViewOf(w, k), e, HasRecord(w, k))
  {
    var change := RecordStep(k.queue, w.jobs[k], e);
    RecordsApart(w, k, w.jobs[k].data.payload, change);
    AttemptKeeps(k.queue, ViewOf(w, k), e, HasRecord(w, k));
    StoreViews(ChangeRecord(w, k, w.jobs[k].data.payload, change), k, Attempt(k.queue, ViewOf(w, k), e, HasRecord(w, k)));
  }

  /** No other event's jobs see anything of it. */
  lemma WorkElsewhere(w: World, k: JobKey, e: WorkEvent, j: JobKey)
    requires k in w.jobs && j.id != k.id
    ensures var t := OnWork(w, k, e);
            && (j in t.jobs <==> j in w.jobs) && (j in w.jobs ==> ViewOf(t, j) == ViewOf(w, j))
            && (j.id in t.processed <==> j.id in w.processed) && t.effects[j] == w.effects[j] && t.lost[j] == w.lost[j]
  {
    var change := RecordStep(k.queue, w.jobs[k], e);
    RecordsApart(w, k, w.jobs[k].data.payload, change);
    StoreElsewhere(ChangeRecord(w, k, w.jobs[k].data.payload, change), k, Attempt(k.queue, ViewOf(w, k), e, HasRecord(w, k)), j);
  }

  // ------------------------------------------------ producers

  datatype ProduceEvent =
    | CreateEvent(id: nat, eventType: string, aggregateId: nat, workspaceId: Option<nat>, text: string, now: int)
    | RequestExport(exportId: nat, id: nat, workspace: nat, now: int)
    | RecordMail(p: nat, id: nat, mail: Mail)
    | EmitMail(p: nat, text: string, now: int)
    | FlagTask(p: nat)
    | StopProducer(p: nat)

  function NewEvent(eventType: string, aggregateId: nat, workspaceId: Option<nat>, payload: Payload, now: int): OutboxEvent {
    OutboxEvent(eventType, aggregateId, workspaceId, payload, PENDING, 0, now, None, None, None)
  }

  /** The event types whose workers look for a record. */
  predicate NeedsRecord(eventType: string) {
    eventType == "EMAIL_REQUESTED" || eventType == "REMINDER_DUE" || eventType == "EXPORT_REQUESTED"
  }

  function MailEventType(mail: Mail): string {
    match mail
    case ForReminder(_, _) => "REMINDER_DUE"
    case ForAccount(_) => "EMAIL_REQUESTED"
  }

  function MailAggregate(mail: Mail): nat {
    match mail
    case ForReminder(task, _) => task
    case ForAccount(user) => user
  }

  function MailWorkspace(mail: Mail): Option<nat> {
    match mail
    case ForReminder(_, workspace) => Some(workspace)
    case ForAccount(_) => None
  }

  /** A producer touches events, records, its own state and the set of used ids. */
  predicate ProduceFrame(w: World, t: World) {
    t == w.(events := t.events, mails := t.mails, exports := t.exports, producers := t.producers,
            reminded := t.reminded, ids := t.ids)
  }

  function OnCreateEvent(w: World, id: nat, eventType: string, aggregateId: nat, workspaceId: Option<nat>, text: string,
                         now: int): (t: World)
    ensures ProduceFrame(w, t)
  {
    if id in w.ids || NeedsRecord(eventType) then w
    else w.(ids := w.ids + {id},
            events := w.events[id := NewEvent(eventType, aggregateId, workspaceId, Plain(text), now)])
  }

  /** The export record and its event are stored in one transaction. */
  function OnRequestExport(w: World, exportId: nat, id: nat, workspace: nat, now: int): (t: World)
    ensures ProduceFrame(w, t)
  {
    if id in w.ids || exportId in w.ids || id == exportId then w
    else w.(ids := w.ids + {id, exportId},
            exports := w.exports[id := Export(exportId, ExportQueued, None)],
            events := w.events[id := NewEvent("EXPORT_REQUESTED", workspace, Some(workspace), ForExport(exportId), now)])
  }

  function OnRecordMail(w: World, p: nat, id: nat, mail: Mail): (t: World)
    ensures ProduceFrame(w, t)
  {
    if id in w.ids || p in w.producers then w
    else w.(ids := w.ids + {id}, mails := w.mails[id := MailQueued], producers := w.producers[p := Recorded(id, mail)])
  }

  function OnEmitMail(w: World, p: nat, text: string, now: int): (t: World)
    ensures ProduceFrame(w, t)
  {
    if p in w.producers && w.producers[p].Recorded? then
      var Recorded(id, mail) := w.producers[p];
      w.(events := w.events[id := NewEvent(MailEventType(mail), MailAggregate(mail), MailWorkspace(mail), Plain(text), now)],
         producers := if mail.ForReminder? then w.producers[p := Emitted(mail.task)] else w.producers - {p})
    else w
  }

  function OnFlagTask(w: World, p: nat): (t: World)
    ensures ProduceFrame(w, t)
  {
    if p in w.producers && w.producers[p].Emitted? then
      w.(reminded := w.reminded + {w.producers[p].task}, producers := w.producers - {p})
    else w
  }

  function OnProduce(w: World, e: ProduceEvent): (t: World)
    ensures ProduceFrame(w, t)
  {
    match e
    case CreateEvent(id, eventType, aggregateId, workspaceId, text, now) =>
      OnCreateEvent(w, id, eventType, aggregateId, workspaceId, text, now)
    case RequestExport(exportId, id, workspace, now) => OnRequestExport(w, exportId, id, workspace, now)
    case RecordMail(p, id, mail) => OnRecordMail(w, p, id, mail)
    case EmitMail(p, text, now) => OnEmitMail(w, p, text, now)
    case FlagTask(p) => OnFlagTask(w, p)
    case StopProducer(p) => w.(producers := w.producers - {p})
  }

  // ------------------------------------------------ runs

  datatype Event =
    | Dispatching(d: nat, dispatch: DispatchEvent)
    | WorkingOn(k: JobKey, work: WorkEvent)
    | Evicting(k: JobKey)
    | Producing(produce: ProduceEvent)

  ghost function Step(w: World, e: Event): World {
    match e
    case Dispatching(d, dispatch) => OnDispatch(w, d, dispatch)
    case WorkingOn(k, work) => OnWork(w, k, work)
    case Evicting(k) => OnEvict(w, k)
    case Producing(produce) => OnProduce(w, produce)
  }

  ghost function Run(w: World, events: seq<Event>): World {
    if events == [] then w else Step(Run(w, events[..|events| - 1]), events[|events| - 1])
  }

  ghost predicate Reachable(w: World) {
    exists events :: w == Run(INIT, events)
  }
}
