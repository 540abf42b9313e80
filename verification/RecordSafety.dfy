/** Every event a worker needs a record for has one, from the moment it is stored. */
module RecordSafety {
  import opened Common
  import opened Outbox
  import opened Pipeline
  import opened DispatchSafety

  // ------------------------------------------------ invariant

  predicate MailType(eventType: string) { eventType == "EMAIL_REQUESTED" || eventType == "REMINDER_DUE" }

  predicate ExportType(eventType: string) { eventType == "EXPORT_REQUESTED" }

  predicate EventRecorded(e: OutboxEvent, id: nat, mails: map<nat, MailStatus>, exports: map<nat, Export>) {
    && (MailType(e.eventType) ==> id in mails)
    && (ExportType(e.eventType) ==> id in exports && e.payload == ForExport(exports[id].exportId))
  }

  ghost predicate EventsRecorded(events: Events, mails: map<nat, MailStatus>, exports: map<nat, Export>) {
    forall id :: id in events ==> EventRecorded(events[id], id, mails, exports)
  }

  ghost predicate ProducersRecorded(producers: map<nat, Producer>, mails: map<nat, MailStatus>) {
    forall p :: p in producers && producers[p].Recorded? ==> producers[p].id in mails
  }

  ghost predicate ExportsDistinct(exports: map<nat, Export>, ids: set<nat>) {
    && exports.Keys <= ids
    && (forall i :: i in exports ==> exports[i].exportId in ids)
    && (forall i, j :: i in exports && j in exports && exports[i].exportId == exports[j].exportId ==> i == j)
  }

  ghost predicate Announces(events: Events, id: nat, task: nat) {
    id in events && events[id].eventType == "REMINDER_DUE" && events[id].aggregateId == task
  }

  ghost predicate Announced(events: Events, task: nat) {
    exists id :: Announces(events, id, task)
  }

  ghost predicate RemindersAnnounced(events: Events, producers: map<nat, Producer>, reminded: set<nat>) {
    && (forall task :: task in reminded ==> Announced(events, task))
    && (forall p :: p in producers && producers[p].Emitted? ==> Announced(events, producers[p].task))
  }

  ghost predicate RecordsInv(w: World) {
    && EventsRecorded(w.events, w.mails, w.exports)
    && ProducersRecorded(w.producers, w.mails)
    && ExportsDistinct(w.exports, w.ids)
    && RemindersAnnounced(w.events, w.producers, w.reminded)
  }

  // ------------------------------------------------ steps

  /** Records are neither removed nor exchanged. */
  ghost predicate SameRecords(w: World, t: World) {
    && t.mails.Keys == w.mails.Keys && t.exports.Keys == w.exports.Keys
    && (forall i :: i in w.exports ==> t.exports[i].exportId == w.exports[i].exportId)
  }

  lemma WorkKeepsRecords(w: World, k: JobKey, e: WorkEvent)
    ensures SameRecords(w, OnWork(w, k, e))
  {
    if k in w.jobs {
      ChangeKeepsRecords(w, k, w.jobs[k].data.payload, RecordStep(k.queue, w.jobs[k], e));
    }
  }

  lemma MailKeepsRecords(mails: map<nat, MailStatus>, id: nat, change: RecordChange)
    ensures ChangeMail(mails, id, change).Keys == mails.Keys
  {
  }

  lemma ExportKeepsRecords(exports: map<nat, Export>, id: nat, payload: Payload, change: RecordChange)
    ensures ChangeExport(exports, id, payload, change).Keys == exports.Keys
    ensures forall i :: i in exports ==> ChangeExport(exports, id, payload, change)[i].exportId == exports[i].exportId
  {
  }

  lemma ChangeKeepsRecords(w: World, k: JobKey, payload: Payload, change: RecordChange)
    ensures SameRecords(w, ChangeRecord(w, k, payload, change))
  {
    MailKeepsRecords(w.mails, k.id, change);
    ExportKeepsRecords(w.exports, k.id, payload, change);
  }

  lemma AnnouncedStays(before: Events, after: Events, task: nat)
    requires Evolves(before, after) && Announced(before, task)
    ensures Announced(after, task)
  {
    var id :| Announces(before, id, task);
    assert Announces(after, id, task);
  }

  lemma RemindersFollow(w: World, t: World)
    requires RemindersAnnounced(w.events, w.producers, w.reminded) && Evolves(w.events, t.events)
    ensures RemindersAnnounced(t.events, w.producers, w.reminded)
  {
    forall task | Announced(w.events, task) ensures Announced(t.events, task) {
      AnnouncedStays(w.events, t.events, task);
    }
  }

  /** A step that keeps the records, the ids and the producers, and stores no event. */
  lemma StillRecorded(w: World, t: World)
    requires RecordsInv(w) && SameRecords(w, t) && Evolves(w.events, t.events) && t.events.Keys == w.events.Keys
    requires t.ids == w.ids && t.producers == w.producers && t.reminded == w.reminded
    ensures RecordsInv(t)
  {
    RemindersFollow(w, t);
    forall id | id in t.events ensures EventRecorded(t.events[id], id, t.mails, t.exports) {
      assert SameContent(w.events[id], t.events[id]) && EventRecorded(w.events[id], id, w.mails, w.exports);
    }
  }

  lemma CreateKeepsRecords(w: World, id: nat, eventType: string, aggregateId: nat, workspaceId: Option<nat>, text: string, now: int)
    requires RecordsInv(w) && IdsKnown(w.events, w.ids, w.producers)
    ensures RecordsInv(OnCreateEvent(w, id, eventType, aggregateId, workspaceId, text, now))
  {
    var t := OnCreateEvent(w, id, eventType, aggregateId, workspaceId, text, now);
    if t != w {
      assert Evolves(w.events, t.events);
      RemindersFollow(w, t);
      assert !MailType(eventType) && !ExportType(eventType);
    }
  }

  lemma RequestKeepsRecords(w: World, exportId: nat, id: nat, workspace: nat, now: int)
    requires RecordsInv(w) && IdsKnown(w.events, w.ids, w.producers)
    ensures RecordsInv(OnRequestExport(w, exportId, id, workspace, now))
  {
    var t := OnRequestExport(w, exportId, id, workspace, now);
    if t != w {
      assert Evolves(w.events, t.events);
      RemindersFollow(w, t);
      assert !MailType(t.events[id].eventType);
      forall i | i in t.events && i != id ensures EventRecorded(t.events[i], i, t.mails, t.exports) {
        assert EventRecorded(w.events[i], i, w.mails, w.exports);
      }
    }
  }

  lemma RecordMailKeepsRecords(w: World, p: nat, id: nat, mail: Mail)
    requires RecordsInv(w)
    ensures RecordsInv(OnRecordMail(w, p, id, mail))
  {
    var t := OnRecordMail(w, p, id, mail);
    forall i | i in t.events ensures EventRecorded(t.events[i], i, t.mails, t.exports) {
      assert EventRecorded(w.events[i], i, w.mails, w.exports);
    }
  }

  lemma EmitKeepsRecords(w: World, p: nat, text: string, now: int)
    requires RecordsInv(w) && IdsKnown(w.events, w.ids, w.producers)
    ensures RecordsInv(OnEmitMail(w, p, text, now))
  {
    if p in w.producers && w.producers[p].Recorded? {
      var t := OnEmitMail(w, p, text, now);
      var Recorded(id, mail) := w.producers[p];
      assert Evolves(w.events, t.events);
      RemindersFollow(w, t);
      assert !ExportType(MailEventType(mail));
      if mail.ForReminder? {
        assert Announces(t.events, id, mail.task);
      }
      forall i | i in t.events ensures EventRecorded(t.events[i], i, t.mails, t.exports) {
        if i != id { assert EventRecorded(w.events[i], i, w.mails, w.exports); }
      }
    }
  }

  lemma ProduceKeepsRecords(w: World, e: ProduceEvent)
    requires RecordsInv(w) && IdsKnown(w.events, w.ids, w.producers)
    ensures RecordsInv(OnProduce(w, e))
  {
    match e
    case CreateEvent(id, eventType, aggregateId, workspaceId, text, now) =>
      CreateKeepsRecords(w, id, eventType, aggregateId, workspaceId, text, now);
    case RequestExport(exportId, id, workspace, now) => RequestKeepsRecords(w, exportId, id, workspace, now);
    case RecordMail(p, id, mail) => RecordMailKeepsRecords(w, p, id, mail);
    case EmitMail(p, text, now) => EmitKeepsRecords(w, p, text, now);
    case FlagTask(p) =>
    case StopProducer(p) =>
  }

  lemma DispatchKeepsRecords(w: World, d: nat, e: DispatchEvent)
    requires Inv(w) && RecordsInv(w)
    ensures RecordsInv(OnDispatch(w, d, e))
  {
    DispatchUpdates(w, d, e);
    StillRecorded(w, OnDispatch(w, d, e));
  }

  lemma WorkKeepsRecordsInv(w: World, k: JobKey, e: WorkEvent)
    requires RecordsInv(w)
    ensures RecordsInv(OnWork(w, k, e))
  {
    if k in w.jobs {
      WorkKeepsRecords(w, k, e);
      WorkFrame(w, k, e);
      StillRecorded(w, OnWork(w, k, e));
    }
  }

  lemma EvictKeepsRecords(w: World, k: JobKey)
    requires RecordsInv(w)
    ensures RecordsInv(OnEvict(w, k))
  {
    StillRecorded(w, OnEvict(w, k));
  }

  lemma StepKeepsRecords(w: World, e: Event)
    requires Inv(w) && RecordsInv(w)
    ensures RecordsInv(Step(w, e))
  {
    match e
    case Dispatching(d, x) => DispatchKeepsRecords(w, d, x);
    case WorkingOn(k, x) => WorkKeepsRecordsInv(w, k, x);
    case Evicting(k) => EvictKeepsRecords(w, k);
    case Producing(x) => ProduceKeepsRecords(w, x);
  }

  lemma {:induction false} RunKeepsRecords(events: seq<Event>)
    ensures Inv(Run(INIT, events)) && RecordsInv(Run(INIT, events))
  {
    if events != [] {
      RunKeepsRecords(events[..|events| - 1]);
      StepKeepsInv(Run(INIT, events[..|events| - 1]), events[|events| - 1]);
      StepKeepsRecords(Run(INIT, events[..|events| - 1]), events[|events| - 1]);
    }
  }

  lemma ReachableRecords(w: World)
    requires Reachable(w)
    ensures Inv(w) && RecordsInv(w)
  {
    var events :| w == Run(INIT, events);
    RunKeepsRecords(events);
  }

  // ------------------------------------------------ main results

  /** In every interleaving of producers, dispatchers and workers, stopped anywhere:
      an event that asks for a mail has its delivery record, one that asks for an
      export has the export its payload names. */
  lemma RecordBeforeEvent(w: World, id: nat)
    requires Reachable(w) && id in w.events
    ensures w.events[id].eventType == "EMAIL_REQUESTED" || w.events[id].eventType == "REMINDER_DUE" ==> id in w.mails
    ensures w.events[id].eventType == "EXPORT_REQUESTED" ==>
              id in w.exports && w.events[id].payload == ForExport(w.exports[id].exportId)
  {
    ReachableRecords(w);
    assert EventRecorded(w.events[id], id, w.mails, w.exports);
  }

  /** The reminder flag of a task is set only when its event exists. */
  lemma FlaggedTasksHaveEvents(w: World, task: nat)
    requires Reachable(w) && task in w.reminded
    ensures exists id :: id in w.events && w.events[id].eventType == "REMINDER_DUE" && w.events[id].aggregateId == task
  {
    ReachableRecords(w);
    var id :| Announces(w.events, id, task);
    assert id in w.events;
  }

  /** No job meets "record not found" or "unsupported event type". */
  lemma JobsHaveRecords(w: World, k: JobKey)
    requires Reachable(w) && k in w.jobs
    ensures HasRecord(w, k)
    ensures k.queue == EXPORT ==>
              w.jobs[k].data.eventType == "EXPORT_REQUESTED" && w.jobs[k].data.payload == ForExport(w.exports[k.id].exportId)
    ensures k.queue == REMINDER ==> w.jobs[k].data.eventType == "REMINDER_DUE"
    ensures k.queue == EMAIL ==> w.jobs[k].data.eventType == "EMAIL_REQUESTED"
  {
    JobsCarryTheirEvents(w, k);
    RecordBeforeEvent(w, k.id);
  }

  /** Failing an export by the id in a job's payload touches the record of that job only. */
  lemma ExportIdNamesOneRecord(w: World, i: nat, j: nat)
    requires Reachable(w) && i in w.exports && j in w.exports && w.exports[i].exportId == w.exports[j].exportId
    ensures i == j
  {
    ReachableRecords(w);
  }
}
