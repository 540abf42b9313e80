/** Which file an export's record names. */
module ExportFiles {
  import opened Common
  import opened Outbox
  import opened Pipeline
  import opened DispatchSafety
  import opened EffectSafety
  import opened RecordSafety
  import opened RetryOutcome

  /** The worker of the export's job stores a file with the record. */
  ghost predicate Stores(w: World, id: nat, e: Event) {
    && e.WorkingOn? && e.k == JobKey(EXPORT, id) && e.k in w.jobs && w.jobs[e.k].stage == Active(Settling)
    && e.work.SettleRecord? && e.work.outcome != LostBefore
  }

  /** The file last stored in a run. */
  ghost function LastStored(es: seq<Event>, id: nat): Option<string> {
    if es == [] then None
    else
      var before, e := es[..|es| - 1], es[|es| - 1];
      if Stores(Run(INIT, before), id, e) then Some(e.work.file) else LastStored(before, id)
  }

  ghost predicate Names(w: World, id: nat, file: Option<string>) {
    if id in w.exports then w.exports[id].file == file && (w.exports[id].status == Exported ==> file.Some?)
    else file == None
  }

  lemma WorkExports(w: World, k: JobKey, e: WorkEvent)
    requires k in w.jobs
    ensures OnWork(w, k, e).exports
              == if k.queue == EXPORT then ChangeExport(w.exports, k.id, w.jobs[k].data.payload, RecordStep(EXPORT, w.jobs[k], e))
                 else w.exports
  {
    RecordsApart(w, k, w.jobs[k].data.payload, RecordStep(k.queue, w.jobs[k], e));
  }

  lemma WorkNames(w: World, k: JobKey, e: WorkEvent, id: nat, file: Option<string>)
    requires k in w.jobs && JobSound(w, k) && Names(w, id, file)
    ensures Names(OnWork(w, k, e), id, if Stores(w, id, WorkingOn(k, e)) then Some(e.file) else file)
  {
    WorkExports(w, k, e);
    if k.queue == EXPORT {
      var change := RecordStep(EXPORT, w.jobs[k], e);
      ChangeNames(w.exports, k.id, w.jobs[k].data.payload, change, id);
      SettlesIff(w, k, e);
    }
  }

  lemma SettlesIff(w: World, k: JobKey, e: WorkEvent)
    requires k in w.jobs && k.queue == EXPORT
    ensures var change := RecordStep(EXPORT, w.jobs[k], e);
            && (change.Settled? <==> Stores(w, k.id, WorkingOn(k, e))) && (change.Settled? ==> change.file == e.file)
    ensures forall id :: Stores(w, id, WorkingOn(k, e)) ==> id == k.id
  {
  }

  lemma ChangeNames(exports: map<nat, Export>, k: nat, payload: Payload, change: RecordChange, id: nat)
    requires k in exports
    ensures var t := ChangeExport(exports, k, payload, change);
            && (id in t <==> id in exports)
            && (id in exports && id == k && change.Settled? ==> t[id].file == Some(change.file) && t[id].status == Exported)
            && (id in exports && !(id == k && change.Settled?) ==>
                  t[id].file == exports[id].file && (t[id].status == Exported ==> exports[id].status == Exported))
  {
  }

  lemma ProduceNames(w: World, e: ProduceEvent, id: nat, file: Option<string>)
    requires w.exports.Keys <= w.ids && Names(w, id, file)
    ensures Names(OnProduce(w, e), id, file)
  {
  }

  lemma DispatchNames(w: World, d: nat, e: DispatchEvent, id: nat, file: Option<string>)
    requires Names(w, id, file)
    ensures Names(OnDispatch(w, d, e), id, file)
  {
    assert OnDispatch(w, d, e).exports == w.exports;
  }

  lemma StepNames(w: World, e: Event, id: nat, file: Option<string>)
    requires Inv(w) && RecordsInv(w) && Names(w, id, file)
    ensures Names(Step(w, e), id, if Stores(w, id, e) then Some(e.work.file) else file)
  {
    match e
    case Dispatching(d, x) => DispatchNames(w, d, x, id, file);
    case WorkingOn(k, x) =>
      if k in w.jobs {
        JobIsSound(w, k);
        WorkNames(w, k, x, id, file);
      }
    case Evicting(k) =>
    case Producing(x) => ProduceNames(w, x, id, file);
  }

  lemma {:induction false} RunNames(es: seq<Event>, id: nat)
    ensures Names(Run(INIT, es), id, LastStored(es, id))
  {
    if es != [] {
      var before := es[..|es| - 1];
      RunNames(before, id);
      RunKeepsRecords(before);
      StepNames(Run(INIT, before), es[|es| - 1], id, LastStored(before, id));
    }
  }

  /** In every run, over retries, crashes and removals: a record names the file that its
      own job stored last, and a COMPLETED one names a file. */
  lemma RecordNamesItsFile(es: seq<Event>, id: nat)
    requires id in Run(INIT, es).exports
    ensures Run(INIT, es).exports[id].file == LastStored(es, id)
    ensures Run(INIT, es).exports[id].status == Exported ==> LastStored(es, id).Some?
  {
    RunNames(es, id);
  }
}
