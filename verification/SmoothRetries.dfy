/** A condition on the calls of a job alone under which its retries end by the rule. */
module SmoothRetries {
  import opened Common
  import opened Outbox
  import opened Pipeline
  import opened DispatchSafety
  import opened EffectSafety
  import opened RecordSafety
  import opened RetryOutcome
  import opened RetryCauses

  // ------------------------------------------------ smooth runs

  /** The check for processed events, the search for a record and the update in the
      catch block work, a mark that takes effect is not reported as failed, the letter
      is written, and the queue does not give the job up. The rest may fail. */
  predicate Smooth(queue: QueueName, e: WorkEvent) {
    match e
    case CheckProcessed(works) => works
    case FindRecord(works) => works || queue == EXPORT
    case MarkProcessed(outcome) => outcome != LostAfter
    case HandleError(outcome) => outcome == Applied || queue == WEBHOOK
    case Bury(outcome) => outcome != LostBefore
    case Crash(gone) => !gone
    case _ => true
  }

  predicate Buries(e: Event, k: JobKey) { e.WorkingOn? && e.k == k && e.work.Bury? }

  ghost predicate BuryCalled(es: seq<Event>, k: JobKey) { exists i :: 0 <= i < |es| && Buries(es[i], k) }

  /** All calls of the job are smooth, and its worker does not stop once a letter was
      to be written. */
  ghost predicate SmoothRun(es: seq<Event>, k: JobKey) {
    forall i :: 0 <= i < |es| ==> SmoothEvent(es[i], k, BuryCalled(es[..i], k))
  }

  predicate SmoothEvent(e: Event, k: JobKey, called: bool) {
    e.WorkingOn? && e.k == k ==> Smooth(k.queue, e.work) && (e.work.Crash? ==> !called)
  }

  // ------------------------------------------------ one job

  /** A processed job does nothing more than be found processed, a job with a letter
      is at its end. */
  predicate Tidy(queue: QueueName, l: Local) {
    && (l.processed ==> l.job.stage in {Waiting, Active(Checking), Active(Returning), Done})
    && (l.buried.Some? ==> l.job.stage == Dead || (l.job.stage == Active(Throwing) && Final(l.job)))
    && (queue == WEBHOOK && (l.processed || l.job.stage in {Active(Checking), Active(Working), Active(Marking)})
        ==> l.job.data.workspaceId.Some?)
  }

  lemma SmoothCall(queue: QueueName, l: Local, s: RecordState, e: WorkEvent, hasRecord: bool)
    requires Steady(queue, l, s) && FlagExact(queue, l, s, false) && Tidy(queue, l) && (queue != WEBHOOK ==> hasRecord)
    requires queue == EXPORT ==> l.job.data.payload.ForExport?
    requires Smooth(queue, e) && (e.Crash? ==> l.buried.None?)
    ensures var t := Attempt(queue, l, e, hasRecord);
            && Tidy(queue, t) && !FlawAfter(queue, l, s, e, hasRecord, false)
            && (t.buried.Some? ==> l.buried.Some? || e.Bury?)
  {
    SmoothIsTidy(queue, l, s, e, hasRecord);
    SmoothBreaksNothing(queue, l, s, e, hasRecord);
  }

  lemma SmoothIsTidy(queue: QueueName, l: Local, s: RecordState, e: WorkEvent, hasRecord: bool)
    requires Steady(queue, l, s) && Tidy(queue, l) && Smooth(queue, e) && (e.Crash? ==> l.buried.None?)
    requires queue == EXPORT ==> l.job.data.payload.ForExport?
    ensures var t := Attempt(queue, l, e, hasRecord);
            Tidy(queue, t) && (t.buried.Some? ==> l.buried.Some? || e.Bury?)
  {
  }

  lemma SmoothBreaksNothing(queue: QueueName, l: Local, s: RecordState, e: WorkEvent, hasRecord: bool)
    requires Steady(queue, l, s) && FlagExact(queue, l, s, false) && Tidy(queue, l) && (queue != WEBHOOK ==> hasRecord)
    requires queue == EXPORT ==> l.job.data.payload.ForExport?
    requires Smooth(queue, e) && (e.Crash? ==> l.buried.None?)
    ensures !FlawAfter(queue, l, s, e, hasRecord, false)
  {
    if e.Crash? && l.job.stage.Active? { StopBreaksNothing(queue, l, s); }
  }

  // ------------------------------------------------ all jobs, all runs

  /** Jobs with a letter are kept, and what is processed of webhooks has a workspace. */
  ghost predicate TidyIn(w: World, k: JobKey, called: bool) {
    && (k in w.jobs ==> Tidy(k.queue, ViewOf(w, k)))
    && (k in w.deadLetters ==> k in w.jobs && called)
    && (k.queue == WEBHOOK && k.id in w.processed ==> k.id in w.events && w.events[k.id].workspaceId.Some?)
  }

  lemma OwnCallTidy(w: World, k: JobKey, e: WorkEvent, called: bool)
    requires Inv(w) && RecordsInv(w) && k in w.jobs && Orderly(w, k, false) && TidyIn(w, k, called)
    requires SmoothEvent(WorkingOn(k, e), k, called)
    ensures TidyIn(OnWork(w, k, e), k, called || e.Bury?) && !FlawStep(w, WorkingOn(k, e), k, false)
  {
    JobIsSound(w, k);
    assert k.queue != WEBHOOK ==> HasRecord(w, k) by { assert EventRecorded(w.events[k.id], k.id, w.mails, w.exports); }
    SmoothCall(k.queue, ViewOf(w, k), StateOf(w, k), e, HasRecord(w, k));
    WorkIsLocal(w, k, e);
    WorkFrame(w, k, e);
  }

  lemma OtherCallTidy(w: World, k: JobKey, e: WorkEvent, j: JobKey, called: bool)
    requires Inv(w) && k in w.jobs && Routed(w.events, j) && j != k && TidyIn(w, j, called)
    ensures TidyIn(OnWork(w, k, e), j, called)
  {
    assert Routed(w.events, k);
    WorkElsewhere(w, k, e, j);
    WorkFrame(w, k, e);
    LettersAfter(w, k, e);
  }

  lemma QuietTidy(w: World, t: World, k: JobKey, called: bool)
    requires Inv(t) && Quiet(w, t) && Evolves(w.events, t.events) && TidyIn(w, k, called)
    ensures TidyIn(t, k, called)
  {
  }

  lemma EvictTidy(w: World, j: JobKey, k: JobKey, called: bool)
    requires Orderly(w, k, false) && TidyIn(w, k, called)
    ensures TidyIn(OnEvict(w, j), k, called) && !FlawStep(w, Evicting(j), k, false)
  {
  }

  lemma StepTidy(w: World, e: Event, k: JobKey, called: bool)
    requires Inv(w) && Inv(Step(w, e)) && RecordsInv(w) && Routed(w.events, k)
    requires Orderly(w, k, false) && TidyIn(w, k, called) && SmoothEvent(e, k, called)
    ensures TidyIn(Step(w, e), k, called || Buries(e, k)) && !FlawStep(w, e, k, false)
  {
    StepEvolves(w, e);
    match e
    case Dispatching(d, x) =>
      DispatchIsQuiet(w, d, x);
      QuietTidy(w, OnDispatch(w, d, x), k, called);
    case Producing(x) =>
      ProduceIsQuiet(w, x);
      QuietTidy(w, OnProduce(w, x), k, called);
    case Evicting(j) => EvictTidy(w, j, k, called);
    case WorkingOn(j, x) =>
      if j in w.jobs {
        if j == k { OwnCallTidy(w, k, x, called); } else { OtherCallTidy(w, j, x, k, called); }
      }
  }

  lemma BuriesGrow(es: seq<Event>, k: JobKey)
    requires es != []
    ensures BuryCalled(es, k) <==> BuryCalled(es[..|es| - 1], k) || Buries(es[|es| - 1], k)
  {
    if BuryCalled(es[..|es| - 1], k) {
      var i :| 0 <= i < |es| - 1 && Buries(es[..|es| - 1][i], k);
      assert Buries(es[i], k);
    }
    if i :| 0 <= i < |es| && Buries(es[i], k) {
      assert i < |es| - 1 ==> Buries(es[..|es| - 1][i], k);
    }
  }

  lemma SmoothBefore(es: seq<Event>, k: JobKey)
    requires es != [] && SmoothRun(es, k)
    ensures SmoothRun(es[..|es| - 1], k) && SmoothEvent(es[|es| - 1], k, BuryCalled(es[..|es| - 1], k))
  {
    var before := es[..|es| - 1];
    forall i | 0 <= i < |before| ensures SmoothEvent(before[i], k, BuryCalled(before[..i], k)) {
      assert before[..i] == es[..i] && SmoothEvent(es[i], k, BuryCalled(es[..i], k));
    }
  }

  /** The step that stores the event finds nothing of it. */
  lemma FirstTidy(w: World, e: Event, k: JobKey, called: bool)
    requires Inv(w) && EffectsInv(w) && NoOrphans(w) && k.id !in w.events && Routed(Step(w, e).events, k)
    ensures TidyIn(Step(w, e), k, called)
  {
    if !e.Producing? { OnlyProducersStore(w, e); }
    ProduceIsQuiet(w, e.produce);
    assert k !in w.jobs && OnProduce(w, e.produce).jobs == w.jobs;
  }

  lemma {:induction false} SmoothRunIsTidy(es: seq<Event>, k: JobKey)
    requires Routed(Run(INIT, es).events, k) && SmoothRun(es, k)
    ensures TidyIn(Run(INIT, es), k, BuryCalled(es, k)) && !Flawed(es, k)
  {
    var before, e := es[..|es| - 1], es[|es| - 1];
    var w := Run(INIT, before);
    RunKeepsRecords(before);
    RunKeepsRecords(es);
    if k.id in w.events {
      RoutedBefore(w, e, k);
      SmoothBefore(es, k);
      SmoothRunIsTidy(before, k);
      RunKeepsOrderly(before, k);
      StepTidy(w, e, k, BuryCalled(before, k));
      BuriesGrow(es, k);
    } else {
      RunKeepsEffects(before);
      RunKeepsNoOrphans(before);
      FirstTidy(w, e, k, BuryCalled(es, k));
      NotFlawedBefore(before, k);
    }
  }

  /** Whatever all other calls do, however often the worker stops, and whatever else
      goes on: a job whose calls are smooth ends by the rule. */
  lemma SmoothRunsEndByTheRule(es: seq<Event>, k: JobKey)
    requires SmoothRun(es, k)
    requires k in Run(INIT, es).jobs && (Run(INIT, es).jobs[k].stage == Done || Run(INIT, es).jobs[k].stage == Dead)
    ensures EndsByTheRule(Run(INIT, es), k)
  {
    RunKeepsInv(es);
    assert Routed(Run(INIT, es).events, k);
    SmoothRunIsTidy(es, k);
    RetriesEndOneWay(es, k);
  }
}
