/** Which calls make a job end against the rule of retries, and which undo that. */
module RetryCauses {
  import opened Common
  import opened Outbox
  import opened Pipeline
  import opened DispatchSafety
  import opened EffectSafety
  import opened RecordSafety
  import opened RetryOutcome

  // ------------------------------------------------ one job

  lemma StopBreaksNothing(queue: QueueName, l: Local, s: RecordState)
    requires Steady(queue, l, s) && FlagExact(queue, l, s, false) && l.job.stage.Active?
    ensures !Contradicted(l, s)
  {
  }

  lemma OneOfFive(queue: QueueName, l: Local, s: RecordState, e: WorkEvent, hasRecord: bool, flawed: bool, cause: Cause)
    requires Breaks(cause, queue, l, s, e, hasRecord)
    ensures FlawAfter(queue, l, s, e, hasRecord, flawed)
  {
  }

  /** From a state where nothing is wrong, exactly the five calls break the rule. */
  lemma ExactlyTheseBreak(queue: QueueName, l: Local, s: RecordState, e: WorkEvent, hasRecord: bool)
    requires Steady(queue, l, s) && FlagExact(queue, l, s, false)
    ensures FlawAfter(queue, l, s, e, hasRecord, false) <==> exists cause :: Breaks(cause, queue, l, s, e, hasRecord)
  {
    if cause :| Breaks(cause, queue, l, s, e, hasRecord) {
      OneOfFive(queue, l, s, e, hasRecord, false, cause);
    } else if l.job.stage.Active? {
      StopBreaksNothing(queue, l, s);
    }
  }

  predicate Stops(l: Local, e: WorkEvent) { e == Crash(false) && l.job.stage.Active? }

  /** What is broken stays so, unless the worker stops and nothing contradictory is
      left: then the attempt is repeated. */
  lemma BrokenStays(queue: QueueName, l: Local, s: RecordState, e: WorkEvent, hasRecord: bool)
    requires Steady(queue, l, s) && FlagExact(queue, l, s, true)
    ensures FlawAfter(queue, l, s, e, hasRecord, true) <==> !(Stops(l, e) && !Contradicted(l, s))
  {
  }

  // ------------------------------------------------ all jobs, all runs

  /** The worker's call on a job is, in this state, the one the cause names. */
  ghost predicate BreaksIn(cause: Cause, w: World, k: JobKey, e: WorkEvent) {
    k in w.jobs && Breaks(cause, k.queue, ViewOf(w, k), StateOf(w, k), e, HasRecord(w, k))
  }

  lemma SameCauses(w: World, k: JobKey, e: WorkEvent)
    requires k in w.jobs
    ensures (exists cause :: BreaksIn(cause, w, k, e))
              <==> exists cause :: Breaks(cause, k.queue, ViewOf(w, k), StateOf(w, k), e, HasRecord(w, k))
  {
    if cause :| Breaks(cause, k.queue, ViewOf(w, k), StateOf(w, k), e, HasRecord(w, k)) {
      assert BreaksIn(cause, w, k, e);
    }
  }

  /** A stop after which the job's attempt is repeated, or the removal of the finished
      job, with nothing contradictory left: the event is not processed, or has neither
      letter nor failed record. */
  ghost predicate Repairs(w: World, k: JobKey, e: Event) {
    && k in w.jobs && !Contradicted(ViewOf(w, k), StateOf(w, k))
    && ((e == WorkingOn(k, Crash(false)) && w.jobs[k].stage.Active?) || (e == Evicting(k) && w.jobs[k].stage == Done))
  }

  lemma OwnCallFlag(w: World, k: JobKey, e: WorkEvent, flawed: bool)
    requires k in w.jobs && Orderly(w, k, flawed)
    ensures FlawStep(w, WorkingOn(k, e), k, flawed) <==>
              (exists cause :: BreaksIn(cause, w, k, e)) || (flawed && !Repairs(w, k, WorkingOn(k, e)))
  {
    var l, s, r := ViewOf(w, k), StateOf(w, k), HasRecord(w, k);
    SameCauses(w, k, e);
    if flawed {
      BrokenStays(k.queue, l, s, e, r);
      if cause :| Breaks(cause, k.queue, l, s, e, r) { OneOfFive(k.queue, l, s, e, r, true, cause); }
    } else {
      ExactlyTheseBreak(k.queue, l, s, e, r);
    }
  }

  lemma OtherStepFlag(w: World, k: JobKey, e: Event, flawed: bool)
    requires k in w.jobs && Orderly(w, k, flawed) && !(e.WorkingOn? && e.k == k)
    ensures FlawStep(w, e, k, flawed) <==> flawed && !Repairs(w, k, e)
  {
  }

  ghost predicate BreaksNow(w: World, k: JobKey, e: Event) {
    e.WorkingOn? && e.k == k && exists cause :: BreaksIn(cause, w, k, e.work)
  }

  ghost predicate BreaksAt(es: seq<Event>, k: JobKey, i: nat)
    requires i < |es|
  {
    BreaksNow(Run(INIT, es[..i]), k, es[i])
  }

  ghost predicate RepairsAt(es: seq<Event>, k: JobKey, i: nat)
    requires i < |es|
  {
    Repairs(Run(INIT, es[..i]), k, es[i])
  }

  /** No step after the i-th repairs. */
  ghost predicate NoRepairs(es: seq<Event>, k: JobKey, i: nat) {
    |es| > i + 1 ==> !RepairsAt(es, k, |es| - 1) && NoRepairs(es[..|es| - 1], k, i)
  }

  /** The i-th step breaks the rule, and none after it repairs that. */
  ghost predicate BrokenFrom(es: seq<Event>, k: JobKey, i: nat) {
    i < |es| && BreaksAt(es, k, i) && NoRepairs(es, k, i)
  }

  lemma BrokenFromBefore(es: seq<Event>, k: JobKey, i: nat)
    requires i < |es| - 1
    ensures BrokenFrom(es, k, i) <==> BrokenFrom(es[..|es| - 1], k, i) && !RepairsAt(es, k, |es| - 1)
  {
    assert es[..|es| - 1][..i] == es[..i];
  }

  lemma FlawedStep(es: seq<Event>, k: JobKey)
    requires es != []
    ensures var n := |es| - 1;
            Flawed(es, k) <==> BreaksAt(es, k, n) || (Flawed(es[..n], k) && !RepairsAt(es, k, n))
  {
    var before, e := es[..|es| - 1], es[|es| - 1];
    var w := Run(INIT, before);
    if k in w.jobs {
      RunKeepsInv(before);
      assert Routed(w.events, k);
      RunKeepsOrderly(before, k);
      FlagStep(w, k, e, Flawed(before, k));
    }
  }

  lemma FlagStep(w: World, k: JobKey, e: Event, flawed: bool)
    requires k in w.jobs && Orderly(w, k, flawed)
    ensures FlawStep(w, e, k, flawed) <==> BreaksNow(w, k, e) || (flawed && !Repairs(w, k, e))
  {
    if e.WorkingOn? && e.k == k { OwnCallFlag(w, k, e.work, flawed); } else { OtherStepFlag(w, k, e, flawed); }
  }

  lemma SomeBrokenFrom(es: seq<Event>, k: JobKey)
    requires es != []
    ensures var n := |es| - 1;
            (exists i :: BrokenFrom(es, k, i)) <==> BreaksAt(es, k, n) || ((exists i :: BrokenFrom(es[..n], k, i)) && !RepairsAt(es, k, n))
  {
    var n := |es| - 1;
    if BreaksAt(es, k, n) {
      assert BrokenFrom(es, k, n);
    } else if i :| BrokenFrom(es, k, i) {
      BrokenFromBefore(es, k, i);
    } else if i :| BrokenFrom(es[..n], k, i) {
      BrokenFromBefore(es, k, i);
    }
  }

  lemma {:induction false} FlawedIsBrokenFrom(es: seq<Event>, k: JobKey)
    ensures Flawed(es, k) <==> exists i :: BrokenFrom(es, k, i)
  {
    if es != [] {
      FlawedIsBrokenFrom(es[..|es| - 1], k);
      FlawedStep(es, k);
      SomeBrokenFrom(es, k);
    }
  }

  /** In every run a job that ended, ended against the rule if and only if one of its
      worker's calls was one of the five, and after it came no stop and no removal that
      left nothing contradictory. */
  lemma RuleBrokenExactly(es: seq<Event>, k: JobKey)
    requires k in Run(INIT, es).jobs && (Run(INIT, es).jobs[k].stage == Done || Run(INIT, es).jobs[k].stage == Dead)
    ensures !EndsByTheRule(Run(INIT, es), k) <==> exists i :: BrokenFrom(es, k, i)
  {
    RetriesEndOneWay(es, k);
    FlawedIsBrokenFrom(es, k);
  }
}
