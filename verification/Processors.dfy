/** The four queue processors as the code runs them: calls in order, with a catch
    block. What `Process` leaves is what the pipeline's machine makes of the same calls. */
module Processors {
  import opened Common
  import opened Outbox
  import opened Pipeline

  // ------------------------------------------------ what one attempt sees

  /** A worker's view of its job, with the delivery records. */
  datatype Attempted = Attempted(l: Local, mails: map<nat, MailStatus>, exports: map<nat, Export>)

  function Advance(k: JobKey, a: Attempted, e: WorkEvent): Attempted {
    var change := RecordStep(k.queue, a.l.job, e);
    match k.queue
    case WEBHOOK => a.(l := Attempt(k.queue, a.l, e, true))
    case EXPORT =>
      Attempted(Attempt(k.queue, a.l, e, k.id in a.exports), a.mails, ChangeExport(a.exports, k.id, a.l.job.data.payload, change))
    case REMINDER | EMAIL =>
      Attempted(Attempt(k.queue, a.l, e, k.id in a.mails), ChangeMail(a.mails, k.id, change), a.exports)
  }

  function Seen(w: World, k: JobKey): Attempted
    requires k in w.jobs
  {
    Attempted(ViewOf(w, k), w.mails, w.exports)
  }

  /** A step of the machine, as its worker sees it. */
  lemma MachineSeesAdvance(w: World, k: JobKey, e: WorkEvent)
    requires k in w.jobs
    ensures k in OnWork(w, k, e).jobs && Seen(OnWork(w, k, e), k) == Advance(k, Seen(w, k), e)
  {
    WorkIsLocal(w, k, e);
    RecordsApart(w, k, w.jobs[k].data.payload, RecordStep(k.queue, w.jobs[k], e));
  }

  function After(k: JobKey, a: Attempted, es: seq<WorkEvent>): Attempted {
    if es == [] then a else Advance(k, After(k, a, es[..|es| - 1]), es[|es| - 1])
  }

  /** Each call is the one the machine has next. */
  ghost predicate IsPath(k: JobKey, a: Attempted, es: seq<WorkEvent>) {
    forall i :: 0 <= i < |es| ==> Enabled(After(k, a, es[..i]).l.job.stage, es[i])
  }

  ghost predicate Leads(k: JobKey, a: Attempted, es: seq<WorkEvent>, b: Attempted) {
    IsPath(k, a, es) && After(k, a, es) == b
  }

  /** Some sequence of calls, each the machine's next, leads from one to the other. */
  ghost predicate Path(k: JobKey, a: Attempted, b: Attempted) {
    exists es :: Leads(k, a, es, b)
  }

  lemma NoCall(k: JobKey, a: Attempted)
    ensures Path(k, a, a)
  {
    assert Leads(k, a, [], a);
  }

  lemma OneMoreCall(k: JobKey, a: Attempted, b: Attempted, e: WorkEvent)
    requires Path(k, a, b) && Enabled(b.l.job.stage, e)
    ensures Path(k, a, Advance(k, b, e))
  {
    var es :| Leads(k, a, es, b);
    var more := es + [e];
    assert more[..|es|] == es;
    forall i | 0 <= i < |more| ensures Enabled(After(k, a, more[..i]).l.job.stage, more[i]) {
      if i < |es| { assert more[..i] == es[..i]; }
    }
    assert Leads(k, a, more, Advance(k, b, e));
  }

  // ------------------------------------------------ the calls of one attempt

  /** How the calls of one attempt go. */
  datatype Calls = Calls(
    check: bool, find: bool, start: Outcome, body: bool, file: string, settle: Outcome, mark: Outcome, handle: Outcome, bury: Outcome)

  /** The machine on the calls of the catch block, and, one after the other, of the
      whole attempt: a call that is not the next one of the job changes nothing. */
  function FromCatch(k: JobKey, a: Attempted, c: Calls): Attempted {
    Advance(k, Advance(k, a, HandleError(c.handle)), Bury(c.bury))
  }

  function FromMark(k: JobKey, a: Attempted, c: Calls): Attempted { FromCatch(k, Advance(k, a, MarkProcessed(c.mark)), c) }

  function FromSettle(k: JobKey, a: Attempted, c: Calls): Attempted { FromMark(k, Advance(k, a, SettleRecord(c.file, c.settle)), c) }

  function FromBody(k: JobKey, a: Attempted, c: Calls): Attempted { FromSettle(k, Advance(k, a, RunBody(c.body)), c) }

  function FromStart(k: JobKey, a: Attempted, c: Calls): Attempted { FromBody(k, Advance(k, a, MarkStarted(c.start)), c) }

  function FromFind(k: JobKey, a: Attempted, c: Calls): Attempted { FromStart(k, Advance(k, a, FindRecord(c.find)), c) }

  function FromCheck(k: JobKey, a: Attempted, c: Calls): Attempted { FromFind(k, Advance(k, a, CheckProcessed(c.check)), c) }

  lemma NotNext(k: JobKey, a: Attempted, e: WorkEvent)
    requires !Enabled(a.l.job.stage, e)
    ensures Advance(k, a, e) == a
  {
  }

  predicate Over(a: Attempted) { a.l.job.stage == Active(Throwing) || a.l.job.stage == Active(Returning) }

  lemma OverInCatch(k: JobKey, a: Attempted, c: Calls)
    requires Over(a)
    ensures FromCatch(k, a, c) == a && FromMark(k, a, c) == a
  {
    NotNext(k, a, HandleError(c.handle));
    NotNext(k, a, Bury(c.bury));
    NotNext(k, a, MarkProcessed(c.mark));
  }

  /** After the end of an attempt no call changes anything. */
  lemma OverStays(k: JobKey, a: Attempted, c: Calls)
    requires Over(a)
    ensures FromSettle(k, a, c) == a && FromStart(k, a, c) == a && FromFind(k, a, c) == a
  {
    OverInCatch(k, a, c);
    NotNext(k, a, SettleRecord(c.file, c.settle));
    NotNext(k, a, RunBody(c.body));
    NotNext(k, a, MarkStarted(c.start));
    NotNext(k, a, FindRecord(c.find));
  }

  /** An error in the try block leads to the catch block. */
  lemma Caught(k: JobKey, a: Attempted, c: Calls)
    requires a.l.job.stage == Active(Catching)
    ensures FromMark(k, a, c) == FromCatch(k, a, c) && FromSettle(k, a, c) == FromCatch(k, a, c)
    ensures FromBody(k, a, c) == FromCatch(k, a, c) && FromStart(k, a, c) == FromCatch(k, a, c) && FromFind(k, a, c) == FromCatch(k, a, c)
    ensures FromCheck(k, a, c) == FromCatch(k, a, c)
  {
    NotNext(k, a, MarkProcessed(c.mark));
    NotNext(k, a, SettleRecord(c.file, c.settle));
    NotNext(k, a, RunBody(c.body));
    NotNext(k, a, MarkStarted(c.start));
    NotNext(k, a, FindRecord(c.find));
    NotNext(k, a, CheckProcessed(c.check));
  }

  /** Webhooks have no record to find, start or settle. */
  lemma WebhookSkips(k: JobKey, a: Attempted, c: Calls)
    ensures a.l.job.stage == Active(Working) ==> FromFind(k, a, c) == FromBody(k, a, c)
    ensures a.l.job.stage == Active(Marking) ==> FromSettle(k, a, c) == FromMark(k, a, c)
  {
    if a.l.job.stage == Active(Working) {
      NotNext(k, a, FindRecord(c.find));
      NotNext(k, a, MarkStarted(c.start));
    }
    if a.l.job.stage == Active(Marking) { NotNext(k, a, SettleRecord(c.file, c.settle)); }
  }

  lemma OneMore(k: JobKey, a: Attempted, b: Attempted, e: WorkEvent)
    requires Path(k, a, b)
    ensures Path(k, a, Advance(k, b, e))
  {
    if Enabled(b.l.job.stage, e) { OneMoreCall(k, a, b, e); } else { NotNext(k, b, e); }
  }

  lemma CatchIsPath(k: JobKey, a: Attempted, b: Attempted, c: Calls)
    requires Path(k, a, b)
    ensures Path(k, a, FromMark(k, b, c))
  {
    var d := Advance(k, b, MarkProcessed(c.mark));
    OneMore(k, a, b, MarkProcessed(c.mark));
    OneMore(k, a, d, HandleError(c.handle));
    OneMore(k, a, Advance(k, d, HandleError(c.handle)), Bury(c.bury));
  }

  lemma BodyIsPath(k: JobKey, a: Attempted, b: Attempted, c: Calls)
    requires Path(k, a, b)
    ensures Path(k, a, FromStart(k, b, c))
  {
    var d := Advance(k, b, MarkStarted(c.start));
    OneMore(k, a, b, MarkStarted(c.start));
    var e := Advance(k, d, RunBody(c.body));
    OneMore(k, a, d, RunBody(c.body));
    OneMore(k, a, e, SettleRecord(c.file, c.settle));
    CatchIsPath(k, a, Advance(k, e, SettleRecord(c.file, c.settle)), c);
  }

  /** The calls that count are, each, the machine's next. */
  lemma AttemptIsPath(k: JobKey, a: Attempted, c: Calls)
    ensures Path(k, a, FromCheck(k, a, c))
  {
    var d := Advance(k, a, CheckProcessed(c.check));
    NoCall(k, a);
    OneMore(k, a, a, CheckProcessed(c.check));
    OneMore(k, a, d, FindRecord(c.find));
    BodyIsPath(k, a, Advance(k, d, FindRecord(c.find)), c);
  }

  // ------------------------------------------------ the collaborators

  class ProcessedEventRepository {
    var processed: set<nat>

    constructor (processed: set<nat>)
      ensures this.processed == processed
    {
      this.processed := processed;
    }

    /** The insert under a unique index; `ok` is false where it throws. */
    method MarkProcessed(id: nat, outcome: Outcome) returns (ok: bool)
      modifies this
      ensures ok <==> outcome == Applied && id !in old(processed)
      ensures processed == if outcome == LostBefore then old(processed) else old(processed) + {id}
    {
      if outcome == LostBefore || id in processed {
        return false;
      }
      processed := processed + {id};
      ok := outcome == Applied;
    }
  }

  class EmailDeliveryRepository {
    var mails: map<nat, MailStatus>

    constructor (mails: map<nat, MailStatus>)
      ensures this.mails == mails
    {
      this.mails := mails;
    }

    method Update(id: nat, status: MailStatus)
      modifies this
      ensures mails == if id in old(mails) then old(mails)[id := status] else old(mails)
    {
      if id in mails {
        mails := mails[id := status];
      }
    }
  }

  /** The export with this id has failed, the others are as they were. */
  ghost predicate FailedInstead(before: map<nat, Export>, after: map<nat, Export>, exportId: nat) {
    && after.Keys == before.Keys
    && forall i :: i in before ==>
         after[i] == if before[i].exportId == exportId then before[i].(status := ExportFailed) else before[i]
  }

  class ExportRepository {
    var exports: map<nat, Export>

    constructor (exports: map<nat, Export>)
      ensures this.exports == exports
    {
      this.exports := exports;
    }

    /** The update of the record found by its event; a file comes with its path, name and expiry. */
    method Update(id: nat, status: ExportStatus, file: Option<string>)
      requires id in exports
      modifies this
      ensures exports == old(exports)[id := old(exports)[id].(status := status, file := if file.Some? then file else old(exports)[id].file)]
    {
      exports := exports[id := exports[id].(status := status, file := if file.Some? then file else exports[id].file)];
    }

    /** The update by the record's own id. */
    method Fail(exportId: nat)
      modifies this
      ensures exports == ChangeExport(old(exports), 0, ForExport(exportId), Failed)
      ensures FailedInstead(old(exports), exports, exportId)
    {
      exports := map i | i in exports :: if exports[i].exportId == exportId then exports[i].(status := ExportFailed) else exports[i];
    }
  }

  class DeadLetterService {
    var letters: map<JobKey, nat>

    constructor ()
      ensures letters == map[]
    {
      letters := map[];
    }

    /** The queue has one job per id: a second letter for a job is left out. */
    method MoveToDeadLetterQueue(k: JobKey, attempts: nat)
      modifies this
      ensures letters == if k in old(letters) then old(letters) else old(letters)[k := attempts]
    {
      if k !in letters {
        letters := letters[k := attempts];
      }
    }
  }

  predicate SameJob(job: Job, attemptsMade: nat, attempts: nat) { job.attemptsMade == attemptsMade && job.attempts == attempts }

  // ------------------------------------------------ reminders and e-mails

  /** The reminder and the e-mail processor, which have the same try and catch blocks. */
  class MailProcessor {
    const queue: QueueName
    const processedEvents: ProcessedEventRepository
    const deliveries: EmailDeliveryRepository
    const deadLetters: DeadLetterService
    /** Mails sent. */
    var sent: nat

    constructor (queue: QueueName, processedEvents: ProcessedEventRepository, deliveries: EmailDeliveryRepository,
                 deadLetters: DeadLetterService)
      ensures this.queue == queue && this.processedEvents == processedEvents && this.deliveries == deliveries
      ensures this.deadLetters == deadLetters && sent == 0
    {
      this.queue, this.processedEvents, this.deliveries, this.deadLetters := queue, processedEvents, deliveries, deadLetters;
      sent := 0;
    }

    /** The stores hold what the machine has for the job. */
    ghost predicate Holds(k: JobKey, a: Attempted)
      reads this, processedEvents, deliveries, deadLetters
    {
      && k.queue == queue && (queue == REMINDER || queue == EMAIL)
      && (k.id in processedEvents.processed <==> a.l.processed) && deliveries.mails == a.mails && sent == a.l.effects
      && a.l.buried == (if k in deadLetters.letters then Some(deadLetters.letters[k]) else None)
    }

    /** What one attempt leaves from the search for the record on: the mail goes out
        exactly when the record is there and was set to SENDING. The record ends SENT
        where that update took effect and nothing failed for good after it, and FAILED,
        with one letter, after the final attempt. Without a record it leaves nothing. */
    ghost predicate Leaves(k: JobKey, attemptsMade: nat, attempts: nat, c: Calls, sentBefore: nat, processed: set<nat>,
                           mails: map<nat, MailStatus>, letters: map<JobKey, nat>, threw: bool)
      reads this, processedEvents, deliveries, deadLetters
    {
      var found := c.find && k.id in mails;
      var goesOut := found && c.start == Applied && c.body;
      var fails := found && threw && attemptsMade + 1 >= attempts;
      && (threw <==> !(goesOut && c.settle == Applied && (k.queue == REMINDER ==> c.mark == Applied && k.id !in processed)))
      && sent == sentBefore + (if goesOut then 1 else 0)
      && processedEvents.processed == (if k.queue == REMINDER && goesOut && c.settle == Applied && c.mark != LostBefore
                                       then processed + {k.id} else processed)
      && deliveries.mails == (if !found then mails
                              else mails[k.id := if fails && c.handle != LostBefore then MailFailed
                                                 else if goesOut && c.settle != LostBefore then Sent
                                                 else if c.start != LostBefore then Sending else mails[k.id]])
      && deadLetters.letters == (if fails && c.handle == Applied && c.bury != LostBefore && k !in letters
                                 then letters[k := attemptsMade + 1] else letters)
    }

    /** One attempt of a reminder: the stores end as the machine's run of its calls, and
        `threw` tells how the attempt ends there. */
    method ProcessReminder(k: JobKey, attemptsMade: nat, attempts: nat, c: Calls, ghost a: Attempted)
      returns (threw: bool, ghost b: Attempted)
      requires k.queue == REMINDER && a.l.job.stage == Active(Checking) && Holds(k, a) && SameJob(a.l.job, attemptsMade, attempts)
      modifies this, processedEvents, deliveries, deadLetters
      ensures b == FromCheck(k, a, c) && Holds(k, b) && b.l.job.stage == Active(if threw then Throwing else Returning)
      ensures !c.check || k.id in old(processedEvents.processed) ==>
                && (threw <==> !c.check) && sent == old(sent) && processedEvents.processed == old(processedEvents.processed)
                && deliveries.mails == old(deliveries.mails) && deadLetters.letters == old(deadLetters.letters)
      ensures c.check && k.id !in old(processedEvents.processed) ==>
                Leaves(k, attemptsMade, attempts, c, old(sent), old(processedEvents.processed), old(deliveries.mails),
                       old(deadLetters.letters), threw)
    {
      b := Advance(k, a, CheckProcessed(c.check));
      if !c.check {
        OverStays(k, b, c);
        return true, b;
      }
      if k.id in processedEvents.processed {
        OverStays(k, b, c);
        return false, b;
      }
      threw, b := Deliver(k, attemptsMade, attempts, c, b);
    }

    /** One attempt of an e-mail: no check for processed events. */
    method ProcessEmail(k: JobKey, attemptsMade: nat, attempts: nat, c: Calls, ghost a: Attempted)
      returns (threw: bool, ghost b: Attempted)
      requires k.queue == EMAIL && a.l.job.stage == Active(Finding) && Holds(k, a) && SameJob(a.l.job, attemptsMade, attempts)
      modifies this, processedEvents, deliveries, deadLetters
      ensures b == FromFind(k, a, c) && Holds(k, b) && b.l.job.stage == Active(if threw then Throwing else Returning)
      ensures Leaves(k, attemptsMade, attempts, c, old(sent), old(processedEvents.processed), old(deliveries.mails),
                     old(deadLetters.letters), threw)
    {
      threw, b := Deliver(k, attemptsMade, attempts, c, a);
    }

    method Deliver(k: JobKey, attemptsMade: nat, attempts: nat, c: Calls, ghost from: Attempted)
      returns (threw: bool, ghost b: Attempted)
      requires from.l.job.stage == Active(Finding) && Holds(k, from) && SameJob(from.l.job, attemptsMade, attempts)
      modifies this, processedEvents, deliveries, deadLetters
      ensures b == FromFind(k, from, c) && Holds(k, b) && b.l.job.stage == Active(if threw then Throwing else Returning)
      ensures Leaves(k, attemptsMade, attempts, c, old(sent), old(processedEvents.processed), old(deliveries.mails),
                     old(deadLetters.letters), threw)
    {
      b := Advance(k, from, FindRecord(c.find));
      if !c.find || k.id !in deliveries.mails {
        OverStays(k, b, c);
        return true, b;
      }
      threw, b := TryOrCatch(k, attemptsMade, attempts, c, b);
    }

    method TryOrCatch(k: JobKey, attemptsMade: nat, attempts: nat, c: Calls, ghost from: Attempted)
      returns (threw: bool, ghost b: Attempted)
      requires from.l.job.stage == Active(Starting) && Holds(k, from) && SameJob(from.l.job, attemptsMade, attempts)
      requires c.find && k.id in deliveries.mails
      modifies this, processedEvents, deliveries, deadLetters
      ensures b == FromStart(k, from, c) && Holds(k, b) && b.l.job.stage == Active(if threw then Throwing else Returning)
      ensures Leaves(k, attemptsMade, attempts, c, old(sent), old(processedEvents.processed), old(deliveries.mails),
                     old(deadLetters.letters), threw)
    {
      threw, b := Try(k, attemptsMade, attempts, c, from);
      if threw {
        b := Catch(k, attemptsMade, attempts, c, b);
      } else {
        OverInCatch(k, b, c);
      }
    }

    /** The try block. */
    method Try(k: JobKey, attemptsMade: nat, attempts: nat, c: Calls, ghost from: Attempted)
      returns (threw: bool, ghost b: Attempted)
      requires from.l.job.stage == Active(Starting) && Holds(k, from) && SameJob(from.l.job, attemptsMade, attempts)
      requires k.id in deliveries.mails
      modifies this, processedEvents, deliveries
      ensures FromCatch(k, b, c) == FromStart(k, from, c) && Holds(k, b)
      ensures var goesOut := c.start == Applied && c.body;
              && (threw <==> !(goesOut && c.settle == Applied
                               && (queue == REMINDER ==> c.mark == Applied && k.id !in old(processedEvents.processed))))
              && sent == old(sent) + (if goesOut then 1 else 0)
              && processedEvents.processed == old(processedEvents.processed)
                   + (if queue == REMINDER && goesOut && c.settle == Applied && c.mark != LostBefore then {k.id} else {})
              && deliveries.mails == old(deliveries.mails)[k.id := if goesOut && c.settle != LostBefore then Sent
                                                                   else if c.start != LostBefore then Sending
                                                                   else old(deliveries.mails)[k.id]]
      ensures b.l.job.stage == Active(if threw then Catching else Returning) && SameJob(b.l.job, attemptsMade, attempts)
    {
      b := Start(k, c, from);
      if c.start != Applied {
        Caught(k, b, c);
        return true, b;
      }
      threw, b := Send(k, attemptsMade, attempts, c, b);
    }

    method Start(k: JobKey, c: Calls, ghost from: Attempted) returns (ghost b: Attempted)
      requires from.l.job.stage == Active(Starting) && Holds(k, from) && k.id in deliveries.mails
      modifies deliveries
      ensures b == Advance(k, from, MarkStarted(c.start)) && Holds(k, b)
      ensures b.l.job == from.l.job.(stage := Active(if c.start == Applied then Working else Catching))
      ensures deliveries.mails == if c.start != LostBefore
                                  then old(deliveries.mails)[k.id := Sending] else old(deliveries.mails)
    {
      b := Advance(k, from, MarkStarted(c.start));
      if c.start != LostBefore {
        deliveries.Update(k.id, Sending);
      }
    }

    method Send(k: JobKey, attemptsMade: nat, attempts: nat, c: Calls, ghost from: Attempted)
      returns (threw: bool, ghost b: Attempted)
      requires from.l.job.stage == Active(Working) && Holds(k, from) && SameJob(from.l.job, attemptsMade, attempts)
      requires k.id in deliveries.mails
      modifies this, processedEvents, deliveries
      ensures FromCatch(k, b, c) == FromBody(k, from, c) && Holds(k, b)
      ensures && (threw <==> !(c.body && c.settle == Applied
                               && (queue == REMINDER ==> c.mark == Applied && k.id !in old(processedEvents.processed))))
              && sent == old(sent) + (if c.body then 1 else 0)
              && processedEvents.processed == old(processedEvents.processed)
                   + (if queue == REMINDER && c.body && c.settle == Applied && c.mark != LostBefore then {k.id} else {})
              && deliveries.mails == (if c.body && c.settle != LostBefore
                                      then old(deliveries.mails)[k.id := Sent] else old(deliveries.mails))
      ensures b.l.job.stage == Active(if threw then Catching else Returning) && SameJob(b.l.job, attemptsMade, attempts)
    {
      b := Advance(k, from, RunBody(c.body));
      if !c.body {
        Caught(k, b, c);
        return true, b;
      }
      sent := sent + 1;
      threw, b := Finish(k, attemptsMade, attempts, c, b);
    }

    method Finish(k: JobKey, attemptsMade: nat, attempts: nat, c: Calls, ghost from: Attempted)
      returns (threw: bool, ghost b: Attempted)
      requires from.l.job.stage == Active(Settling) && Holds(k, from) && SameJob(from.l.job, attemptsMade, attempts)
      requires k.id in deliveries.mails
      modifies this, processedEvents, deliveries
      ensures FromCatch(k, b, c) == FromSettle(k, from, c) && Holds(k, b)
      ensures && (threw <==> !(c.settle == Applied
                               && (queue == REMINDER ==> c.mark == Applied && k.id !in old(processedEvents.processed))))
              && sent == old(sent)
              && processedEvents.processed == old(processedEvents.processed)
                   + (if queue == REMINDER && c.settle == Applied && c.mark != LostBefore then {k.id} else {})
              && deliveries.mails == (if c.settle != LostBefore
                                      then old(deliveries.mails)[k.id := Sent] else old(deliveries.mails))
      ensures b.l.job.stage == Active(if threw then Catching else Returning) && SameJob(b.l.job, attemptsMade, attempts)
    {
      b := Settle(k, c, from);
      if c.settle != Applied {
        Caught(k, b, c);
        return true, b;
      }
      if queue == EMAIL {
        OverInCatch(k, b, c);
        return false, b;
      }
      b := Advance(k, b, MarkProcessed(c.mark));
      var marked := processedEvents.MarkProcessed(k.id, c.mark);
      threw := !marked;
    }

    method Settle(k: JobKey, c: Calls, ghost from: Attempted) returns (ghost b: Attempted)
      requires from.l.job.stage == Active(Settling) && Holds(k, from) && k.id in deliveries.mails
      modifies deliveries
      ensures b == Advance(k, from, SettleRecord(c.file, c.settle)) && Holds(k, b) && b.l.processed == from.l.processed
      ensures b.l.job == from.l.job.(stage := Active(if c.settle != Applied then Catching
                                                     else if queue == EMAIL then Returning else Marking))
      ensures deliveries.mails == if c.settle != LostBefore then old(deliveries.mails)[k.id := Sent] else old(deliveries.mails)
    {
      b := Advance(k, from, SettleRecord(c.file, c.settle));
      if c.settle != LostBefore {
        deliveries.Update(k.id, Sent);
      }
    }

    /** The catch block, which throws in the end. */
    method Catch(k: JobKey, attemptsMade: nat, attempts: nat, c: Calls, ghost from: Attempted)
      returns (ghost b: Attempted)
      requires from.l.job.stage == Active(Catching) && Holds(k, from) && SameJob(from.l.job, attemptsMade, attempts)
      modifies this, deliveries, deadLetters
      ensures b == FromCatch(k, from, c) && Holds(k, b) && b.l.job.stage == Active(Throwing)
      ensures sent == old(sent)
      ensures deliveries.mails == if attemptsMade + 1 >= attempts && c.handle != LostBefore && k.id in old(deliveries.mails)
                                  then old(deliveries.mails)[k.id := MailFailed] else old(deliveries.mails)
      ensures deadLetters.letters == if (attemptsMade + 1 >= attempts && c.handle == Applied && c.bury != LostBefore
                                         && k !in old(deadLetters.letters))
                                     then old(deadLetters.letters)[k := attemptsMade + 1] else old(deadLetters.letters)
    {
      b := Advance(k, from, HandleError(c.handle));
      if attemptsMade + 1 >= attempts {
        if c.handle != LostBefore {
          deliveries.Update(k.id, MailFailed);
        }
        if c.handle == Applied {
          b := BuryJob(k, attemptsMade, attempts, c, b);
          return;
        }
      }
      NotNext(k, b, Bury(c.bury));
    }

    method BuryJob(k: JobKey, attemptsMade: nat, attempts: nat, c: Calls, ghost from: Attempted)
      returns (ghost b: Attempted)
      requires from.l.job.stage == Active(Burying) && Holds(k, from) && SameJob(from.l.job, attemptsMade, attempts)
      modifies deadLetters
      ensures Holds(k, b) && b == Advance(k, from, Bury(c.bury)) && b.l.job.stage == Active(Throwing)
      ensures deadLetters.letters == if c.bury != LostBefore && k !in old(deadLetters.letters)
                                     then old(deadLetters.letters)[k := attemptsMade + 1] else old(deadLetters.letters)
    {
      b := Advance(k, from, Bury(c.bury));
      if c.bury != LostBefore {
        deadLetters.MoveToDeadLetterQueue(k, attemptsMade + 1);
      }
    }
  }

  // ------------------------------------------------ webhooks

  class WebhookProcessor {
    const processedEvents: ProcessedEventRepository
    const deadLetters: DeadLetterService
    /** Attempts that delivered to every webhook. */
    var deliveries: nat

    constructor (processedEvents: ProcessedEventRepository, deadLetters: DeadLetterService)
      ensures this.processedEvents == processedEvents && this.deadLetters == deadLetters && deliveries == 0
    {
      this.processedEvents, this.deadLetters := processedEvents, deadLetters;
      deliveries := 0;
    }

    ghost predicate Holds(k: JobKey, a: Attempted)
      reads this, processedEvents, deadLetters
    {
      && k.queue == WEBHOOK && (k.id in processedEvents.processed <==> a.l.processed) && deliveries == a.l.effects
      && a.l.buried == (if k in deadLetters.letters then Some(deadLetters.letters[k]) else None)
    }

    /** One attempt. A job without a workspace throws inside the try block, too. */
    method Process(k: JobKey, workspaceId: Option<nat>, attemptsMade: nat, attempts: nat, c: Calls, ghost a: Attempted)
      returns (threw: bool, ghost b: Attempted)
      requires a.l.job.stage == Waiting && Holds(k, a) && SameJob(a.l.job, attemptsMade, attempts)
      requires a.l.job.data.workspaceId == workspaceId
      modifies this, processedEvents, deadLetters
      ensures b == FromCheck(k, Advance(k, a, Take), c) && Holds(k, b)
      ensures b.l.job.stage == Active(if threw then Throwing else Returning)
      ensures var runs := workspaceId.Some? && c.check && k.id !in old(processedEvents.processed);
              && (threw <==> !(workspaceId.Some? && c.check
                               && (k.id in old(processedEvents.processed) || (c.body && c.mark == Applied))))
              && deliveries == old(deliveries) + (if runs && c.body then 1 else 0)
              && processedEvents.processed == (if runs && c.body && c.mark != LostBefore
                                               then old(processedEvents.processed) + {k.id} else old(processedEvents.processed))
              && deadLetters.letters == (if (threw && attemptsMade + 1 >= attempts && c.bury != LostBefore
                                             && k !in old(deadLetters.letters))
                                         then old(deadLetters.letters)[k := attemptsMade + 1] else old(deadLetters.letters))
    {
      b := Advance(k, a, Take);
      if workspaceId.None? {
        Caught(k, b, c);
        threw := true;
      } else {
        threw, b := Try(k, attemptsMade, attempts, c, b);
      }
      if threw {
        b := Catch(k, attemptsMade, attempts, c, b);
      } else {
        OverInCatch(k, b, c);
      }
    }

    method Try(k: JobKey, attemptsMade: nat, attempts: nat, c: Calls, ghost from: Attempted)
      returns (threw: bool, ghost b: Attempted)
      requires from.l.job.stage == Active(Checking) && Holds(k, from) && SameJob(from.l.job, attemptsMade, attempts)
      modifies this, processedEvents
      ensures FromCatch(k, b, c) == FromCheck(k, from, c) && Holds(k, b)
      ensures var runs := c.check && k.id !in old(processedEvents.processed);
              && (threw <==> !(c.check && (k.id in old(processedEvents.processed) || (c.body && c.mark == Applied))))
              && deliveries == old(deliveries) + (if runs && c.body then 1 else 0)
              && processedEvents.processed == old(processedEvents.processed)
                   + (if runs && c.body && c.mark != LostBefore then {k.id} else {})
      ensures b.l.job.stage == Active(if threw then Catching else Returning) && SameJob(b.l.job, attemptsMade, attempts)
    {
      b := Advance(k, from, CheckProcessed(c.check));
      if !c.check {
        Caught(k, b, c);
        return true, b;
      }
      if k.id in processedEvents.processed {
        OverInCatch(k, b, c);
        OverStays(k, b, c);
        return false, b;
      }
      WebhookSkips(k, b, c);
      threw, b := DeliverAndMark(k, attemptsMade, attempts, c, b);
    }

    method DeliverAndMark(k: JobKey, attemptsMade: nat, attempts: nat, c: Calls, ghost from: Attempted)
      returns (threw: bool, ghost b: Attempted)
      requires from.l.job.stage == Active(Working) && Holds(k, from) && SameJob(from.l.job, attemptsMade, attempts)
      modifies this, processedEvents
      ensures FromCatch(k, b, c) == FromBody(k, from, c) && Holds(k, b)
      ensures && (threw <==> !(c.body && c.mark == Applied && k.id !in old(processedEvents.processed)))
              && deliveries == old(deliveries) + (if c.body then 1 else 0)
              && processedEvents.processed == old(processedEvents.processed)
                   + (if c.body && c.mark != LostBefore then {k.id} else {})
      ensures b.l.job.stage == Active(if threw then Catching else Returning) && SameJob(b.l.job, attemptsMade, attempts)
    {
      b := Advance(k, from, RunBody(c.body));
      if !c.body {
        Caught(k, b, c);
        return true, b;
      }
      deliveries := deliveries + 1;
      WebhookSkips(k, b, c);
      b := Advance(k, b, MarkProcessed(c.mark));
      var marked := processedEvents.MarkProcessed(k.id, c.mark);
      threw := !marked;
    }

    method Catch(k: JobKey, attemptsMade: nat, attempts: nat, c: Calls, ghost from: Attempted)
      returns (ghost b: Attempted)
      requires from.l.job.stage == Active(Catching) && Holds(k, from) && SameJob(from.l.job, attemptsMade, attempts)
      modifies deadLetters
      ensures b == FromCatch(k, from, c) && Holds(k, b) && b.l.job.stage == Active(Throwing)
      ensures deadLetters.letters == if (attemptsMade + 1 >= attempts && c.bury != LostBefore
                                         && k !in old(deadLetters.letters))
                                     then old(deadLetters.letters)[k := attemptsMade + 1] else old(deadLetters.letters)
    {
      b := Advance(k, from, HandleError(c.handle));
      if attemptsMade + 1 >= attempts {
        b := BuryJob(k, attemptsMade, attempts, c, b);
      } else {
        NotNext(k, b, Bury(c.bury));
      }
    }

    method BuryJob(k: JobKey, attemptsMade: nat, attempts: nat, c: Calls, ghost from: Attempted)
      returns (ghost b: Attempted)
      requires from.l.job.stage == Active(Burying) && Holds(k, from) && SameJob(from.l.job, attemptsMade, attempts)
      modifies deadLetters
      ensures Holds(k, b) && b == Advance(k, from, Bury(c.bury)) && b.l.job.stage == Active(Throwing)
      ensures deadLetters.letters == if c.bury != LostBefore && k !in old(deadLetters.letters)
                                     then old(deadLetters.letters)[k := attemptsMade + 1] else old(deadLetters.letters)
    {
      b := Advance(k, from, Bury(c.bury));
      if c.bury != LostBefore {
        deadLetters.MoveToDeadLetterQueue(k, attemptsMade + 1);
      }
    }
  }

  // ------------------------------------------------ exports

  class ExportProcessor {
    const processedEvents: ProcessedEventRepository
    const exportRecords: ExportRepository
    const deadLetters: DeadLetterService
    /** Files generated. */
    var files: nat

    constructor (processedEvents: ProcessedEventRepository, exportRecords: ExportRepository, deadLetters: DeadLetterService)
      ensures this.processedEvents == processedEvents && this.exportRecords == exportRecords
      ensures this.deadLetters == deadLetters && files == 0
    {
      this.processedEvents, this.exportRecords, this.deadLetters := processedEvents, exportRecords, deadLetters;
      files := 0;
    }

    ghost predicate Holds(k: JobKey, a: Attempted)
      reads this, processedEvents, exportRecords, deadLetters
    {
      && k.queue == EXPORT && (k.id in processedEvents.processed <==> a.l.processed)
      && exportRecords.exports == a.exports && files == a.l.effects
      && a.l.buried == (if k in deadLetters.letters then Some(deadLetters.letters[k]) else None)
    }

    /** What one attempt leaves from the search for the record on. The record ends
        COMPLETED, with the file generated, where that update took effect and nothing
        failed for good after it; after the final attempt the record with the export's
        own id is FAILED, and there is one letter. */
    ghost predicate Leaves(k: JobKey, exportId: nat, attemptsMade: nat, attempts: nat, c: Calls, filesBefore: nat,
                           processed: set<nat>, exports: map<nat, Export>, letters: map<JobKey, nat>, threw: bool)
      reads this, processedEvents, exportRecords, deadLetters
    {
      var found := c.find && k.id in exports;
      var generates := found && c.start == Applied && c.body;
      var fails := threw && attemptsMade + 1 >= attempts;
      var written := if generates && c.settle != LostBefore
                     then exports[k.id := exports[k.id].(status := Exported, file := Some(c.file))]
                     else if found && c.start != LostBefore then exports[k.id := exports[k.id].(status := Exporting)] else exports;
      && (threw <==> !(generates && c.settle == Applied && c.mark == Applied && k.id !in processed))
      && files == filesBefore + (if generates then 1 else 0)
      && processedEvents.processed == (if generates && c.settle == Applied && c.mark != LostBefore then processed + {k.id} else processed)
      && (if fails && c.handle != LostBefore then FailedInstead(written, exportRecords.exports, exportId)
          else exportRecords.exports == written)
      && deadLetters.letters == (if fails && c.handle == Applied && c.bury != LostBefore && k !in letters
                                 then letters[k := attemptsMade + 1] else letters)
    }

    /** One attempt, once the payload has been checked to name an export. An attempt that
        returns leaves the file it generated on record, and its event processed. */
    method Process(k: JobKey, exportId: nat, attemptsMade: nat, attempts: nat, c: Calls, ghost a: Attempted)
      returns (threw: bool, ghost b: Attempted)
      requires a.l.job.stage == Active(Checking) && Holds(k, a) && SameJob(a.l.job, attemptsMade, attempts)
      requires a.l.job.data.payload == ForExport(exportId)
      modifies this, processedEvents, exportRecords, deadLetters
      ensures b == FromCheck(k, a, c) && Holds(k, b) && b.l.job.stage == Active(if threw then Throwing else Returning)
      ensures !c.check || k.id in old(processedEvents.processed) ==>
                && (threw <==> !c.check) && files == old(files) && processedEvents.processed == old(processedEvents.processed)
                && exportRecords.exports == old(exportRecords.exports) && deadLetters.letters == old(deadLetters.letters)
      ensures c.check && k.id !in old(processedEvents.processed) ==>
                Leaves(k, exportId, attemptsMade, attempts, c, old(files), old(processedEvents.processed), old(exportRecords.exports),
                       old(deadLetters.letters), threw)
      ensures !threw && k.id !in old(processedEvents.processed) ==>
                && k.id in processedEvents.processed && k.id in exportRecords.exports
                && exportRecords.exports[k.id].status == Exported && exportRecords.exports[k.id].file == Some(c.file)
    {
      b := Advance(k, a, CheckProcessed(c.check));
      if !c.check {
        OverStays(k, b, c);
        return true, b;
      }
      if k.id in processedEvents.processed {
        OverStays(k, b, c);
        return false, b;
      }
      threw, b := Try(k, attemptsMade, attempts, c, b);
      if threw {
        b := Catch(k, exportId, attemptsMade, attempts, c, b);
      } else {
        OverInCatch(k, b, c);
      }
    }

    method Try(k: JobKey, attemptsMade: nat, attempts: nat, c: Calls, ghost from: Attempted)
      returns (threw: bool, ghost b: Attempted)
      requires from.l.job.stage == Active(Finding) && Holds(k, from) && SameJob(from.l.job, attemptsMade, attempts)
      modifies this, processedEvents, exportRecords
      ensures FromCatch(k, b, c) == FromFind(k, from, c) && Holds(k, b) && b.l.job.data == from.l.job.data
      ensures var generates := c.find && k.id in old(exportRecords.exports) && c.start == Applied && c.body;
              && (threw <==> !(generates && c.settle == Applied && c.mark == Applied && k.id !in old(processedEvents.processed)))
              && files == old(files) + (if generates then 1 else 0)
              && processedEvents.processed == old(processedEvents.processed)
                   + (if generates && c.settle == Applied && c.mark != LostBefore then {k.id} else {})
              && exportRecords.exports == (
                   if generates && c.settle != LostBefore
                   then old(exportRecords.exports)[k.id := old(exportRecords.exports)[k.id].(status := Exported, file := Some(c.file))]
                   else if c.find && k.id in old(exportRecords.exports) && c.start != LostBefore
                   then old(exportRecords.exports)[k.id := old(exportRecords.exports)[k.id].(status := Exporting)]
                   else old(exportRecords.exports))
      ensures b.l.job.stage == Active(if threw then Catching else Returning) && SameJob(b.l.job, attemptsMade, attempts)
    {
      threw, b := GenerateExport(k, attemptsMade, attempts, c, from);
      if threw {
        Caught(k, b, c);
      } else {
        threw, b := Mark(k, attemptsMade, attempts, c, b);
      }
    }

    method Mark(k: JobKey, attemptsMade: nat, attempts: nat, c: Calls, ghost from: Attempted)
      returns (threw: bool, ghost b: Attempted)
      requires from.l.job.stage == Active(Marking) && Holds(k, from) && SameJob(from.l.job, attemptsMade, attempts)
      modifies processedEvents
      ensures FromCatch(k, b, c) == FromMark(k, from, c) && Holds(k, b) && b.l.job.data == from.l.job.data
      ensures threw <==> !(c.mark == Applied && k.id !in old(processedEvents.processed))
      ensures processedEvents.processed == old(processedEvents.processed) + (if c.mark != LostBefore then {k.id} else {})
      ensures b.l.job.stage == Active(if threw then Catching else Returning) && SameJob(b.l.job, attemptsMade, attempts)
    {
      b := Advance(k, from, MarkProcessed(c.mark));
      var marked := processedEvents.MarkProcessed(k.id, c.mark);
      threw := !marked;
    }

    method GenerateExport(k: JobKey, attemptsMade: nat, attempts: nat, c: Calls, ghost from: Attempted)
      returns (threw: bool, ghost b: Attempted)
      requires from.l.job.stage == Active(Finding) && Holds(k, from) && SameJob(from.l.job, attemptsMade, attempts)
      modifies this, exportRecords
      ensures FromMark(k, b, c) == FromFind(k, from, c) && Holds(k, b) && b.l.job.data == from.l.job.data
      ensures var generates := c.find && k.id in old(exportRecords.exports) && c.start == Applied && c.body;
              && (threw <==> !(generates && c.settle == Applied)) && files == old(files) + (if generates then 1 else 0)
              && exportRecords.exports == (
                   if generates && c.settle != LostBefore
                   then old(exportRecords.exports)[k.id := old(exportRecords.exports)[k.id].(status := Exported, file := Some(c.file))]
                   else if c.find && k.id in old(exportRecords.exports) && c.start != LostBefore
                   then old(exportRecords.exports)[k.id := old(exportRecords.exports)[k.id].(status := Exporting)]
                   else old(exportRecords.exports))
      ensures b.l.job.stage == Active(if threw then Catching else Marking) && SameJob(b.l.job, attemptsMade, attempts)
    {
      b := Advance(k, from, FindRecord(c.find));
      if !c.find || k.id !in exportRecords.exports {
        Caught(k, b, c);
        return true, b;
      }
      threw, b := Generate(k, attemptsMade, attempts, c, b);
    }

    method Generate(k: JobKey, attemptsMade: nat, attempts: nat, c: Calls, ghost from: Attempted)
      returns (threw: bool, ghost b: Attempted)
      requires from.l.job.stage == Active(Starting) && Holds(k, from) && SameJob(from.l.job, attemptsMade, attempts)
      requires k.id in from.exports
      modifies this, exportRecords
      ensures FromMark(k, b, c) == FromStart(k, from, c) && Holds(k, b) && b.l.job.data == from.l.job.data
      ensures var generates := c.start == Applied && c.body;
              && (threw <==> !(generates && c.settle == Applied)) && files == old(files) + (if generates then 1 else 0)
              && exportRecords.exports == (
                   if generates && c.settle != LostBefore
                   then old(exportRecords.exports)[k.id := old(exportRecords.exports)[k.id].(status := Exported, file := Some(c.file))]
                   else if c.start != LostBefore
                   then old(exportRecords.exports)[k.id := old(exportRecords.exports)[k.id].(status := Exporting)]
                   else old(exportRecords.exports))
      ensures b.l.job.stage == Active(if threw then Catching else Marking) && SameJob(b.l.job, attemptsMade, attempts)
    {
      b := Start(k, c, from);
      if c.start != Applied {
        Caught(k, b, c);
        return true, b;
      }
      threw, b := WriteFile(k, attemptsMade, attempts, c, b);
    }

    method Start(k: JobKey, c: Calls, ghost from: Attempted) returns (ghost b: Attempted)
      requires from.l.job.stage == Active(Starting) && Holds(k, from) && k.id in from.exports
      modifies exportRecords
      ensures b == Advance(k, from, MarkStarted(c.start)) && Holds(k, b)
      ensures b.l.job == from.l.job.(stage := Active(if c.start == Applied then Working else Catching))
      ensures exportRecords.exports == if c.start != LostBefore
                                       then old(exportRecords.exports)[k.id := old(exportRecords.exports)[k.id].(status := Exporting)]
                                       else old(exportRecords.exports)
    {
      b := Advance(k, from, MarkStarted(c.start));
      if c.start != LostBefore {
        exportRecords.Update(k.id, Exporting, None);
      }
    }

    method WriteFile(k: JobKey, attemptsMade: nat, attempts: nat, c: Calls, ghost from: Attempted)
      returns (threw: bool, ghost b: Attempted)
      requires from.l.job.stage == Active(Working) && Holds(k, from) && SameJob(from.l.job, attemptsMade, attempts)
      requires k.id in from.exports
      modifies this, exportRecords
      ensures FromMark(k, b, c) == FromBody(k, from, c) && Holds(k, b) && b.l.job.data == from.l.job.data
      ensures && (threw <==> !(c.body && c.settle == Applied)) && files == old(files) + (if c.body then 1 else 0)
              && exportRecords.exports == (
                   if c.body && c.settle != LostBefore
                   then old(exportRecords.exports)[k.id := old(exportRecords.exports)[k.id].(status := Exported, file := Some(c.file))]
                   else old(exportRecords.exports))
      ensures b.l.job.stage == Active(if threw then Catching else Marking) && SameJob(b.l.job, attemptsMade, attempts)
    {
      b := Advance(k, from, RunBody(c.body));
      if !c.body {
        Caught(k, b, c);
        return true, b;
      }
      files := files + 1;
      b := Advance(k, b, SettleRecord(c.file, c.settle));
      if c.settle != LostBefore {
        exportRecords.Update(k.id, Exported, Some(c.file));
      }
      threw := c.settle != Applied;
    }

    method Catch(k: JobKey, exportId: nat, attemptsMade: nat, attempts: nat, c: Calls, ghost from: Attempted)
      returns (ghost b: Attempted)
      requires from.l.job.stage == Active(Catching) && Holds(k, from) && SameJob(from.l.job, attemptsMade, attempts)
      requires from.l.job.data.payload == ForExport(exportId)
      modifies exportRecords, deadLetters
      ensures b == FromCatch(k, from, c) && Holds(k, b) && b.l.job.stage == Active(Throwing)
      ensures if attemptsMade + 1 >= attempts && c.handle != LostBefore
              then FailedInstead(old(exportRecords.exports), exportRecords.exports, exportId)
              else exportRecords.exports == old(exportRecords.exports)
      ensures deadLetters.letters == if (attemptsMade + 1 >= attempts && c.handle == Applied && c.bury != LostBefore
                                         && k !in old(deadLetters.letters))
                                     then old(deadLetters.letters)[k := attemptsMade + 1] else old(deadLetters.letters)
    {
      b := Advance(k, from, HandleError(c.handle));
      if attemptsMade + 1 >= attempts {
        if c.handle != LostBefore {
          exportRecords.Fail(exportId);
        }
        if c.handle == Applied {
          b := BuryJob(k, attemptsMade, attempts, c, b);
          return;
        }
      }
      NotNext(k, b, Bury(c.bury));
    }

    method BuryJob(k: JobKey, attemptsMade: nat, attempts: nat, c: Calls, ghost from: Attempted)
      returns (ghost b: Attempted)
      requires from.l.job.stage == Active(Burying) && Holds(k, from) && SameJob(from.l.job, attemptsMade, attempts)
      modifies deadLetters
      ensures Holds(k, b) && b == Advance(k, from, Bury(c.bury)) && b.l.job.stage == Active(Throwing)
      ensures deadLetters.letters == if c.bury != LostBefore && k !in old(deadLetters.letters)
                                     then old(deadLetters.letters)[k := attemptsMade + 1] else old(deadLetters.letters)
    {
      b := Advance(k, from, Bury(c.bury));
      if c.bury != LostBefore {
        deadLetters.MoveToDeadLetterQueue(k, attemptsMade + 1);
      }
    }
  }

  // ------------------------------------------------ when an attempt succeeds

  /** All calls of the try block go well. */
  predicate TryGoesWell(k: JobKey, c: Calls, hasRecord: bool) {
    && (k.queue != WEBHOOK ==> c.find && hasRecord && c.start == Applied && c.settle == Applied)
    && c.body && (Guarded(k.queue) ==> c.mark == Applied)
  }

  lemma CatchThrows(k: JobKey, a: Attempted, c: Calls)
    requires a.l.job.stage == Active(Catching)
    ensures FromCatch(k, a, c).l.job.stage == Active(Throwing)
  {
  }

  lemma MarkReturns(k: JobKey, a: Attempted, c: Calls)
    requires a.l.job.stage == Active(Marking) && !a.l.processed
    ensures FromMark(k, a, c).l.job.stage == Active(if c.mark == Applied then Returning else Throwing)
  {
    var b := Advance(k, a, MarkProcessed(c.mark));
    if c.mark == Applied { OverInCatch(k, b, c); } else { CatchThrows(k, b, c); }
  }

  lemma BodyReturns(k: JobKey, a: Attempted, c: Calls)
    requires a.l.job.stage == Active(Working) && !a.l.processed
    ensures var well := c.body && (k.queue != WEBHOOK ==> c.settle == Applied) && (Guarded(k.queue) ==> c.mark == Applied);
            FromBody(k, a, c).l.job.stage == Active(if well then Returning else Throwing)
  {
    var b := Advance(k, a, RunBody(c.body));
    if !c.body {
      Caught(k, b, c);
      CatchThrows(k, b, c);
    } else if k.queue == WEBHOOK {
      WebhookSkips(k, b, c);
      MarkReturns(k, b, c);
    } else {
      SettleReturns(k, b, c);
    }
  }

  lemma SettleReturns(k: JobKey, a: Attempted, c: Calls)
    requires a.l.job.stage == Active(Settling) && !a.l.processed && k.queue != WEBHOOK
    ensures var well := c.settle == Applied && (Guarded(k.queue) ==> c.mark == Applied);
            FromSettle(k, a, c).l.job.stage == Active(if well then Returning else Throwing)
  {
    var b := Advance(k, a, SettleRecord(c.file, c.settle));
    if c.settle != Applied {
      Caught(k, b, c);
      CatchThrows(k, b, c);
    } else if Guarded(k.queue) {
      MarkReturns(k, b, c);
    } else {
      OverInCatch(k, b, c);
    }
  }

  lemma FindReturns(k: JobKey, a: Attempted, c: Calls, hasRecord: bool)
    requires a.l.job.stage == Active(Finding) && !a.l.processed && k.queue != WEBHOOK
    requires hasRecord == if k.queue == EXPORT then k.id in a.exports else k.id in a.mails
    ensures FromFind(k, a, c).l.job.stage == Active(if TryGoesWell(k, c, hasRecord) then Returning else Throwing)
  {
    var b := Advance(k, a, FindRecord(c.find));
    if !(c.find && hasRecord) {
      if k.queue == EXPORT {
        Caught(k, b, c);
        CatchThrows(k, b, c);
      } else {
        OverStays(k, b, c);
      }
    } else {
      StartReturns(k, b, c);
    }
  }

  lemma StartReturns(k: JobKey, a: Attempted, c: Calls)
    requires a.l.job.stage == Active(Starting) && !a.l.processed && k.queue != WEBHOOK
    ensures var well := c.start == Applied && c.body && c.settle == Applied && (Guarded(k.queue) ==> c.mark == Applied);
            FromStart(k, a, c).l.job.stage == Active(if well then Returning else Throwing)
  {
    var b := Advance(k, a, MarkStarted(c.start));
    if c.start != Applied {
      Caught(k, b, c);
      CatchThrows(k, b, c);
    } else {
      BodyReturns(k, b, c);
    }
  }

  /** An attempt of a guarded job returns without an error exactly when the check works
      and finds the event processed, or all calls of the try block go well. */
  lemma AttemptReturns(k: JobKey, a: Attempted, c: Calls, hasRecord: bool)
    requires a.l.job.stage == Active(Checking) && Guarded(k.queue)
    requires hasRecord == if k.queue == EXPORT then k.id in a.exports else k.id in a.mails
    ensures var succeeds := c.check && (a.l.processed || TryGoesWell(k, c, hasRecord));
            FromCheck(k, a, c).l.job.stage == Active(if succeeds then Returning else Throwing)
  {
    var b := Advance(k, a, CheckProcessed(c.check));
    if !c.check {
      if k.queue == WEBHOOK {
        Caught(k, b, c);
        CatchThrows(k, b, c);
      } else {
        OverStays(k, b, c);
      }
    } else if a.l.processed {
      OverStays(k, b, c);
    } else if k.queue == WEBHOOK {
      WebhookSkips(k, b, c);
      BodyReturns(k, b, c);
    } else {
      FindReturns(k, b, c, hasRecord);
    }
  }
}
