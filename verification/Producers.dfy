/** The producers of events as the code runs them: record first, then the event, then,
    for a reminder, the task's flag. Every run is a path of the pipeline's machine. */
module Producers {
  import opened Common
  import opened Outbox
  import opened Pipeline

  // ------------------------------------------------ paths of the machine

  function After(w: World, es: seq<ProduceEvent>): World {
    if es == [] then w else OnProduce(After(w, es[..|es| - 1]), es[|es| - 1])
  }

  ghost predicate Produced(w: World, v: World) {
    exists es: seq<ProduceEvent> :: v == After(w, es)
  }

  lemma NothingProduced(w: World)
    ensures Produced(w, w)
  {
    assert w == After(w, []);
  }

  lemma OneMore(w: World, v: World, e: ProduceEvent)
    requires Produced(w, v)
    ensures Produced(w, OnProduce(v, e))
  {
    var es :| v == After(w, es);
    assert (es + [e])[..|es|] == es;
    assert OnProduce(v, e) == After(w, es + [e]);
  }

  lemma {:induction false} PathsJoin(a: World, es: seq<ProduceEvent>, fs: seq<ProduceEvent>)
    ensures After(After(a, es), fs) == After(a, es + fs)
  {
    if fs == [] {
      assert es + fs == es;
    } else {
      assert (es + fs)[..|es + fs| - 1] == es + fs[..|fs| - 1];
      PathsJoin(a, es, fs[..|fs| - 1]);
    }
  }

  lemma MorePath(a: World, b: World, c: World)
    requires Produced(a, b) && Produced(b, c)
    ensures Produced(a, c)
  {
    var es: seq<ProduceEvent> :| b == After(a, es);
    var fs: seq<ProduceEvent> :| c == After(b, fs);
    PathsJoin(a, es, fs);
  }

  // ------------------------------------------------ the services

  /** A task due for a reminder, whether it passes the checks, and how the calls go. */
  datatype Due = Due(task: nat, workspace: Option<nat>, enabled: bool, record: Outcome, emit: Outcome, flag: Outcome)

  /** The reminder goes all the way: the task has a workspace, reminders and mail are
      enabled there, its owner has an address, and its own calls do not fail. */
  predicate Flags(d: Due) {
    d.workspace.Some? && d.enabled && d.record == Applied && d.emit == Applied && d.flag != LostBefore
  }

  function Flagged(due: seq<Due>): set<nat> {
    if due == [] then {}
    else Flagged(due[..|due| - 1]) + (if Flags(due[|due| - 1]) then {due[|due| - 1].task} else {})
  }

  lemma {:induction false} FlaggedIs(due: seq<Due>, task: nat)
    ensures task in Flagged(due) <==> exists i :: 0 <= i < |due| && Flags(due[i]) && due[i].task == task
  {
    if due != [] {
      FlaggedIs(due[..|due| - 1], task);
      if Flags(due[|due| - 1]) && due[|due| - 1].task == task {
      } else if i :| 0 <= i < |due| && Flags(due[i]) && due[i].task == task {
        assert due[..|due| - 1][i] == due[i];
      }
    }
  }

  class ProducerService {
    /** This process. */
    const self: nat
    var events: Events
    var mails: map<nat, MailStatus>
    var exports: map<nat, Export>
    var reminded: set<nat>
    /** The machine's state, of which the stores are a part. */
    ghost var world: World

    ghost predicate Valid()
      reads this
    {
      Mirrors() && self !in world.producers
    }

    /** Ids from here on are not in use. */
    ghost predicate Free(id: nat)
      reads this
    {
      forall i :: id <= i ==> i !in world.ids
    }

    constructor (self: nat)
      ensures Valid() && world == INIT
    {
      this.self := self;
      events, mails, exports, reminded := map[], map[], map[], {};
      world := INIT;
    }

    ghost predicate Mirrors()
      reads this
    {
      events == world.events && mails == world.mails && exports == world.exports && reminded == world.reminded
    }

    /** The event of a recorded mail. */
    method Emit(id: nat, mail: Mail, text: string, now: int)
      requires Mirrors() && self in world.producers && world.producers[self] == Recorded(id, mail)
      modifies `events, `world
      ensures Mirrors() && world == OnEmitMail(old(world), self, text, now) && world.ids == old(world).ids
      ensures events == old(events)[id := NewEvent(MailEventType(mail), MailAggregate(mail), MailWorkspace(mail), Plain(text), now)]
      ensures if mail.ForReminder? then self in world.producers && world.producers[self] == Emitted(mail.task)
              else self !in world.producers
    {
      world := OnEmitMail(world, self, text, now);
      events := events[id := NewEvent(MailEventType(mail), MailAggregate(mail), MailWorkspace(mail), Plain(text), now)];
    }

    /** This call of the producer is over. */
    ghost method Stop()
      requires Mirrors()
      modifies `world
      ensures Mirrors() && world == OnProduce(old(world), StopProducer(self)) && world.ids == old(world).ids
      ensures self !in world.producers
    {
      world := OnProduce(world, StopProducer(self));
    }

    /** Delivery record, then event; `ok` is false where a call throws. */
    method RecordAndEmit(id: nat, mail: Mail, text: string, now: int, record: Outcome, emit: Outcome) returns (ok: bool)
      requires Valid() && Free(id)
      modifies this
      ensures Produced(old(world), world) && Free(id + 1)
      ensures reminded == old(reminded) && exports == old(exports)
      ensures Mirrors() && (ok <==> record == Applied && emit == Applied)
      ensures if ok && mail.ForReminder? then self in world.producers && world.producers[self] == Emitted(mail.task)
              else self !in world.producers
      ensures record == Applied && emit != LostBefore ==>
                events == old(events)[id := OutboxEvent(if mail.ForReminder? then "REMINDER_DUE" else "EMAIL_REQUESTED",
                                                        if mail.ForReminder? then mail.task else mail.user,
                                                        if mail.ForReminder? then Some(mail.workspace) else None,
                                                        Plain(text), PENDING, 0, now, None, None, None)]
      ensures record != Applied || emit == LostBefore ==> events == old(events)
      ensures mails == if record != LostBefore then old(mails)[id := MailQueued] else old(mails)
    {
      NothingProduced(world);
      ok := record == Applied && emit == Applied;
      if record != LostBefore {
        OneMore(old(world), world, RecordMail(self, id, mail));
        world := OnRecordMail(world, self, id, mail);
        mails := mails[id := MailQueued];
        if record == Applied && emit != LostBefore {
          OneMore(old(world), world, EmitMail(self, text, now));
          Emit(id, mail, text, now);
        }
        if !ok {
          OneMore(old(world), world, StopProducer(self));
          Stop();
        }
      }
    }

    /** One turn of the reminder loop; whatever fails is caught. */
    method Remind(d: Due, id: nat, text: string, now: int)
      requires Valid() && Free(id)
      modifies this
      ensures Valid() && Free(id + 1) && Produced(old(world), world)
      ensures reminded == (if d.workspace.Some? && d.enabled && d.record == Applied && d.emit == Applied && d.flag != LostBefore
                           then old(reminded) + {d.task} else old(reminded))
      ensures mails == (if d.workspace.Some? && d.enabled && d.record != LostBefore then old(mails)[id := MailQueued] else old(mails))
      ensures events == (if d.workspace.Some? && d.enabled && d.record == Applied && d.emit != LostBefore
                         then old(events)[id := OutboxEvent("REMINDER_DUE", d.task, d.workspace, Plain(text), PENDING, 0, now,
                                                            None, None, None)]
                         else old(events))
    {
      NothingProduced(world);
      if d.workspace.None? || !d.enabled {
        return;
      }
      ghost var before := world;
      var ok := RecordAndEmit(id, ForReminder(d.task, d.workspace.value), text, now, d.record, d.emit);
      if ok {
        if d.flag != LostBefore {
          OneMore(before, world, FlagTask(self));
          world := OnFlagTask(world, self);
          reminded := reminded + {d.task};
        }
        OneMore(before, world, StopProducer(self));
        Stop();
      }
    }

    /** The pass over the tasks due: each is flagged exactly when its own checks and
        calls allow it, whatever happens to the others. */
    method HandleCron(due: seq<Due>, free: nat, text: string, now: int)
      requires Valid() && Free(free)
      modifies this
      ensures Valid() && Free(free + |due|) && Produced(old(world), world)
      ensures reminded == old(reminded) + Flagged(due)
      ensures forall task :: task in reminded <==>
                task in old(reminded)
                || exists i :: 0 <= i < |due| && due[i].task == task && due[i].workspace.Some? && due[i].enabled
                               && due[i].record == Applied && due[i].emit == Applied && due[i].flag != LostBefore
    {
      NothingProduced(world);
      forall task ensures task in Flagged(due) <==> exists i :: 0 <= i < |due| && Flags(due[i]) && due[i].task == task {
        FlaggedIs(due, task);
      }
      for i := 0 to |due|
        invariant Valid() && Free(free + i) && Produced(old(world), world)
        invariant reminded == old(reminded) + Flagged(due[..i])
      {
        ghost var before := world;
        Remind(due[i], free + i, text, now);
        MorePath(old(world), before, world);
        assert due[..i + 1][..i] == due[..i];
      }
      assert due[..|due|] == due;
    }

    /** The mail part of registering a user and of asking for a new password; `ok` is
        false where the handler throws. */
    method SendAccountMail(user: nat, id: nat, text: string, now: int, record: Outcome, emit: Outcome) returns (ok: bool)
      requires Valid() && Free(id)
      modifies this
      ensures Valid() && Free(id + 1) && Produced(old(world), world)
      ensures ok <==> record == Applied && emit == Applied
      ensures mails == if record != LostBefore then old(mails)[id := MailQueued] else old(mails)
      ensures events == if record == Applied && emit != LostBefore
                        then old(events)[id := OutboxEvent("EMAIL_REQUESTED", user, None, Plain(text), PENDING, 0, now, None, None, None)]
                        else old(events)
    {
      ok := RecordAndEmit(id, ForAccount(user), text, now, record, emit);
    }

    /** Export record and event in one transaction. */
    method RequestExport(exportId: nat, id: nat, workspace: nat, now: int, commit: Outcome) returns (ok: bool)
      requires Valid() && Free(exportId) && id == exportId + 1
      modifies this
      ensures Valid() && Free(id + 1) && Produced(old(world), world)
      ensures ok <==> commit == Applied
      ensures commit != LostBefore ==>
                && exports == old(exports)[id := Export(exportId, ExportQueued, None)]
                && events == old(events)[id := OutboxEvent("EXPORT_REQUESTED", workspace, Some(workspace), ForExport(exportId), PENDING, 0,
                                                           now, None, None, None)]
      ensures commit == LostBefore ==> exports == old(exports) && events == old(events)
    {
      NothingProduced(world);
      if commit != LostBefore {
        OneMore(world, world, ProduceEvent.RequestExport(exportId, id, workspace, now));
        world := OnRequestExport(world, exportId, id, workspace, now);
        exports := exports[id := Export(exportId, ExportQueued, None)];
        events := events[id := NewEvent("EXPORT_REQUESTED", workspace, Some(workspace), ForExport(exportId), now)];
      }
      ok := commit == Applied;
    }
  }
}
