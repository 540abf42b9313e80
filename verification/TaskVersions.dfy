/** Concurrent writers of tasks: each loads a document, changes its copy, and saves
    what it changed against the version it loaded. */
module TaskVersions {
  import opened Common

  // ------------------------------------------------ documents

  /** Dates, lists and referenced documents are compared by identity: never the same. */
  datatype Value = Text(text: string) | Reference(text: string)

  type Fields = map<string, Value>

  datatype Attachment = Attachment(id: nat, url: string)

  datatype Comment = Comment(author: nat, body: string)

  datatype Task = Task(
    fields: Fields, comments: seq<Comment>, attachments: seq<Attachment>, assignees: seq<nat>,
    deletedAt: Option<int>, reminderSent: bool, v: nat)

  /** The fields of a PATCH request; one may be present without a value. */
  type Dto = seq<(string, Option<Value>)>

  predicate DistinctKeys(dto: Dto) { forall i, j :: 0 <= i < j < |dto| ==> dto[i].0 != dto[j].0 }

  datatype Change =
    | Patch(dto: Dto)
    | AddComment(comment: Comment)
    | AddAttachment(attachment: Attachment)
    | RemoveAttachment(id: nat)
    | Assign(users: seq<nat>)
    | SoftDelete(at: int)

  /** `Object.assign` of the entries that have a value. */
  function Assigned(fields: Fields, dto: Dto): Fields {
    if dto == [] then fields
    else
      var before := Assigned(fields, dto[..|dto| - 1]);
      var (key, value) := dto[|dto| - 1];
      if value.Some? then before[key := value.value] else before
  }

  function Without(attachments: seq<Attachment>, id: nat): seq<Attachment> {
    if attachments == [] then []
    else
      var before := Without(attachments[..|attachments| - 1], id);
      if attachments[|attachments| - 1].id == id then before else before + [attachments[|attachments| - 1]]
  }

  /** What a writer does to its copy. */
  function Changed(t: Task, c: Change): Task {
    match c
    case Patch(dto) => t.(fields := Assigned(t.fields, dto))
    case AddComment(comment) => t.(comments := t.comments + [comment])
    case AddAttachment(attachment) => t.(attachments := t.attachments + [attachment])
    case RemoveAttachment(id) => t.(attachments := Without(t.attachments, id))
    case Assign(users) => t.(assignees := users)
    case SoftDelete(at) => t.(deletedAt := Some(at))
  }

  /** What a save writes: the fields in which the copy differs from what was loaded,
      and the next version. */
  function Merged(stored: Task, loaded: Task, copy: Task): Task {
    Task(
      MergedFields(stored.fields, loaded.fields, copy.fields),
      if copy.comments != loaded.comments then copy.comments else stored.comments,
      if copy.attachments != loaded.attachments then copy.attachments else stored.attachments,
      if copy.assignees != loaded.assignees then copy.assignees else stored.assignees,
      if copy.deletedAt != loaded.deletedAt then copy.deletedAt else stored.deletedAt,
      if copy.reminderSent != loaded.reminderSent then copy.reminderSent else stored.reminderSent,
      stored.v + 1)
  }

  predicate SameField(a: Fields, b: Fields, key: string) {
    (key in a <==> key in b) && (key in a ==> a[key] == b[key])
  }

  function MergedFields(stored: Fields, loaded: Fields, copy: Fields): Fields {
    map key | key in stored.Keys + copy.Keys && (key in copy || SameField(loaded, copy, key)) ::
      if key in stored && SameField(loaded, copy, key) then stored[key] else if key in copy then copy[key] else stored[key]
  }

  // ------------------------------------------------ clients

  type Tasks = map<nat, Task>

  datatype Request = Request(id: nat, change: Change, ifMatch: Option<nat>)

  datatype Answer = Success(task: Task) | NotFound | PreconditionFailed | Error

  /** `Saved`: which client's change, of which task, against which version. `Reminded`
      is the reminder flag, set without a version. */
  datatype Entry = Saved(client: nat, id: nat, version: nat, change: Change) | Reminded(id: nat)

  /** `created`, `log`, `requests`, `loaded` and `answers` are history; a client is
      one call of one writer. */
  datatype State = State(
    tasks: Tasks, created: Tasks, log: seq<Entry>, requests: map<nat, Request>, loaded: map<nat, Task>, answers: map<nat, Answer>)

  const INIT := State(map[], map[], [], map[], map[], map[])

  datatype Event =
    | Create(id: nat, task: Task)
    | Load(client: nat, request: Request)
    | Save(client: nat, outcome: Outcome)
    | Remind(id: nat)

  function OnCreate(s: State, id: nat, task: Task): State {
    if id in s.created || task.v != 0 then s
    else s.(tasks := s.tasks[id := task], created := s.created[id := task])
  }

  /** The PATCH and delete handlers look for tasks not deleted; the others load by id. */
  predicate Loads(tasks: Tasks, request: Request) {
    && request.id in tasks
    && (request.change.Patch? || request.change.SoftDelete? ==> tasks[request.id].deletedAt.None?)
    && (request.change.RemoveAttachment? ==>
          exists i :: 0 <= i < |tasks[request.id].attachments| && tasks[request.id].attachments[i].id == request.change.id)
  }

  function Refusal(tasks: Tasks, request: Request): Option<Answer> {
    if !Loads(tasks, request) then Some(NotFound)
    else if request.ifMatch.Some? && tasks[request.id].v != request.ifMatch.value then Some(PreconditionFailed)
    else None
  }

  function OnLoad(s: State, client: nat, request: Request): State {
    if client in s.requests || client in s.answers || client in s.loaded then s
    else
      var asked := s.(requests := s.requests[client := request]);
      match Refusal(s.tasks, request)
      case Some(answer) => asked.(answers := s.answers[client := answer])
      case None => asked.(loaded := s.loaded[client := s.tasks[request.id]])
  }

  predicate Saving(s: State, client: nat) {
    client in s.requests && client in s.loaded && client !in s.answers && s.requests[client].id in s.tasks
  }

  function Copy(s: State, client: nat): Task
    requires Saving(s, client)
  {
    Changed(s.loaded[client], s.requests[client].change)
  }

  predicate Commits(s: State, client: nat, outcome: Outcome) {
    && Saving(s, client) && outcome != LostBefore && Copy(s, client) != s.loaded[client]
    && s.tasks[s.requests[client].id].v == s.loaded[client].v
  }

  function SaveAnswer(s: State, client: nat, outcome: Outcome): Answer
    requires Saving(s, client)
  {
    var loaded, copy := s.loaded[client], Copy(s, client);
    if outcome != Applied && (copy != loaded || s.requests[client].change.Patch?) then Error
    else if copy == loaded then Success(copy)
    else if s.tasks[s.requests[client].id].v == loaded.v then Success(copy.(v := loaded.v + 1))
    else if s.requests[client].ifMatch.Some? then PreconditionFailed
    else Error
  }

  /** A copy without changes is not written; a write whose version is gone throws. A
      PATCH saves in a transaction, which may throw even then. */
  function OnSave(s: State, client: nat, outcome: Outcome): State {
    if !Saving(s, client) then s
    else
      var r := s.requests[client];
      var saved := if Commits(s, client, outcome)
                   then s.(tasks := s.tasks[r.id := Merged(s.tasks[r.id], s.loaded[client], Copy(s, client))],
                           log := s.log + [Saved(client, r.id, s.loaded[client].v, r.change)])
                   else s;
      saved.(answers := s.answers[client := SaveAnswer(s, client, outcome)])
  }

  function OnRemind(s: State, id: nat): State {
    if id !in s.tasks then s
    else s.(tasks := s.tasks[id := s.tasks[id].(reminderSent := true)], log := s.log + [Reminded(id)])
  }

  function Step(s: State, e: Event): State {
    match e
    case Create(id, task) => OnCreate(s, id, task)
    case Load(client, request) => OnLoad(s, client, request)
    case Save(client, outcome) => OnSave(s, client, outcome)
    case Remind(id) => OnRemind(s, id)
  }

  function Run(s: State, es: seq<Event>): State {
    if es == [] then s else Step(Run(s, es[..|es| - 1]), es[|es| - 1])
  }

  ghost predicate Reachable(s: State) { exists es :: s == Run(INIT, es) }

  // ------------------------------------------------ replaying the log

  function Performed(t: Task, id: nat, e: Entry): Task {
    if e.id != id then t
    else match e case Saved(_, _, _, change) => Changed(t, change).(v := t.v + 1) case Reminded(_) => t.(reminderSent := true)
  }

  /** A task with the logged changes performed on it, oldest first. */
  function Replay(t: Task, id: nat, log: seq<Entry>): Task {
    if log == [] then t else Performed(Replay(t, id, log[..|log| - 1]), id, log[|log| - 1])
  }

  lemma ReplayAppends(t: Task, id: nat, log: seq<Entry>, e: Entry)
    ensures Replay(t, id, log + [e]) == Performed(Replay(t, id, log), id, e)
  {
    assert (log + [e])[..|log|] == log;
  }

  lemma {:induction false} VersionsGrow(t: Task, id: nat, log: seq<Entry>, i: nat, j: nat)
    requires i <= j <= |log|
    ensures Replay(t, id, log[..i]).v <= Replay(t, id, log[..j]).v
    ensures i < j && log[i].Saved? && log[i].id == id ==> Replay(t, id, log[..i]).v < Replay(t, id, log[..j]).v
  {
    if i < j {
      VersionsGrow(t, id, log, i, j - 1);
      assert log[..j] == log[..j - 1] + [log[j - 1]];
      ReplayAppends(t, id, log[..j - 1], log[j - 1]);
    }
  }

  // ------------------------------------------------ a save performs its change

  /** Equal but for the reminder flag, which no version guards. */
  predicate SameVersioned(a: Task, b: Task) { a.(reminderSent := b.reminderSent) == b }

  lemma MergedFieldsOfSame(fields: Fields, copy: Fields)
    requires fields.Keys <= copy.Keys
    ensures MergedFields(fields, fields, copy) == copy
  {
  }

  lemma {:induction false} AssignedKeeps(fields: Fields, dto: Dto)
    ensures fields.Keys <= Assigned(fields, dto).Keys
  {
    if dto != [] { AssignedKeeps(fields, dto[..|dto| - 1]); }
  }

  /** Saving the difference between copy and loaded onto a task of the same version is
      performing the change on it. */
  lemma SavePerforms(stored: Task, loaded: Task, change: Change)
    requires SameVersioned(loaded, stored)
    ensures Merged(stored, loaded, Changed(loaded, change)) == Changed(stored, change).(v := stored.v + 1)
    ensures SameVersioned(Changed(loaded, change), Changed(stored, change))
  {
    match change
    case Patch(dto) =>
      AssignedKeeps(loaded.fields, dto);
      MergedFieldsOfSame(loaded.fields, Assigned(loaded.fields, dto));
    case _ => MergedFieldsOfSame(loaded.fields, loaded.fields);
  }

  lemma MergedOfSame(task: Task, dto: Dto)
    ensures Merged(task, task, Changed(task, Patch(dto))) == Changed(task, Patch(dto)).(v := task.v + 1)
  {
    AssignedKeeps(task.fields, dto);
    MergedFieldsOfSame(task.fields, Assigned(task.fields, dto));
  }

  // ------------------------------------------------ invariant

  ghost predicate TasksReplayed(s: State) {
    && s.tasks.Keys == s.created.Keys
    && forall id :: id in s.tasks ==> s.created[id].v == 0 && s.tasks[id] == Replay(s.created[id], id, s.log)
  }

  /** A client's copy is of the past: while the version is still there, so is the rest. */
  ghost predicate LoadedSound(s: State, c: nat) {
    c in s.loaded ==>
      && c in s.requests && s.requests[c].id in s.tasks && s.loaded[c].v <= s.tasks[s.requests[c].id].v
      && (s.loaded[c].v == s.tasks[s.requests[c].id].v ==> SameVersioned(s.loaded[c], s.tasks[s.requests[c].id]))
      && (s.requests[c].ifMatch.Some? ==> s.loaded[c].v == s.requests[c].ifMatch.value)
  }

  ghost predicate Consumes(s: State, i: nat)
    requires i < |s.log|
  {
    s.log[i].id in s.created && (s.log[i].Saved? ==> s.log[i].version == Replay(s.created[s.log[i].id], s.log[i].id, s.log[..i]).v)
  }

  ghost predicate LogSound(s: State) { forall i :: 0 <= i < |s.log| ==> Consumes(s, i) }

  /** A success is a change in the log, or a copy that had none. */
  ghost predicate Explains(s: State, c: nat, i: nat) {
    && i < |s.log| && c in s.requests && c in s.loaded && s.requests[c].id in s.created
    && var r := s.requests[c];
       && s.log[i] == Saved(c, r.id, s.loaded[c].v, r.change)
       && c in s.answers && s.answers[c].Success?
       && SameVersioned(s.answers[c].task, Replay(s.created[r.id], r.id, s.log[..i + 1]))
  }

  ghost predicate Unmodifying(s: State, c: nat) {
    && c in s.requests && c in s.loaded && Changed(s.loaded[c], s.requests[c].change) == s.loaded[c]
    && c in s.answers && s.answers[c] == Success(s.loaded[c])
  }

  ghost predicate Explained(s: State, c: nat) {
    c in s.answers && s.answers[c].Success? ==> Unmodifying(s, c) || exists i: nat :: Explains(s, c, i)
  }

  ghost predicate Inv(s: State) {
    TasksReplayed(s) && LogSound(s) && forall c :: LoadedSound(s, c) && Explained(s, c)
  }

  // ------------------------------------------------ steps

  ghost predicate Extends(s: State, t: State) {
    && s.log <= t.log
    && (forall c :: c in s.requests ==> c in t.requests && t.requests[c] == s.requests[c])
    && (forall c :: c in s.loaded ==> c in t.loaded && t.loaded[c] == s.loaded[c])
    && (forall c :: c in s.answers ==> c in t.answers && t.answers[c] == s.answers[c])
    && (forall id :: id in s.created ==> id in t.created && t.created[id] == s.created[id])
  }

  lemma SaveExtends(s: State, client: nat, outcome: Outcome)
    ensures Extends(s, OnSave(s, client, outcome))
  {
  }

  lemma StepExtends(s: State, e: Event)
    ensures Extends(s, Step(s, e))
  {
    if e.Save? { SaveExtends(s, e.client, e.outcome); }
  }

  lemma ConsumesFollows(s: State, t: State, i: nat)
    requires Extends(s, t) && i < |s.log| && Consumes(s, i)
    ensures Consumes(t, i)
  {
    assert t.log[..i] == s.log[..i];
  }

  lemma ExplainedFollows(s: State, t: State, c: nat)
    requires Extends(s, t) && Explained(s, c) && (c in s.answers <==> c in t.answers)
    ensures Explained(t, c)
  {
    if c in s.answers && s.answers[c].Success? && !Unmodifying(s, c) {
      var i: nat :| Explains(s, c, i);
      assert t.log[..i + 1] == s.log[..i + 1];
      assert Explains(t, c, i);
    }
  }

  lemma {:induction false} UnloggedUnchanged(t: Task, id: nat, log: seq<Entry>)
    requires forall i :: 0 <= i < |log| ==> log[i].id != id
    ensures Replay(t, id, log) == t
  {
    if log != [] { UnloggedUnchanged(t, id, log[..|log| - 1]); }
  }

  lemma LogFollows(s: State, t: State)
    requires Extends(s, t) && LogSound(s) && t.log == s.log
    ensures LogSound(t)
  {
    forall i | 0 <= i < |t.log| ensures Consumes(t, i) { ConsumesFollows(s, t, i); }
  }

  lemma CreateKeepsInv(s: State, id: nat, task: Task)
    requires Inv(s)
    ensures Inv(OnCreate(s, id, task))
  {
    var t := OnCreate(s, id, task);
    if t != s {
      StepExtends(s, Create(id, task));
      LogFollows(s, t);
      forall i | 0 <= i < |s.log| ensures s.log[i].id != id { assert Consumes(s, i); }
      UnloggedUnchanged(task, id, s.log);
      forall c ensures LoadedSound(t, c) && Explained(t, c) {
        assert LoadedSound(s, c);
        ExplainedFollows(s, t, c);
      }
    }
  }

  lemma LoadKeepsInv(s: State, client: nat, request: Request)
    requires Inv(s)
    ensures Inv(OnLoad(s, client, request))
  {
    var t := OnLoad(s, client, request);
    if t != s {
      StepExtends(s, Load(client, request));
      LogFollows(s, t);
      forall c ensures LoadedSound(t, c) && Explained(t, c) {
        assert LoadedSound(s, c);
        if c != client { ExplainedFollows(s, t, c); } else { NewlyLoaded(s, client, request); }
      }
    }
  }

  lemma NewlyLoaded(s: State, client: nat, request: Request)
    requires OnLoad(s, client, request) != s
    ensures LoadedSound(OnLoad(s, client, request), client) && Explained(OnLoad(s, client, request), client)
  {
  }

  lemma RemindReplays(s: State, id: nat)
    requires TasksReplayed(s)
    ensures TasksReplayed(OnRemind(s, id))
  {
    var t := OnRemind(s, id);
    if t != s {
      forall i | i in t.tasks ensures t.tasks[i] == Replay(t.created[i], i, t.log) {
        ReplayAppends(s.created[i], i, s.log, Reminded(id));
      }
    }
  }

  lemma RemindLogs(s: State, id: nat)
    requires TasksReplayed(s) && LogSound(s)
    ensures LogSound(OnRemind(s, id))
  {
    var t := OnRemind(s, id);
    if t != s {
      StepExtends(s, Remind(id));
      forall i | 0 <= i < |t.log| ensures Consumes(t, i) {
        if i < |s.log| { ConsumesFollows(s, t, i); }
      }
    }
  }

  lemma RemindKeepsLoaded(s: State, id: nat, c: nat)
    requires LoadedSound(s, c)
    ensures LoadedSound(OnRemind(s, id), c)
  {
  }

  lemma RemindKeepsInv(s: State, id: nat)
    requires Inv(s)
    ensures Inv(OnRemind(s, id))
  {
    StepExtends(s, Remind(id));
    RemindReplays(s, id);
    RemindLogs(s, id);
    forall c ensures LoadedSound(OnRemind(s, id), c) && Explained(OnRemind(s, id), c) {
      RemindKeepsLoaded(s, id, c);
      ExplainedFollows(s, OnRemind(s, id), c);
    }
  }

  /** A save that writes. */
  lemma CommitReplays(s: State, client: nat, outcome: Outcome)
    requires Inv(s) && Commits(s, client, outcome)
    ensures TasksReplayed(OnSave(s, client, outcome))
  {
    var t, r := OnSave(s, client, outcome), s.requests[client];
    assert LoadedSound(s, client);
    SavePerforms(s.tasks[r.id], s.loaded[client], r.change);
    forall id | id in t.tasks ensures t.tasks[id] == Replay(t.created[id], id, t.log) {
      ReplayAppends(s.created[id], id, s.log, Saved(client, r.id, s.loaded[client].v, r.change));
    }
  }

  lemma CommitLogs(s: State, client: nat, outcome: Outcome)
    requires Inv(s) && Commits(s, client, outcome)
    ensures LogSound(OnSave(s, client, outcome))
  {
    var t := OnSave(s, client, outcome);
    StepExtends(s, Save(client, outcome));
    forall i | 0 <= i < |t.log| ensures Consumes(t, i) {
      if i < |s.log| { ConsumesFollows(s, t, i); } else { assert t.log[..i] == s.log; }
    }
  }

  lemma CommitExplained(s: State, client: nat, outcome: Outcome)
    requires Inv(s) && Commits(s, client, outcome)
    ensures Explained(OnSave(s, client, outcome), client)
  {
    var t, r := OnSave(s, client, outcome), s.requests[client];
    assert LoadedSound(s, client);
    SavePerforms(s.tasks[r.id], s.loaded[client], r.change);
    ReplayAppends(s.created[r.id], r.id, s.log, Saved(client, r.id, s.loaded[client].v, r.change));
    assert t.log[..|s.log| + 1] == t.log;
    if outcome == Applied {
      assert Explains(t, client, |s.log|);
    }
  }

  lemma CommitKeepsLoaded(s: State, client: nat, outcome: Outcome, c: nat)
    requires Commits(s, client, outcome) && LoadedSound(s, c)
    ensures LoadedSound(OnSave(s, client, outcome), c)
  {
  }

  lemma SaveKeepsInv(s: State, client: nat, outcome: Outcome)
    requires Inv(s)
    ensures Inv(OnSave(s, client, outcome))
  {
    if Saving(s, client) {
      var t := OnSave(s, client, outcome);
      StepExtends(s, Save(client, outcome));
      if Commits(s, client, outcome) {
        CommitReplays(s, client, outcome);
        CommitLogs(s, client, outcome);
        CommitExplained(s, client, outcome);
      } else {
        LogFollows(s, t);
      }
      forall c ensures LoadedSound(t, c) && Explained(t, c) {
        assert LoadedSound(s, c);
        if Commits(s, client, outcome) { CommitKeepsLoaded(s, client, outcome, c); }
        if c != client { ExplainedFollows(s, t, c); }
      }
    }
  }

  lemma {:induction false} RunKeepsInv(es: seq<Event>)
    ensures Inv(Run(INIT, es))
  {
    if es != [] {
      var s := Run(INIT, es[..|es| - 1]);
      RunKeepsInv(es[..|es| - 1]);
      match es[|es| - 1]
      case Create(id, task) => CreateKeepsInv(s, id, task);
      case Load(client, request) => LoadKeepsInv(s, client, request);
      case Save(client, outcome) => SaveKeepsInv(s, client, outcome);
      case Remind(id) => RemindKeepsInv(s, id);
    }
  }

  lemma ReachableInv(s: State)
    requires Reachable(s)
    ensures Inv(s)
  {
    var es :| s == Run(INIT, es);
    RunKeepsInv(es);
  }

  // ------------------------------------------------ main results

  /** In every interleaving of patches, comments, attachments, assignments, deletions
      and reminders, a stored task is the created one with every committed change
      performed in order: none is lost. */
  lemma NoLostUpdate(s: State, id: nat)
    requires Reachable(s) && id in s.tasks
    ensures id in s.created && s.tasks[id] == Replay(s.created[id], id, s.log)
  {
    ReachableInv(s);
  }

  /** A save commits against exactly the version it loaded, and no version of a task is
      saved against twice. */
  lemma SavesConsumeVersions(s: State, i: nat, j: nat)
    requires Reachable(s) && i < |s.log| && s.log[i].Saved?
    ensures s.log[i].id in s.created && s.log[i].version == Replay(s.created[s.log[i].id], s.log[i].id, s.log[..i]).v
    ensures i < j < |s.log| && s.log[j].Saved? && s.log[j].id == s.log[i].id ==> s.log[i].version < s.log[j].version
  {
    ReachableInv(s);
    assert Consumes(s, i);
    if i < j < |s.log| {
      assert Consumes(s, j);
      VersionsGrow(s.created[s.log[i].id], s.log[i].id, s.log, i, j);
    }
  }

  /** A PATCH that succeeds was applied to precisely the version named in If-Match, or
      changed nothing of that version; what it answers is the task right after it,
      up to the reminder flag. */
  lemma PatchAppliesToNamedVersion(s: State, c: nat)
    requires Reachable(s) && c in s.answers && s.answers[c].Success? && c in s.requests && s.requests[c].ifMatch.Some?
    ensures var r := s.requests[c];
            || (s.answers[c].task.v == r.ifMatch.value && Changed(s.answers[c].task, r.change) == s.answers[c].task)
            || exists i :: 0 <= i < |s.log| && s.log[i] == Saved(c, r.id, r.ifMatch.value, r.change) && r.id in s.created
                           && Replay(s.created[r.id], r.id, s.log[..i]).v == r.ifMatch.value
                           && SameVersioned(s.answers[c].task, Replay(s.created[r.id], r.id, s.log[..i + 1]))
  {
    ReachableInv(s);
    assert LoadedSound(s, c) && Explained(s, c);
    if !Unmodifying(s, c) {
      var i: nat :| Explains(s, c, i);
      assert Consumes(s, i);
    }
  }

  /** A task that a PATCH or a deletion may be made to, and an attachment removed from. */
  ghost predicate Fits(t: Task, c: Change) {
    && (c.Patch? || c.SoftDelete? ==> t.deletedAt.None?)
    && (c.RemoveAttachment? ==> exists a :: a in t.attachments && a.id == c.id)
  }

  ghost predicate FittingAt(s: State, i: nat)
    requires i < |s.log|
  {
    s.log[i].Saved? && s.log[i].id in s.created ==> Fits(Replay(s.created[s.log[i].id], s.log[i].id, s.log[..i]), s.log[i].change)
  }

  ghost predicate Fitting(s: State) {
    && (forall c :: c in s.loaded && c in s.requests ==> Fits(s.loaded[c], s.requests[c].change))
    && (forall i :: 0 <= i < |s.log| ==> FittingAt(s, i))
  }

  lemma LoadFits(s: State, client: nat, request: Request)
    requires Fitting(s)
    ensures var t := OnLoad(s, client, request);
            forall c :: c in t.loaded && c in t.requests && !(c in s.loaded && c in s.requests) ==> Fits(t.loaded[c], t.requests[c].change)
  {
    if Loads(s.tasks, request) && request.change.RemoveAttachment? {
      var i :| 0 <= i < |s.tasks[request.id].attachments| && s.tasks[request.id].attachments[i].id == request.change.id;
      assert s.tasks[request.id].attachments[i] in s.tasks[request.id].attachments;
    }
  }

  lemma FittingFollows(s: State, t: State, i: nat)
    requires Extends(s, t) && i < |s.log| && FittingAt(s, i) && Consumes(s, i)
    ensures FittingAt(t, i)
  {
    assert t.log[..i] == s.log[..i];
  }

  lemma StepFits(s: State, e: Event)
    requires Inv(s) && Fitting(s)
    ensures Fitting(Step(s, e))
  {
    var t := Step(s, e);
    StepExtends(s, e);
    if e.Load? { LoadFits(s, e.client, e.request); }
    forall i | 0 <= i < |t.log| ensures FittingAt(t, i) {
      if i < |s.log| {
        assert Consumes(s, i);
        FittingFollows(s, t, i);
      } else {
        NewEntryFits(s, e);
      }
    }
    forall c | c in t.loaded && c in t.requests ensures Fits(t.loaded[c], t.requests[c].change) {
      assert LoadedSound(s, c);
    }
  }

  lemma NewEntryFits(s: State, e: Event)
    requires Inv(s) && Fitting(s) && |Step(s, e).log| > |s.log|
    ensures |Step(s, e).log| == |s.log| + 1 && FittingAt(Step(s, e), |s.log|)
  {
    var t := Step(s, e);
    assert t.log[..|s.log|] == s.log;
    if e.Save? { assert LoadedSound(s, e.client); }
  }

  lemma {:induction false} RunFits(es: seq<Event>)
    ensures Fitting(Run(INIT, es))
  {
    if es != [] {
      RunFits(es[..|es| - 1]);
      RunKeepsInv(es[..|es| - 1]);
      StepFits(Run(INIT, es[..|es| - 1]), es[|es| - 1]);
    }
  }

  /** In every interleaving: no PATCH and no deletion is committed to a deleted task, so
      a task is deleted at most once, and only an attachment that is there is removed. */
  lemma DeletedTasksStayAsTheyWere(s: State, i: nat)
    requires Reachable(s) && i < |s.log| && s.log[i].Saved?
    ensures s.log[i].id in s.created
    ensures var before := Replay(s.created[s.log[i].id], s.log[i].id, s.log[..i]);
            && (s.log[i].change.Patch? || s.log[i].change.SoftDelete? ==> before.deletedAt.None?)
            && (s.log[i].change.RemoveAttachment? ==> exists a :: a in before.attachments && a.id == s.log[i].change.id)
  {
    var es :| s == Run(INIT, es);
    RunFits(es);
    RunKeepsInv(es);
    assert Consumes(s, i) && FittingAt(s, i);
  }

  function CommentsOf(log: seq<Entry>, id: nat): seq<Comment> {
    if log == [] then []
    else
      var e := log[|log| - 1];
      CommentsOf(log[..|log| - 1], id)
      + (if e.Saved? && e.id == id && e.change.AddComment? then [e.change.comment] else [])
  }

  lemma {:induction false} ReplayedComments(t: Task, id: nat, log: seq<Entry>)
    ensures Replay(t, id, log).comments == t.comments + CommentsOf(log, id)
  {
    if log != [] { ReplayedComments(t, id, log[..|log| - 1]); }
  }

  /** The comments of a task are those it was created with and then every committed
      one, each once, in the order of the saves, whatever patches, deletions and
      reminders came in between. */
  lemma EveryCommentIsKept(s: State, id: nat)
    requires Reachable(s) && id in s.tasks
    ensures id in s.created && s.tasks[id].comments == s.created[id].comments + CommentsOf(s.log, id)
  {
    NoLostUpdate(s, id);
    ReplayedComments(s.created[id], id, s.log);
  }

  ghost predicate RemindedIn(log: seq<Entry>, id: nat) { exists i :: 0 <= i < |log| && log[i] == Reminded(id) }

  lemma {:induction false} ReplayedFlag(t: Task, id: nat, log: seq<Entry>)
    ensures Replay(t, id, log).reminderSent <==> t.reminderSent || RemindedIn(log, id)
  {
    if log != [] {
      var n := |log| - 1;
      ReplayedFlag(t, id, log[..n]);
      if i :| 0 <= i < n && log[..n][i] == Reminded(id) { assert log[i] == Reminded(id); }
      if i :| 0 <= i < |log| && log[i] == Reminded(id) { assert i < n ==> log[..n][i] == Reminded(id); }
    }
  }

  /** The flag is set exactly when a reminder set it, and no save, however old the copy it
      is of, takes it back. */
  lemma ReminderStaysSet(s: State, id: nat)
    requires Reachable(s) && id in s.tasks
    ensures id in s.created && (s.tasks[id].reminderSent <==> s.created[id].reminderSent || RemindedIn(s.log, id))
  {
    NoLostUpdate(s, id);
    ReplayedFlag(s.created[id], id, s.log);
  }

  /** What a writer is answered: NOT FOUND or PRECONDITION FAILED at its load; and at its
      save SUCCESS if its copy has no changes or the version it loaded is still there, else
      PRECONDITION FAILED if it named a version, else an error. */
  lemma AnswersMean(s: State, client: nat, request: Request)
    ensures client !in s.requests && client !in s.answers && client !in s.loaded ==>
              var t := Step(s, Load(client, request));
              var there := request.id in s.tasks
                           && (request.change.Patch? || request.change.SoftDelete? ==> s.tasks[request.id].deletedAt.None?)
                           && (request.change.RemoveAttachment? ==>
                                 exists i :: 0 <= i < |s.tasks[request.id].attachments|
                                             && s.tasks[request.id].attachments[i].id == request.change.id);
              var current := there && (request.ifMatch.None? || request.ifMatch.value == s.tasks[request.id].v);
              && t.tasks == s.tasks && (client in t.answers <==> !current)
              && (!there ==> t.answers[client] == NotFound) && (there && !current ==> t.answers[client] == PreconditionFailed)
    ensures Saving(s, client) ==>
              var t, loaded, r := Step(s, Save(client, Applied)), s.loaded[client], s.requests[client];
              var same, current := Changed(loaded, r.change) == loaded, s.tasks[r.id].v == loaded.v;
              && client in t.answers
              && (t.answers[client].Success? <==> same || current)
              && (t.answers[client] == PreconditionFailed <==> !same && !current && r.ifMatch.Some?)
              && (t.answers[client] == Error <==> !same && !current && r.ifMatch.None?)
              && (same || !current ==> t.tasks == s.tasks)
  {
  }

  // ------------------------------------------------ what the log says

  /** The field has the value sent for it, or, where none was sent, the one it had. */
  ghost predicate FieldsSet(before: Fields, dto: Dto, after: Fields) {
    && (forall i :: 0 <= i < |dto| && dto[i].1.Some? ==> dto[i].0 in after && after[dto[i].0] == dto[i].1.value)
    && (forall key :: (forall i :: 0 <= i < |dto| && dto[i].0 == key ==> dto[i].1.None?) ==>
          (key in after <==> key in before) && (key in before ==> after[key] == before[key]))
  }

  lemma AssignedSets(fields: Fields, dto: Dto)
    requires DistinctKeys(dto)
    ensures FieldsSet(fields, dto, Assigned(fields, dto))
  {
    forall i | 0 <= i < |dto| && dto[i].1.Some?
      ensures dto[i].0 in Assigned(fields, dto) && Assigned(fields, dto)[dto[i].0] == dto[i].1.value
    {
      AssignedIs(fields, dto, dto[i].0);
    }
    forall key | forall i :: 0 <= i < |dto| && dto[i].0 == key ==> dto[i].1.None?
      ensures FieldOf(Assigned(fields, dto), key) == FieldOf(fields, key)
    {
      AssignedIs(fields, dto, key);
      if i :| 0 <= i < |dto| && dto[i].0 == key { assert dto[i].1.None?; }
    }
    forall key ensures FieldOf(Assigned(fields, dto), key) == FieldOf(fields, key) <==>
                         (key in Assigned(fields, dto) <==> key in fields)
                         && (key in fields && key in Assigned(fields, dto) ==> Assigned(fields, dto)[key] == fields[key])
    {
    }
  }

  lemma {:induction false} RemovalKeepsOthers(xs: seq<Attachment>, id: nat, a: Attachment)
    ensures a in Without(xs, id) <==> a in xs && a.id != id
  {
    if xs != [] {
      RemovalKeepsOthers(xs[..|xs| - 1], id, a);
      assert xs == xs[..|xs| - 1] + [xs[|xs| - 1]];
    }
  }

  lemma {:induction false} RemovalKeepsOrder(xs: seq<Attachment>, ys: seq<Attachment>, id: nat)
    ensures Without(xs + ys, id) == Without(xs, id) + Without(ys, id)
  {
    if ys == [] {
      assert xs + ys == xs;
    } else {
      assert (xs + ys)[..|xs + ys| - 1] == xs + ys[..|ys| - 1];
      RemovalKeepsOrder(xs, ys[..|ys| - 1], id);
    }
  }

  /** Every committed change did to its task what was asked and nothing else: a PATCH set
      the fields sent with a value, comments and attachments were added at the end, a
      removal took away the attachments with its id and kept the others in order, an
      assignment replaced the assignees, a deletion set its time. */
  lemma CommitsDoWhatWasAsked(s: State, i: nat)
    requires Reachable(s) && i < |s.log| && s.log[i].Saved? && (s.log[i].change.Patch? ==> DistinctKeys(s.log[i].change.dto))
    ensures s.log[i].id in s.created
    ensures var c, id := s.log[i].change, s.log[i].id;
            var before, after := Replay(s.created[id], id, s.log[..i]), Replay(s.created[id], id, s.log[..i + 1]);
            && after == Task(after.fields,
                             if c.AddComment? then before.comments + [c.comment] else before.comments,
                             after.attachments,
                             if c.Assign? then c.users else before.assignees,
                             if c.SoftDelete? then Some(c.at) else before.deletedAt,
                             before.reminderSent, before.v + 1)
            && (if c.Patch? then FieldsSet(before.fields, c.dto, after.fields) else after.fields == before.fields)
            && (c.AddAttachment? ==> after.attachments == before.attachments + [c.attachment])
            && (c.RemoveAttachment? ==>
                  && (forall a :: a in after.attachments <==> a in before.attachments && a.id != c.id)
                  && ((forall a :: a in before.attachments ==> a.id != c.id) ==> after.attachments == before.attachments)
                  && forall j :: 0 <= j <= |before.attachments| ==>
                       after.attachments == Without(before.attachments[..j], c.id) + Without(before.attachments[j..], c.id))
            && (!c.AddAttachment? && !c.RemoveAttachment? ==> after.attachments == before.attachments)
  {
    ReachableInv(s);
    assert Consumes(s, i);
    var c, id := s.log[i].change, s.log[i].id;
    var before := Replay(s.created[id], id, s.log[..i]);
    assert s.log[..i + 1] == s.log[..i] + [s.log[i]];
    ReplayAppends(s.created[id], id, s.log[..i], s.log[i]);
    match c
    case Patch(dto) => AssignedSets(before.fields, dto);
    case RemoveAttachment(gone) => RemovedExactly(before.attachments, gone);
    case _ =>
  }

  lemma {:induction false} NothingToRemove(xs: seq<Attachment>, id: nat)
    requires forall a :: a in xs ==> a.id != id
    ensures Without(xs, id) == xs
  {
    if xs != [] {
      assert xs == xs[..|xs| - 1] + [xs[|xs| - 1]];
      NothingToRemove(xs[..|xs| - 1], id);
    }
  }

  lemma RemovedExactly(xs: seq<Attachment>, id: nat)
    ensures forall a :: a in Without(xs, id) <==> a in xs && a.id != id
    ensures (forall a :: a in xs ==> a.id != id) ==> Without(xs, id) == xs
    ensures forall j :: 0 <= j <= |xs| ==> Without(xs, id) == Without(xs[..j], id) + Without(xs[j..], id)
  {
    forall a ensures a in Without(xs, id) <==> a in xs && a.id != id {
      RemovalKeepsOthers(xs, id, a);
    }
    if forall a :: a in xs ==> a.id != id { NothingToRemove(xs, id); }
    forall j | 0 <= j <= |xs| ensures Without(xs, id) == Without(xs[..j], id) + Without(xs[j..], id) {
      assert xs == xs[..j] + xs[j..];
      RemovalKeepsOrder(xs[..j], xs[j..], id);
    }
  }

  // ------------------------------------------------ the update handler

  /** A recorded difference: the value before, and the one sent. */
  datatype Difference = Difference(before: Option<Value>, sent: Option<Value>)

  function FieldOf(fields: Fields, key: string): Option<Value> {
    if key in fields then Some(fields[key]) else None
  }

  predicate Differs(before: Option<Value>, sent: Option<Value>) {
    before != sent || (before.Some? && before.value.Reference?)
  }

  function Differences(fields: Fields, dto: Dto): map<string, Difference> {
    if dto == [] then map[]
    else
      var rest, (key, sent) := Differences(fields, dto[..|dto| - 1]), dto[|dto| - 1];
      if Differs(FieldOf(fields, key), sent) then rest[key := Difference(FieldOf(fields, key), sent)] else rest
  }

  lemma {:induction false} AssignedIs(fields: Fields, dto: Dto, key: string)
    requires DistinctKeys(dto)
    ensures (forall i :: 0 <= i < |dto| ==> dto[i].0 != key) ==> FieldOf(Assigned(fields, dto), key) == FieldOf(fields, key)
    ensures forall i :: 0 <= i < |dto| && dto[i].0 == key ==>
              FieldOf(Assigned(fields, dto), key) == if dto[i].1.Some? then dto[i].1 else FieldOf(fields, key)
  {
    if dto != [] { AssignedIs(fields, dto[..|dto| - 1], key); }
  }

  lemma {:induction false} DifferencesAre(fields: Fields, dto: Dto, key: string)
    requires DistinctKeys(dto)
    ensures (forall i :: 0 <= i < |dto| ==> dto[i].0 != key) ==> key !in Differences(fields, dto)
    ensures forall i :: 0 <= i < |dto| && dto[i].0 == key ==>
              (key in Differences(fields, dto) <==> Differs(FieldOf(fields, key), dto[i].1))
              && (key in Differences(fields, dto) ==> Differences(fields, dto)[key] == Difference(FieldOf(fields, key), dto[i].1))
  {
    if dto != [] { DifferencesAre(fields, dto[..|dto| - 1], key); }
  }

  /** The recorded differences miss no field that the update changes, and where a value
      was sent they record what the field had and has; a difference without a value
      sent changes nothing. */
  lemma DifferencesCoverTheUpdate(fields: Fields, dto: Dto, key: string)
    requires DistinctKeys(dto)
    ensures FieldOf(Assigned(fields, dto), key) != FieldOf(fields, key) ==> key in Differences(fields, dto)
    ensures key in Differences(fields, dto) <==>
              exists i :: 0 <= i < |dto| && dto[i].0 == key
                          && (if key in fields then fields[key].Reference? || dto[i].1 != Some(fields[key]) else dto[i].1.Some?)
    ensures key in Differences(fields, dto) ==>
              var d := Differences(fields, dto)[key];
              && d.before == FieldOf(fields, key)
              && FieldOf(Assigned(fields, dto), key) == (if d.sent.Some? then d.sent else d.before)
  {
    AssignedIs(fields, dto, key);
    DifferencesAre(fields, dto, key);
    if i :| 0 <= i < |dto| && dto[i].0 == key {
      assert dto[i].0 == key;
    }
  }

  datatype Activity = Activity(task: nat, changes: map<string, Difference>)

  /** The transaction records the differences, if there are any, with the save. */
  function Recorded(task: nat, changes: map<string, Difference>): seq<Activity> {
    if changes == map[] then [] else [Activity(task, changes)]
  }

  /** One call of the handler, as the machine sees it. */
  function Patching(tasks: Tasks, id: nat, dto: Dto, expected: nat, outcome: Outcome): State {
    var begun := State(tasks, tasks, [], map[], map[], map[]);
    OnSave(OnLoad(begun, 0, Request(id, Patch(dto), Some(expected))), 0, outcome)
  }

  /** A PATCH of a task that is there, not deleted and at the version named sets the fields
      sent with a value and no other, leaves all else, and takes the version one further
      exactly when a field changed; it is answered with the task it leaves. Nothing else
      changes anything. */
  ghost predicate PatchMeans(before: Tasks, after: Tasks, id: nat, dto: Dto, expected: nat, outcome: Outcome, answer: Answer) {
    var found := id in before && before[id].deletedAt.None?;
    && (answer.NotFound? <==> !found)
    && (answer.PreconditionFailed? <==> found && before[id].v != expected)
    && (answer.Success? <==> found && before[id].v == expected && outcome == Applied)
    && (answer.Success? ==> id in after && answer.task == after[id])
    && (if found && before[id].v == expected && outcome != LostBefore then
          && id in after
          && after == before[id := before[id].(fields := after[id].fields,
                                               v := if after[id].fields == before[id].fields then expected else expected + 1)]
          && (DistinctKeys(dto) ==> FieldsSet(before[id].fields, dto, after[id].fields))
        else after == before)
  }

  lemma PatchingMeans(tasks: Tasks, id: nat, dto: Dto, expected: nat, outcome: Outcome)
    ensures var run := Patching(tasks, id, dto, expected, outcome);
            0 in run.answers && PatchMeans(tasks, run.tasks, id, dto, expected, outcome, run.answers[0])
  {
    if id in tasks && tasks[id].deletedAt.None? && tasks[id].v == expected {
      PatchedMeans(tasks, id, dto, outcome);
    }
  }

  lemma PatchedMeans(tasks: Tasks, id: nat, dto: Dto, outcome: Outcome)
    requires id in tasks && tasks[id].deletedAt.None?
    ensures var run := Patching(tasks, id, dto, tasks[id].v, outcome);
            0 in run.answers && PatchMeans(tasks, run.tasks, id, dto, tasks[id].v, outcome, run.answers[0])
  {
    var task := tasks[id];
    if DistinctKeys(dto) { AssignedSets(task.fields, dto); }
    PatchingIs(tasks, id, dto, outcome);
  }

  lemma PatchingIs(tasks: Tasks, id: nat, dto: Dto, outcome: Outcome)
    requires id in tasks && tasks[id].deletedAt.None?
    ensures var run, task := Patching(tasks, id, dto, tasks[id].v, outcome), tasks[id];
            var fields := Assigned(task.fields, dto);
            var patched := if fields == task.fields then task else task.(fields := fields, v := task.v + 1);
            && run.tasks == (if outcome == LostBefore then tasks else tasks[id := patched])
            && 0 in run.answers && run.answers[0] == (if outcome == Applied then Success(patched) else Error)
  {
    MergedOfSame(tasks[id], dto);
    assert tasks[id := tasks[id]] == tasks;
  }

  class UpdateTaskHandler {
    var tasks: Tasks
    var activities: seq<Activity>

    constructor (tasks: Tasks)
      ensures this.tasks == tasks && activities == []
    {
      this.tasks, activities := tasks, [];
    }

    /** Compares every field sent with the one loaded. */
    method Compare(loaded: Task, dto: Dto) returns (changes: map<string, Difference>)
      ensures changes == Differences(loaded.fields, dto)
    {
      changes := map[];
      for i := 0 to |dto|
        invariant changes == Differences(loaded.fields, dto[..i])
      {
        var (key, sent) := dto[i];
        assert dto[..i + 1][..i] == dto[..i];
        if Differs(FieldOf(loaded.fields, key), sent) {
          changes := changes[key := Difference(FieldOf(loaded.fields, key), sent)];
        }
      }
      assert dto[..|dto|] == dto;
    }

    /** The task is saved and the activity written in one transaction. */
    method Execute(id: nat, dto: Dto, expected: nat, outcome: Outcome) returns (answer: Answer)
      modifies this
      ensures var run := Patching(old(tasks), id, dto, expected, outcome);
              0 in run.answers && answer == run.answers[0] && tasks == run.tasks
      ensures var loads := id in old(tasks) && old(tasks)[id].deletedAt.None? && old(tasks)[id].v == expected;
              activities == old(activities)
                            + (if loads && outcome != LostBefore then Recorded(id, Differences(old(tasks)[id].fields, dto)) else [])
      ensures answer.NotFound? || answer.PreconditionFailed? ==> tasks == old(tasks)
      ensures PatchMeans(old(tasks), tasks, id, dto, expected, outcome, answer)
    {
      PatchingMeans(tasks, id, dto, expected, outcome);
      if id !in tasks || tasks[id].deletedAt.Some? {
        return NotFound;
      }
      var task := tasks[id];
      if task.v != expected {
        return PreconditionFailed;
      }
      var changes := Compare(task, dto);
      var copy := Changed(task, Patch(dto));
      if outcome != LostBefore {
        if copy != task {
          tasks := tasks[id := Merged(task, task, copy)];
        }
        if changes != map[] {
          activities := activities + [Activity(id, changes)];
        }
      }
      answer := if outcome != Applied then Error else if copy == task then Success(copy) else Success(copy.(v := task.v + 1));
    }
  }
}
