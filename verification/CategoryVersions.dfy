/** Concurrent updates of categories: a check against a read that may be stale, then
    a compare-and-set on owner and version. */
module CategoryVersions {
  import opened Common

  type Id = string

  datatype Category = Category(id: Id, owner: Id, name: string, color: Option<string>, v: nat)

  /** The fields of an update; absent ones are left alone. */
  datatype Patch = Patch(name: Option<string>, color: Option<string>)

  type Store = map<Id, Category>

  // ------------------------------------------------ the collection

  function Patched(c: Category, p: Patch): Category {
    Category(c.id, c.owner, if p.name.Some? then p.name.value else c.name, if p.color.Some? then p.color else c.color, c.v + 1)
  }

  /** The unique index on owner and name. */
  predicate NameFree(store: Store, id: Id, owner: Id, name: string) {
    forall i :: i in store && i != id ==> !(store[i].owner == owner && store[i].name == name)
  }

  predicate Matches(store: Store, id: Id, owner: Id, expected: nat) {
    id in store && store[id].owner == owner && store[id].v == expected
  }

  /** The answer of one compare-and-set. */
  datatype SetResult = Updated(category: Category) | NoMatch | DuplicateName

  function SetAnswer(store: Store, id: Id, owner: Id, p: Patch, expected: nat): SetResult {
    if !Matches(store, id, owner, expected) then NoMatch
    else if !NameFree(store, id, owner, Patched(store[id], p).name) then DuplicateName
    else Updated(Patched(store[id], p))
  }

  function AfterSet(store: Store, id: Id, owner: Id, p: Patch, expected: nat): Store {
    var answer := SetAnswer(store, id, owner, p, expected);
    if answer.Updated? then store[id := answer.category] else store
  }

  // ------------------------------------------------ clients

  datatype Request = Request(id: Id, owner: Id, patch: Patch, expected: nat)

  datatype Answer = Success(category: Category) | NotFound | Conflict | Error

  /** A successful update: by whom, of which category, consuming which version. */
  datatype Commit = Commit(client: nat, id: Id, version: nat, patch: Patch)

  /** `created`, `log`, `requests` and `answers` are history. A client is one call of
      the update handler. */
  datatype State = State(
    store: Store, created: Store, log: seq<Commit>, requests: map<nat, Request>, answers: map<nat, Answer>)

  const INIT := State(map[], map[], [], map[], map[])

  datatype Event =
    | Create(id: Id, owner: Id, name: string, color: Option<string>)
    | Check(client: nat, request: Request, seen: Option<Category>)
    | Write(client: nat, outcome: Outcome)
    | Delete(id: Id, owner: Id)

  /** Ids are not used again. */
  function OnCreate(s: State, id: Id, owner: Id, name: string, color: Option<string>): State {
    if id in s.created || !NameFree(s.store, id, owner, name) then s
    else
      var c := Category(id, owner, name, color, 0);
      s.(store := s.store[id := c], created := s.created[id := c])
  }

  /** The handler's read goes through a cache: what it has seen may be anything. */
  function OnCheck(s: State, client: nat, request: Request, seen: Option<Category>): State {
    if client in s.requests || client in s.answers then s
    else
      var asked := s.(requests := s.requests[client := request]);
      if seen.None? then asked.(answers := s.answers[client := NotFound])
      else if seen.value.v != request.expected then asked.(answers := s.answers[client := Conflict])
      else asked
  }

  predicate Writing(s: State, client: nat) { client in s.requests && client !in s.answers }

  function AnswerOf(result: SetResult): Answer {
    match result
    case Updated(category) => Success(category)
    case NoMatch => Conflict
    case DuplicateName => Error
  }

  function OnWrite(s: State, client: nat, outcome: Outcome): State {
    if !Writing(s, client) then s
    else
      var r := s.requests[client];
      var result := SetAnswer(s.store, r.id, r.owner, r.patch, r.expected);
      var written := if outcome == LostBefore || !result.Updated? then s
                     else s.(store := s.store[r.id := result.category],
                             log := s.log + [Commit(client, r.id, r.expected, r.patch)]);
      written.(answers := s.answers[client := if outcome == Applied then AnswerOf(result) else Error])
  }

  function OnDelete(s: State, id: Id, owner: Id): State {
    if id in s.store && s.store[id].owner == owner then s.(store := s.store - {id}) else s
  }

  function Step(s: State, e: Event): State {
    match e
    case Create(id, owner, name, color) => OnCreate(s, id, owner, name, color)
    case Check(client, request, seen) => OnCheck(s, client, request, seen)
    case Write(client, outcome) => OnWrite(s, client, outcome)
    case Delete(id, owner) => OnDelete(s, id, owner)
  }

  function Run(s: State, es: seq<Event>): State {
    if es == [] then s else Step(Run(s, es[..|es| - 1]), es[|es| - 1])
  }

  ghost predicate Reachable(s: State) { exists es :: s == Run(INIT, es) }

  // ------------------------------------------------ replaying the log

  /** A category with the logged updates applied, oldest first. */
  function Replay(c: Category, log: seq<Commit>): Category {
    if log == [] then c
    else
      var before := Replay(c, log[..|log| - 1]);
      if log[|log| - 1].id == c.id then Patched(before, log[|log| - 1].patch) else before
  }

  lemma ReplayAppends(c: Category, log: seq<Commit>, x: Commit)
    ensures Replay(c, log + [x]) == if x.id == c.id then Patched(Replay(c, log), x.patch) else Replay(c, log)
  {
    assert (log + [x])[..|log|] == log;
  }

  lemma {:induction false} ReplayKeepsIdentity(c: Category, log: seq<Commit>)
    ensures Replay(c, log).id == c.id && Replay(c, log).owner == c.owner
  {
    if log != [] { ReplayKeepsIdentity(c, log[..|log| - 1]); }
  }

  lemma {:induction false} VersionsGrow(c: Category, log: seq<Commit>, i: nat, j: nat)
    requires i <= j <= |log|
    ensures Replay(c, log[..i]).v <= Replay(c, log[..j]).v
    ensures i < j && log[i].id == c.id ==> Replay(c, log[..i]).v < Replay(c, log[..j]).v
  {
    if i < j {
      VersionsGrow(c, log, i, j - 1);
      assert log[..j][..j - 1] == log[..j - 1];
      if i == j - 1 { assert log[..j][|log[..j]| - 1] == log[i]; }
    }
  }

  // ------------------------------------------------ invariant

  predicate Made(created: Store, id: Id) { id in created && created[id].id == id && created[id].v == 0 }

  ghost predicate StoreReplayed(s: State) {
    forall id :: id in s.store ==> Made(s.created, id) && s.store[id] == Replay(s.created[id], s.log)
  }

  /** The version an update consumed is the one its predecessors left. */
  ghost predicate Consumes(s: State, i: nat)
    requires i < |s.log|
  {
    Made(s.created, s.log[i].id) && s.log[i].version == Replay(s.created[s.log[i].id], s.log[..i]).v
  }

  ghost predicate LogSound(s: State) { forall i :: 0 <= i < |s.log| ==> Consumes(s, i) }

  /** The logged update that a client's success is. */
  ghost predicate Explains(s: State, client: nat, i: nat) {
    && i < |s.log| && client in s.requests && client in s.answers && s.answers[client].Success?
    && var r := s.requests[client];
       && s.log[i] == Commit(client, r.id, r.expected, r.patch) && Made(s.created, r.id)
       && s.answers[client].category == Replay(s.created[r.id], s.log[..i + 1])
  }

  ghost predicate AnswersExplained(s: State) {
    forall c :: c in s.answers && s.answers[c].Success? ==> exists i: nat :: Explains(s, c, i)
  }

  /** A client with an update in the log has been answered. */
  ghost predicate LogAnswered(s: State) {
    forall i :: 0 <= i < |s.log| ==> s.log[i].client in s.answers
  }

  ghost predicate Inv(s: State) {
    StoreReplayed(s) && LogSound(s) && AnswersExplained(s) && LogAnswered(s)
  }

  // ------------------------------------------------ steps

  /** The log is extended at most, answers and requests are added. */
  ghost predicate Extends(s: State, t: State) {
    && s.log <= t.log
    && (forall c :: c in s.requests ==> c in t.requests && t.requests[c] == s.requests[c])
    && (forall c :: c in s.answers ==> c in t.answers && t.answers[c] == s.answers[c])
    && (forall id :: id in s.created ==> id in t.created && t.created[id] == s.created[id])
  }

  lemma StepExtends(s: State, e: Event)
    ensures Extends(s, Step(s, e))
  {
  }

  lemma ConsumesFollows(s: State, t: State, i: nat)
    requires Extends(s, t) && i < |s.log| && Consumes(s, i)
    ensures Consumes(t, i)
  {
    assert t.log[..i] == s.log[..i];
  }

  lemma ExplainsFollows(s: State, t: State, c: nat, i: nat)
    requires Extends(s, t) && Explains(s, c, i)
    ensures Explains(t, c, i)
  {
    assert t.log[..i + 1] == s.log[..i + 1];
  }

  lemma SameLogKeeps(s: State, t: State)
    requires Inv(s) && Extends(s, t) && t.log == s.log
    requires forall c :: c in t.answers && c !in s.answers ==> !t.answers[c].Success?
    ensures LogSound(t) && AnswersExplained(t) && LogAnswered(t)
  {
    forall i | 0 <= i < |t.log| ensures Consumes(t, i) {
      ConsumesFollows(s, t, i);
    }
    forall c | c in t.answers && t.answers[c].Success? ensures exists i: nat :: Explains(t, c, i) {
      var i: nat :| Explains(s, c, i);
      ExplainsFollows(s, t, c, i);
    }
  }

  lemma {:induction false} UnloggedUnchanged(c: Category, log: seq<Commit>)
    requires forall i :: 0 <= i < |log| ==> log[i].id != c.id
    ensures Replay(c, log) == c
  {
    if log != [] { UnloggedUnchanged(c, log[..|log| - 1]); }
  }

  lemma CreateKeepsInv(s: State, id: Id, owner: Id, name: string, color: Option<string>)
    requires Inv(s)
    ensures Inv(OnCreate(s, id, owner, name, color))
  {
    var t := OnCreate(s, id, owner, name, color);
    StepExtends(s, Create(id, owner, name, color));
    SameLogKeeps(s, t);
    if t != s {
      forall i | 0 <= i < |s.log| ensures s.log[i].id != id {
        assert Consumes(s, i);
      }
      UnloggedUnchanged(t.created[id], s.log);
    }
  }

  /** What a successful write appends. */
  ghost predicate Writes(s: State, client: nat, outcome: Outcome) {
    && Writing(s, client) && outcome != LostBefore
    && var r := s.requests[client]; SetAnswer(s.store, r.id, r.owner, r.patch, r.expected).Updated?
  }

  lemma WriteReplays(s: State, client: nat, outcome: Outcome)
    requires Inv(s) && Writes(s, client, outcome)
    ensures StoreReplayed(OnWrite(s, client, outcome))
  {
    var t, r := OnWrite(s, client, outcome), s.requests[client];
    forall id | id in t.store ensures Made(t.created, id) && t.store[id] == Replay(t.created[id], t.log) {
      ReplayAppends(t.created[id], s.log, Commit(client, r.id, r.expected, r.patch));
    }
  }

  lemma WriteLogs(s: State, client: nat, outcome: Outcome)
    requires Inv(s) && Writes(s, client, outcome)
    ensures LogSound(OnWrite(s, client, outcome)) && LogAnswered(OnWrite(s, client, outcome))
  {
    var t := OnWrite(s, client, outcome);
    StepExtends(s, Write(client, outcome));
    forall i | 0 <= i < |t.log| ensures Consumes(t, i) {
      if i < |s.log| { ConsumesFollows(s, t, i); } else { assert t.log[..i] == s.log; }
    }
  }

  lemma WriteExplains(s: State, client: nat, outcome: Outcome)
    requires Inv(s) && Writes(s, client, outcome)
    ensures AnswersExplained(OnWrite(s, client, outcome))
  {
    var t, r := OnWrite(s, client, outcome), s.requests[client];
    StepExtends(s, Write(client, outcome));
    forall c | c in t.answers && t.answers[c].Success? ensures exists i: nat :: Explains(t, c, i) {
      if c == client {
        ReplayAppends(s.created[r.id], s.log, Commit(client, r.id, r.expected, r.patch));
        assert t.log[..|s.log| + 1] == t.log;
        assert Explains(t, c, |s.log|);
      } else {
        var i: nat :| Explains(s, c, i);
        ExplainsFollows(s, t, c, i);
      }
    }
  }

  lemma StepKeepsInv(s: State, e: Event)
    requires Inv(s)
    ensures Inv(Step(s, e))
  {
    StepExtends(s, e);
    match e
    case Create(id, owner, name, color) => CreateKeepsInv(s, id, owner, name, color);
    case Check(client, request, seen) => SameLogKeeps(s, Step(s, e));
    case Delete(id, owner) => SameLogKeeps(s, Step(s, e));
    case Write(client, outcome) =>
      if Writes(s, client, outcome) {
        WriteReplays(s, client, outcome);
        WriteLogs(s, client, outcome);
        WriteExplains(s, client, outcome);
      } else {
        SameLogKeeps(s, Step(s, e));
      }
  }

  lemma {:induction false} RunKeepsInv(es: seq<Event>)
    ensures Inv(Run(INIT, es))
  {
    if es != [] {
      RunKeepsInv(es[..|es| - 1]);
      StepKeepsInv(Run(INIT, es[..|es| - 1]), es[|es| - 1]);
    }
  }

  lemma ReachableInv(s: State)
    requires Reachable(s)
    ensures Inv(s)
  {
    var es :| s == Run(INIT, es);
    RunKeepsInv(es);
  }

  // ------------------------------------------------ main results

  /** In every interleaving, however stale the reads: a stored category is the created
      one with exactly the successful updates applied, in the order of the versions
      they consumed. */
  lemma NoLostUpdate(s: State, id: Id)
    requires Reachable(s) && id in s.store
    ensures id in s.created && s.created[id].v == 0 && s.store[id] == Replay(s.created[id], s.log)
  {
    ReachableInv(s);
    assert Made(s.created, id);
  }

  /** An update consumes the version its predecessors left and leaves the next one;
      no version of a category is consumed twice. */
  lemma VersionsAreConsumedOnce(s: State, i: nat, j: nat)
    requires Reachable(s) && i < j < |s.log| && s.log[i].id == s.log[j].id
    ensures s.log[i].version < s.log[j].version
  {
    ReachableInv(s);
    assert Consumes(s, i) && Consumes(s, j);
    VersionsGrow(s.created[s.log[i].id], s.log, i, j);
  }

  /** No two clients succeed with the same version of the same category. */
  lemma OneSuccessPerVersion(s: State, c: nat, d: nat)
    requires Reachable(s) && c in s.answers && d in s.answers && s.answers[c].Success? && s.answers[d].Success?
    requires c in s.requests && d in s.requests
    requires s.requests[c].id == s.requests[d].id && s.requests[c].expected == s.requests[d].expected
    ensures c == d
  {
    ReachableInv(s);
    var i: nat :| Explains(s, c, i);
    var j: nat :| Explains(s, d, j);
    if i < j { VersionsAreConsumedOnce(s, i, j); } else if j < i { VersionsAreConsumedOnce(s, j, i); }
  }

  /** A client that is answered with a category updated exactly the version it named,
      and the category is the state right after its update. */
  lemma SuccessAppliesToNamedVersion(s: State, c: nat)
    requires Reachable(s) && c in s.answers && s.answers[c].Success?
    ensures c in s.requests
    ensures var r := s.requests[c];
            exists i :: 0 <= i < |s.log| && s.log[i] == Commit(c, r.id, r.expected, r.patch)
                        && r.id in s.created && Replay(s.created[r.id], s.log[..i]).v == r.expected
                        && s.answers[c].category == Patched(Replay(s.created[r.id], s.log[..i]), r.patch)
                        && s.answers[c].category.v == r.expected + 1
                        && (r.patch.name.Some? ==> s.answers[c].category.name == r.patch.name.value)
                        && (r.patch.color.Some? ==> s.answers[c].category.color == r.patch.color)
  {
    ReachableInv(s);
    var i: nat :| Explains(s, c, i);
    assert Consumes(s, i);
    assert s.log[..i + 1] == s.log[..i] + [s.log[i]];
    ReplayAppends(s.created[s.log[i].id], s.log[..i], s.log[i]);
  }

  /** A handler that does not see the category is answered NOT FOUND, one that sees another
      version than the named one CONFLICT, and any other goes on to its write. */
  lemma ChecksMean(s: State, client: nat, request: Request, seen: Option<Category>)
    requires client !in s.requests && client !in s.answers
    ensures var t := Step(s, Check(client, request, seen));
            && t.store == s.store && client in t.requests && t.requests[client] == request
            && (client in t.answers <==> seen.None? || seen.value.v != request.expected)
            && (seen.None? ==> t.answers[client] == NotFound)
            && (seen.Some? && seen.value.v != request.expected ==> t.answers[client] == Conflict)
  {
  }

  /** What a handler's answer says of the category at its write: SUCCESS, the owner's, at the
      version named, and under a name no other category of the owner has; CONFLICT, not
      there for this owner at this version; an error, a name that is taken. */
  lemma AnswersMean(s: State, client: nat)
    requires Reachable(s) && Writing(s, client)
    ensures var t, r := OnWrite(s, client, Applied), s.requests[client];
            var there := r.id in s.store && s.store[r.id].owner == r.owner && s.store[r.id].v == r.expected;
            var taken := there && exists i :: i in s.store && i != r.id && s.store[i].owner == s.store[r.id].owner
                                                && s.store[i].name == if r.patch.name.Some? then r.patch.name.value else s.store[r.id].name;
            && client in t.answers
            && (t.answers[client].Success? <==> there && !taken)
            && (t.answers[client] == Conflict <==> !there)
            && (t.answers[client] == Error <==> there && taken)
            && (there && !taken ==>
                  t.store == s.store[r.id := Category(r.id, r.owner,
                                                      if r.patch.name.Some? then r.patch.name.value else s.store[r.id].name,
                                                      if r.patch.color.Some? then r.patch.color else s.store[r.id].color, r.expected + 1)])
            && (!there || taken ==> t.store == s.store)
  {
    var r := s.requests[client];
    OnlyOwnersUpdate(s, 0, r.id);
    if r.id in s.store {
      var name := if r.patch.name.Some? then r.patch.name.value else s.store[r.id].name;
      assert Patched(s.store[r.id], r.patch).name == name;
      assert NameFree(s.store, r.id, r.owner, name) <==>
             !exists i :: i in s.store && i != r.id && s.store[i].owner == r.owner && s.store[i].name == name;
    }
  }

  /** In every interleaving no owner has two categories of one name. */
  ghost predicate NamesUnique(store: Store) {
    forall i, j :: i in store && j in store && i != j && store[i].owner == store[j].owner ==> store[i].name != store[j].name
  }

  lemma {:induction false} RunKeepsNames(es: seq<Event>)
    ensures NamesUnique(Run(INIT, es).store)
  {
    if es != [] { RunKeepsNames(es[..|es| - 1]); }
  }

  lemma NamesStayUnique(s: State, i: Id, j: Id)
    requires Reachable(s) && i in s.store && j in s.store && i != j && s.store[i].owner == s.store[j].owner
    ensures s.store[i].name != s.store[j].name
  {
    var es :| s == Run(INIT, es);
    RunKeepsNames(es);
  }

  /** A category is changed and removed for its owner only: whoever created it, owns it
      for good, and every successful update was asked for by them. */
  ghost predicate OwnersOnly(s: State) {
    forall i :: 0 <= i < |s.log| ==> AskedByOwner(s, i)
  }

  ghost predicate AskedByOwner(s: State, i: nat)
    requires i < |s.log|
  {
    && s.log[i].client in s.requests && s.log[i].id in s.created
    && s.requests[s.log[i].client].owner == s.created[s.log[i].id].owner
  }

  lemma {:induction false} RunKeepsOwners(es: seq<Event>)
    ensures OwnersOnly(Run(INIT, es))
  {
    if es != [] {
      var s, e := Run(INIT, es[..|es| - 1]), es[|es| - 1];
      RunKeepsOwners(es[..|es| - 1]);
      RunKeepsInv(es[..|es| - 1]);
      StepExtends(s, e);
      forall i | 0 <= i < |Step(s, e).log| ensures AskedByOwner(Step(s, e), i) {
        if i < |s.log| {
          assert AskedByOwner(s, i);
        } else {
          var r := s.requests[e.client];
          ReplayKeepsIdentity(s.created[r.id], s.log);
        }
      }
    }
  }

  lemma OnlyOwnersUpdate(s: State, i: nat, id: Id)
    requires Reachable(s)
    ensures i < |s.log| ==>
              s.log[i].client in s.requests && s.log[i].id in s.created
              && s.requests[s.log[i].client].owner == s.created[s.log[i].id].owner
    ensures id in s.store ==> id in s.created && s.store[id].owner == s.created[id].owner && s.store[id].id == id
  {
    var es :| s == Run(INIT, es);
    RunKeepsOwners(es);
    ReachableInv(s);
    if i < |s.log| { assert AskedByOwner(s, i); }
    if id in s.store {
      assert Made(s.created, id);
      ReplayKeepsIdentity(s.created[id], s.log);
    }
  }

  /** And a removal takes away that owner's category and no other. */
  lemma OnlyOwnersDelete(s: State, id: Id, owner: Id, other: Id)
    ensures var t := Step(s, Delete(id, owner));
            && (other in t.store <==> other in s.store && !(other == id && s.store[other].owner == owner))
            && (other in t.store ==> t.store[other] == s.store[other])
  {
  }

  predicate SetsName(x: Commit, id: Id) { x.id == id && x.patch.name.Some? }

  predicate SetsColor(x: Commit, id: Id) { x.id == id && x.patch.color.Some? }

  lemma {:induction false} NameIsLastWritten(c: Category, log: seq<Commit>, i: nat)
    requires i <= |log| && forall j :: i <= j < |log| ==> !SetsName(log[j], c.id)
    ensures i == 0 ==> Replay(c, log).name == c.name
    ensures i > 0 && SetsName(log[i - 1], c.id) ==> Replay(c, log).name == log[i - 1].patch.name.value
    decreases |log|
  {
    if i < |log| { NameIsLastWritten(c, log[..|log| - 1], i); }
  }

  lemma {:induction false} ColorIsLastWritten(c: Category, log: seq<Commit>, i: nat)
    requires i <= |log| && forall j :: i <= j < |log| ==> !SetsColor(log[j], c.id)
    ensures i == 0 ==> Replay(c, log).color == c.color
    ensures i > 0 && SetsColor(log[i - 1], c.id) ==> Replay(c, log).color == log[i - 1].patch.color
    decreases |log|
  {
    if i < |log| { ColorIsLastWritten(c, log[..|log| - 1], i); }
  }

  /** What a client's successful update wrote stands until a later successful update
      writes the same field: nothing else ever changes it. */
  lemma LastWriteStands(s: State, id: Id, i: nat)
    requires Reachable(s) && id in s.store && i < |s.log|
    ensures SetsName(s.log[i], id) && (forall j :: i < j < |s.log| ==> !SetsName(s.log[j], id)) ==>
              s.store[id].name == s.log[i].patch.name.value
    ensures SetsColor(s.log[i], id) && (forall j :: i < j < |s.log| ==> !SetsColor(s.log[j], id)) ==>
              s.store[id].color == s.log[i].patch.color
  {
    NoLostUpdate(s, id);
    ReachableInv(s);
    assert Made(s.created, id);
    if forall j :: i < j < |s.log| ==> !SetsName(s.log[j], id) { NameIsLastWritten(s.created[id], s.log, i + 1); }
    if forall j :: i < j < |s.log| ==> !SetsColor(s.log[j], id) { ColorIsLastWritten(s.created[id], s.log, i + 1); }
  }
}
