/** The listing method of the task repository: filter, sort, page and cache. */
module TaskRepository {
  import opened Common
  import SortSpec
  import opened TaskOrder
  import opened CursorWalk

  datatype Query = Query(page: nat, limit: nat, byCursor: bool, cursor: Option<nat>, status: string, search: string,
                         sort: Option<string>, sortBy: string, ascending: bool,
                         dueFrom: Option<int>, dueTo: Option<int>, tags: Option<string>, assignee: Option<string>)

  /** Who asks for what: the cache key of the listing is the text of this record. */
  datatype Request = Request(user: nat, role: string, workspace: nat, query: Query)

  datatype Listing =
    | ByCursor(data: seq<Task>, limit: nat, next: Option<nat>)
    | ByOffset(data: seq<Task>, total: nat, page: nat, limit: nat, totalPages: nat)

  datatype Refusal = AdvancedFilteringDisabled | InvalidAssignee | CursorWithSorting

  /** What the listing asks of code outside the model: the store's text search and
      the reading of a printed id. */
  datatype Environment = Environment(found: (string, Task) -> bool, parseId: string -> Option<nat>)

  function Given(s: Option<string>): bool { s.Some? && s.value != "" }

  predicate CustomSort(q: Query) {
    Given(q.sort) || q.sortBy != "createdAt" || q.ascending
  }

  predicate Advanced(q: Query) {
    q.dueFrom.Some? || q.dueTo.Some? || q.tags.Some? || q.assignee.Some? || q.sort.Some? ||
    q.sortBy != "createdAt" || q.ascending
  }

  function DueTime(t: Task): Option<int> {
    match Field(t, "dueDate")
    case Number(n) => Some(n)
    case _ => None
  }

  /** The match stage without the cursor. */
  predicate Passes(env: Environment, r: Request, t: Task) {
    var q := r.query;
    && !t.isDeleted
    && t.workspace == r.workspace
    && (r.role != "admin" ==> t.owner == r.user)
    && (q.status != "" ==> Field(t, "status") == Text(q.status))
    && (q.search != "" ==> env.found(q.search, t))
    && (q.dueFrom.Some? ==> DueTime(t).Some? && DueTime(t).value >= q.dueFrom.value)
    && (q.dueTo.Some? ==> DueTime(t).Some? && DueTime(t).value <= q.dueTo.value)
    && (Given(q.tags) ==> forall tag :: tag in SortSpec.Split(q.tags.value, ',') ==> tag in t.tags)
    && (Given(q.assignee) ==>
          if q.assignee.value == "me" then r.user in t.assignees
          else env.parseId(q.assignee.value).Some? && env.parseId(q.assignee.value).value in t.assignees)
  }

  predicate PastCursor(r: Request, t: Task) {
    r.query.byCursor && r.query.cursor.Some? ==> t.id > r.query.cursor.value
  }

  /** The refusals that come after the cache was asked. */
  function Refused(env: Environment, r: Request): Option<Refusal> {
    var q := r.query;
    if Given(q.assignee) && q.assignee.value != "me" && env.parseId(q.assignee.value).None? then Some(InvalidAssignee)
    else if q.byCursor && CustomSort(q) then Some(CursorWithSorting)
    else None
  }

  function Select(env: Environment, r: Request, tasks: seq<Task>, withCursor: bool): seq<Task> {
    if tasks == [] then []
    else if Passes(env, r, tasks[0]) && (withCursor ==> PastCursor(r, tasks[0]))
    then [tasks[0]] + Select(env, r, tasks[1..], withCursor)
    else Select(env, r, tasks[1..], withCursor)
  }

  const BY_ID: SortSpec.Spec := [("_id", SortSpec.Asc)]

  function RequestedSort(q: Query): SortSpec.Spec {
    if q.byCursor then BY_ID else SortSpec.Requested(q.sort, q.sortBy, q.ascending)
  }

  /** The ids of tasks in sequence. */
  function Ids(tasks: seq<Task>): seq<nat> {
    seq(|tasks|, i requires 0 <= i < |tasks| => tasks[i].id)
  }

  /** The meaning of a listing: its page is read from one state of the collection, and
      the total of an offset listing is counted afterwards, in a state of its own. */
  ghost predicate Answers(env: Environment, r: Request, tasks: seq<Task>, counted: seq<Task>, l: Listing) {
    var q := r.query;
    if q.byCursor then
      && l.ByCursor? && l.limit == q.limit
      && (forall t :: t in l.data ==> t in tasks)
      && CursorPage(Ids(l.data), l.next) == PageAt(Collection(tasks), t => Passes(env, r, t), q.cursor, q.limit)
    else
      && l.ByOffset? && l.limit == q.limit && l.page == q.page && q.page >= 1 && q.limit >= 1
      && l.total == |Select(env, r, counted, false)|
      && l.totalPages == TotalPages(l.total, q.limit)
      && exists sorted :: IsSortOf(RequestedSort(q), Select(env, r, tasks, false), sorted)
                          && l.data == Page(sorted, q.page, q.limit)
  }

  /** The collection as a map from ids. */
  ghost function Collection(tasks: seq<Task>): Snapshot {
    map id | id in Ids(tasks) :: TaskWith(tasks, id)
  }

  ghost function TaskWith(tasks: seq<Task>, id: nat): (t: Task)
    requires id in Ids(tasks)
    ensures t in tasks && t.id == id
  {
    var i :| 0 <= i < |tasks| && Ids(tasks)[i] == id;
    tasks[i]
  }

  // ------------------------------------------------ facts about selection

  lemma {:induction false} SelectMembers(env: Environment, r: Request, tasks: seq<Task>, withCursor: bool, t: Task)
    ensures t in Select(env, r, tasks, withCursor)
            <==> t in tasks && Passes(env, r, t) && (withCursor ==> PastCursor(r, t))
  {
    if tasks != [] {
      SelectMembers(env, r, tasks[1..], withCursor, t);
      assert t in tasks <==> t == tasks[0] || t in tasks[1..];
    }
  }

  ghost predicate KeyedById(tasks: seq<Task>) {
    forall i, j :: 0 <= i < j < |tasks| ==> tasks[i].id != tasks[j].id
  }

  lemma {:induction false} SelectKeepsKeys(env: Environment, r: Request, tasks: seq<Task>, withCursor: bool)
    requires KeyedById(tasks)
    ensures KeyedById(Select(env, r, tasks, withCursor))
  {
    if tasks != [] {
      var rest := Select(env, r, tasks[1..], withCursor);
      SelectKeepsKeys(env, r, tasks[1..], withCursor);
      forall i | 0 <= i < |rest| ensures rest[i].id != tasks[0].id {
        SelectMembers(env, r, tasks[1..], withCursor, rest[i]);
        var j :| 0 <= j < |tasks[1..]| && tasks[1..][j] == rest[i];
        assert tasks[j + 1] == rest[i];
      }
    }
  }

  lemma {:induction false} InsertKeepsKeys(t: Task, sorted: seq<Task>)
    requires KeyedById(sorted) && forall i :: 0 <= i < |sorted| ==> sorted[i].id != t.id
    ensures KeyedById(Insert(BY_ID, t, sorted))
    ensures forall u :: u in Insert(BY_ID, t, sorted) <==> u == t || u in sorted
  {
    if sorted != [] && Compare(SortSpec.Built(BY_ID), t, sorted[0]) > 0 {
      InsertKeepsKeys(t, sorted[1..]);
      var rest := Insert(BY_ID, t, sorted[1..]);
      assert forall i :: 0 <= i < |rest| ==> rest[i] in rest;
      assert forall u :: u in sorted <==> u == sorted[0] || u in sorted[1..];
    }
  }

  lemma {:induction false} SortKeepsKeys(tasks: seq<Task>)
    requires KeyedById(tasks)
    ensures KeyedById(SortTasks(BY_ID, tasks))
    ensures forall u :: u in SortTasks(BY_ID, tasks) <==> u in tasks
  {
    if tasks != [] {
      SortKeepsKeys(tasks[1..]);
      var rest := SortTasks(BY_ID, tasks[1..]);
      forall i | 0 <= i < |rest| ensures rest[i].id != tasks[0].id {
        assert rest[i] in rest;
        var j :| 0 <= j < |tasks[1..]| && tasks[1..][j] == rest[i];
        assert tasks[j + 1] == rest[i];
      }
      InsertKeepsKeys(tasks[0], rest);
    }
  }

  lemma ByIdMeansAscending(a: Task, b: Task)
    ensures Precedes(BY_ID, a, b) <==> a.id <= b.id
  {
    assert SortSpec.Delete(BY_ID, "priority") == BY_ID;
    assert SortSpec.AssignAll([], BY_ID) == BY_ID;
    assert SortSpec.Built(BY_ID) == BY_ID;
    assert Compare(BY_ID[1..], a, b) == 0;
  }

  /** What the store returns sorted by id is the ascending enumeration of the ids. */
  lemma SortedIdsAscend(tasks: seq<Task>, ids: set<nat>)
    requires KeyedById(tasks) && forall id :: id in ids <==> id in Ids(tasks)
    ensures Ids(SortTasks(BY_ID, tasks)) == Ascending(ids)
  {
    var sorted := SortTasks(BY_ID, tasks);
    SortKeepsKeys(tasks);
    SortExists(BY_ID, tasks);
    forall i, j | 0 <= i < j < |sorted| ensures Ids(sorted)[i] < Ids(sorted)[j] {
      ByIdMeansAscending(sorted[i], sorted[j]);
      assert Precedes(BY_ID, sorted[i], sorted[j]);
    }
    forall id ensures id in Ids(sorted) <==> id in ids {
      SameIds(sorted, tasks, id);
    }
    AscendingUnique(Ids(sorted), ids);
  }

  lemma SameIds(a: seq<Task>, b: seq<Task>, id: nat)
    requires forall u :: u in a <==> u in b
    ensures id in Ids(a) <==> id in Ids(b)
  {
    if id in Ids(a) {
      var i :| 0 <= i < |a| && Ids(a)[i] == id;
      assert a[i] in b;
      var j :| 0 <= j < |b| && b[j] == a[i];
      assert Ids(b)[j] == id;
    }
    if id in Ids(b) {
      var i :| 0 <= i < |b| && Ids(b)[i] == id;
      assert b[i] in a;
      var j :| 0 <= j < |a| && a[j] == b[i];
      assert Ids(a)[j] == id;
    }
  }

  lemma KeyedTaskWith(tasks: seq<Task>, t: Task)
    requires KeyedById(tasks) && t in tasks
    ensures t.id in Ids(tasks) && TaskWith(tasks, t.id) == t
  {
    var i :| 0 <= i < |tasks| && tasks[i] == t;
    assert Ids(tasks)[i] == t.id;
    var u := TaskWith(tasks, t.id);
    var j :| 0 <= j < |tasks| && tasks[j] == u;
    assert !(i < j) && !(j < i);
  }

  lemma SelectedAreMatching(env: Environment, r: Request, tasks: seq<Task>, id: nat)
    requires KeyedById(tasks) && r.query.byCursor
    ensures id in Ids(Select(env, r, tasks, true))
            <==> id in Matching(Collection(tasks), t => Passes(env, r, t), r.query.cursor)
  {
    var selected := Select(env, r, tasks, true);
    if id in Ids(selected) {
      var i :| 0 <= i < |selected| && Ids(selected)[i] == id;
      SelectMembers(env, r, tasks, true, selected[i]);
      KeyedTaskWith(tasks, selected[i]);
    }
    if id in Matching(Collection(tasks), t => Passes(env, r, t), r.query.cursor) {
      var t := TaskWith(tasks, id);
      SelectMembers(env, r, tasks, true, t);
      var i :| 0 <= i < |selected| && selected[i] == t;
      assert Ids(selected)[i] == id;
    }
  }

  lemma FetchedIds(env: Environment, r: Request, tasks: seq<Task>)
    requires KeyedById(tasks) && r.query.byCursor
    ensures Ids(SortTasks(BY_ID, Select(env, r, tasks, true)))
            == Ascending(Matching(Collection(tasks), t => Passes(env, r, t), r.query.cursor))
  {
    SelectKeepsKeys(env, r, tasks, true);
    forall id
      ensures id in Matching(Collection(tasks), t => Passes(env, r, t), r.query.cursor)
              <==> id in Ids(Select(env, r, tasks, true))
    {
      SelectedAreMatching(env, r, tasks, id);
    }
    SortedIdsAscend(Select(env, r, tasks, true), Matching(Collection(tasks), t => Passes(env, r, t), r.query.cursor));
  }

  lemma FetchedTasks(env: Environment, r: Request, tasks: seq<Task>)
    requires KeyedById(tasks)
    ensures forall t :: t in SortTasks(BY_ID, Select(env, r, tasks, true)) ==> t in tasks
  {
    SelectKeepsKeys(env, r, tasks, true);
    SortKeepsKeys(Select(env, r, tasks, true));
    forall t | t in SortTasks(BY_ID, Select(env, r, tasks, true)) ensures t in tasks {
      SelectMembers(env, r, tasks, true, t);
    }
  }

  /** Popping the one task too many and remembering the last one kept is the cut. */
  lemma PoppedPage(sorted: seq<Task>, limit: nat, page: seq<Task>, next: Option<nat>)
    requires limit >= 1
    requires var fetched := sorted[..Min(limit + 1, |sorted|)];
             page == if |fetched| > limit then fetched[..|fetched| - 1] else fetched
    requires next == if |sorted| > limit then Some(page[|page| - 1].id) else None
    ensures CursorPage(Ids(page), next) == Cut(Ids(sorted)[..Min(limit + 1, |sorted|)], limit)
    ensures forall t :: t in page ==> t in sorted
  {
    assert Ids(page) == Ids(sorted)[..|page|];
    assert page == sorted[..|page|];
    assert Ids(sorted)[..Min(limit + 1, |sorted|)][..|page|] == Ids(page);
  }

  // ------------------------------------------------ the repository

  class Repository {
    const env: Environment
    var tasks: seq<Task>
    var cache: map<Request, Listing>
    var taskCacheKeys: set<Request>
    /** Every state the collection has been in. */
    ghost var seen: set<seq<Task>>

    /** The listing was read from states the collection has been in. */
    ghost predicate Backed(r: Request, l: Listing)
      reads this`seen
    {
      exists state, counted :: state in seen && counted in seen && Answers(env, r, state, counted, l)
    }

    ghost predicate Valid()
      reads this
    {
      && KeyedById(tasks)
      && tasks in seen
      && cache.Keys <= taskCacheKeys
      && forall r :: r in cache ==> Backed(r, cache[r])
    }

    constructor (env: Environment, tasks: seq<Task>)
      requires KeyedById(tasks)
      ensures Valid() && this.env == env && this.tasks == tasks && cache == map[] && seen == {tasks}
    {
      this.env := env;
      this.tasks := tasks;
      cache := map[];
      taskCacheKeys := {};
      seen := {tasks};
    }

    /** Any write to the collection by any other code. */
    method Write(changed: seq<Task>)
      requires Valid() && KeyedById(changed)
      modifies this`tasks, this`seen
      ensures Valid() && tasks == changed && seen == old(seen) + {changed}
    {
      tasks := changed;
      seen := seen + {changed};
      forall r | r in cache ensures Backed(r, cache[r]) {
        var state, counted :| state in old(seen) && counted in old(seen) && Answers(env, r, state, counted, cache[r]);
        assert state in seen && counted in seen;
      }
    }

    /** The cache drops an entry when its time is over. */
    method Expire(r: Request)
      requires Valid()
      modifies this`cache
      ensures Valid() && cache == old(cache) - {r}
    {
      cache := cache - {r};
    }

    /** The cursor branch: sort by id, fetch one too many, pop it, remember the last. */
    method CursorListing(r: Request) returns (listing: Listing)
      requires KeyedById(tasks) && r.query.byCursor && r.query.limit >= 1
      ensures Answers(env, r, tasks, tasks, listing)
    {
      var limit := r.query.limit;
      var sorted := SortTasks(BY_ID, Select(env, r, tasks, true));
      var page := sorted[..Min(limit + 1, |sorted|)];
      var hasNextPage := |page| > limit;
      if hasNextPage {
        page := page[..|page| - 1];
      }
      var next := if hasNextPage && |page| > 0 then Some(page[|page| - 1].id) else None;
      PoppedPage(sorted, limit, page, next);
      FetchedIds(env, r, tasks);
      FetchedTasks(env, r, tasks);
      listing := ByCursor(page, limit, next);
    }

    /** The offset branch: sort, skip and limit, then count what the filter lets through
        of the collection as it is by then. */
    method OffsetListing(r: Request, meanwhile: seq<Task>) returns (listing: Listing)
      requires Valid() && !r.query.byCursor && r.query.limit >= 1 && r.query.page >= 1 && KeyedById(meanwhile)
      modifies this`tasks, this`seen
      ensures Valid() && tasks == meanwhile && seen == old(seen) + {meanwhile}
      ensures Answers(env, r, old(tasks), meanwhile, listing)
    {
      var q := r.query;
      var selected := Select(env, r, tasks, false);
      var sorted := SortTasks(RequestedSort(q), selected);
      SortExists(RequestedSort(q), selected);
      var page := Page(sorted, q.page, q.limit);
      Write(meanwhile);
      var total := |Select(env, r, tasks, false)|;
      listing := ByOffset(page, total, q.page, q.limit, TotalPages(total, q.limit));
    }

    /** `findAll`; `meanwhile` is the collection when an offset listing counts. The
        answer to a request that is not refused is the listing of states the collection
        was in, and unless it was cached, of its state at each of the two reads. */
    method FindAll(r: Request, advancedEnabled: bool, meanwhile: seq<Task>) returns (result: Result<Listing, Refusal>)
      requires Valid() && r.query.limit >= 1 && r.query.page >= 1 && KeyedById(meanwhile)
      modifies this
      ensures Valid()
      ensures Advanced(r.query) && !advancedEnabled ==> result == Err(AdvancedFilteringDisabled)
      ensures (Advanced(r.query) ==> advancedEnabled) && r in old(cache) ==> result == Ok(old(cache)[r])
      ensures (Advanced(r.query) ==> advancedEnabled) && r !in old(cache) ==>
                match Refused(env, r)
                case Some(refusal) => result == Err(refusal)
                case None => result.Ok? && Answers(env, r, old(tasks), if r.query.byCursor then old(tasks) else meanwhile, result.value)
      ensures result.Ok? ==> Backed(r, result.value)
      ensures var q := r.query;
              var advanced := q.dueFrom.Some? || q.dueTo.Some? || q.tags.Some? || q.assignee.Some? || q.sort.Some?
                              || q.sortBy != "createdAt" || q.ascending;
              var invalid := q.assignee.Some? && q.assignee.value != "" && q.assignee.value != "me"
                             && env.parseId(q.assignee.value).None?;
              var sorts := (q.sort.Some? && q.sort.value != "") || q.sortBy != "createdAt" || q.ascending;
              && (result == Err(AdvancedFilteringDisabled) <==> advanced && !advancedEnabled)
              && (result == Err(InvalidAssignee) <==> (advanced ==> advancedEnabled) && r !in old(cache) && invalid)
              && (result == Err(CursorWithSorting) <==>
                    (advanced ==> advancedEnabled) && r !in old(cache) && !invalid && q.byCursor && sorts)
      ensures result.Ok? && r !in old(cache) ==>
                cache == old(cache)[r := result.value] && taskCacheKeys == old(taskCacheKeys) + {r}
      ensures result.Err? || r in old(cache) ==> cache == old(cache) && taskCacheKeys == old(taskCacheKeys)
      ensures (tasks == old(tasks) && seen == old(seen)) || (tasks == meanwhile && seen == old(seen) + {meanwhile})
    {
      var q := r.query;
      if Advanced(q) && !advancedEnabled {
        return Err(AdvancedFilteringDisabled);
      }
      if r in cache {
        return Ok(cache[r]);
      }
      if Refused(env, r).Some? {
        return Err(Refused(env, r).value);
      }
      var listing;
      if q.byCursor {
        listing := CursorListing(r);
      } else {
        listing := OffsetListing(r, meanwhile);
      }
      cache := cache[r := listing];
      taskCacheKeys := taskCacheKeys + {r};
      return Ok(listing);
    }

    /** `clearCache`: the loop deletes every tracked key, which is every key. */
    method ClearCache()
      requires Valid()
      modifies this`cache, this`taskCacheKeys
      ensures Valid() && cache == map[] && taskCacheKeys == {}
    {
      var pending := taskCacheKeys;
      while pending != {}
        invariant pending <= taskCacheKeys == old(taskCacheKeys)
        invariant cache.Keys <= pending
        invariant forall r :: r in cache ==> r in old(cache) && cache[r] == old(cache)[r]
        decreases |pending|
      {
        var key :| key in pending;
        cache := cache - {key};
        pending := pending - {key};
      }
      taskCacheKeys := {};
    }
  }
}
