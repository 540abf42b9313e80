/** Which tasks a listing shows: those the asker may see and the filters ask for, and
    all of them. */
module ListingMeaning {
  import opened Common
  import SortSpec
  import opened TaskOrder
  import opened CursorWalk
  import opened TaskRepository

  /** Every task of a listing, cached or not, is of the workspace asked for, not deleted,
      and, unless an admin asks, the asker's own; and it meets every filter given. */
  lemma ListedTasksQualify(env: Environment, r: Request, tasks: seq<Task>, counted: seq<Task>, l: Listing, t: Task)
    requires KeyedById(tasks) && Answers(env, r, tasks, counted, l) && r.query.limit >= 1 && t in l.data
    ensures var q := r.query;
            && t in tasks && !t.isDeleted && t.workspace == r.workspace && (r.role == "admin" || t.owner == r.user)
            && (q.status == "" || Field(t, "status") == Text(q.status))
            && (q.search == "" || env.found(q.search, t))
            && (q.dueFrom.None? || exists n :: Field(t, "dueDate") == Number(n) && n >= q.dueFrom.value)
            && (q.dueTo.None? || exists n :: Field(t, "dueDate") == Number(n) && n <= q.dueTo.value)
            && (q.tags.None? || q.tags.value == "" || forall tag :: tag in SortSpec.Split(q.tags.value, ',') ==> tag in t.tags)
            && (q.assignee == Some("me") ==> r.user in t.assignees)
            && (q.assignee.Some? && q.assignee.value != "" && q.assignee.value != "me" ==>
                  exists id :: env.parseId(q.assignee.value) == Some(id) && id in t.assignees)
  {
    if r.query.byCursor { CursorListed(env, r, tasks, counted, l, t); } else { OffsetListed(env, r, tasks, counted, l, t); }
    PassesMeans(env, r, t);
  }

  /** What the match stage lets through. */
  lemma PassesMeans(env: Environment, r: Request, t: Task)
    ensures var q := r.query;
            Passes(env, r, t) <==>
            (&& !t.isDeleted && t.workspace == r.workspace && (r.role == "admin" || t.owner == r.user)
             && (q.status == "" || Field(t, "status") == Text(q.status))
             && (q.search == "" || env.found(q.search, t))
             && (q.dueFrom.None? || exists n :: Field(t, "dueDate") == Number(n) && n >= q.dueFrom.value)
             && (q.dueTo.None? || exists n :: Field(t, "dueDate") == Number(n) && n <= q.dueTo.value)
             && (q.tags.None? || q.tags.value == "" || forall tag :: tag in SortSpec.Split(q.tags.value, ',') ==> tag in t.tags)
             && (q.assignee == Some("me") ==> r.user in t.assignees)
             && (q.assignee.Some? && q.assignee.value != "" && q.assignee.value != "me" ==>
                   exists id :: env.parseId(q.assignee.value) == Some(id) && id in t.assignees))
  {
  }

  lemma CursorListed(env: Environment, r: Request, tasks: seq<Task>, counted: seq<Task>, l: Listing, t: Task)
    requires KeyedById(tasks) && Answers(env, r, tasks, counted, l) && r.query.limit >= 1 && r.query.byCursor && t in l.data
    ensures t in tasks && Passes(env, r, t)
  {
    var i :| 0 <= i < |l.data| && l.data[i] == t;
    assert Ids(l.data)[i] == t.id;
    OnPageOrLater(Collection(tasks), u => Passes(env, r, u), r.query.cursor, r.query.limit, t.id);
    KeyedTaskWith(tasks, t);
  }

  lemma OffsetListed(env: Environment, r: Request, tasks: seq<Task>, counted: seq<Task>, l: Listing, t: Task)
    requires Answers(env, r, tasks, counted, l) && !r.query.byCursor && t in l.data
    ensures t in tasks && Passes(env, r, t)
  {
    var sorted :| IsSortOf(RequestedSort(r.query), Select(env, r, tasks, false), sorted) && l.data == Page(sorted, r.query.page, r.query.limit);
    assert t in sorted;
    assert t in multiset(sorted) && t in multiset(Select(env, r, tasks, false));
    SelectMembers(env, r, tasks, false, t);
  }

  /** A listing by one key is in its order: nothing stands after a task that should stand
      before it. By priority that is low, medium, high, and all else before them. */
  lemma ListedInOrder(env: Environment, r: Request, tasks: seq<Task>, counted: seq<Task>, l: Listing, i: nat, j: nat)
    requires Answers(env, r, tasks, counted, l) && !r.query.byCursor && (r.query.sort.None? || r.query.sort == Some(""))
    requires i < j < |l.data| && r.query.sortBy != "_id"
    ensures var key := if r.query.sortBy == "priority" then "priorityWeight" else r.query.sortBy;
            var x, y := SortValue(l.data[i], key), SortValue(l.data[j], key);
            && !(if r.query.ascending then ValueBefore(y, x) else ValueBefore(x, y))
            && (x == y ==> l.data[i].id <= l.data[j].id)
  {
    var q := r.query;
    ListedPrecedes(env, r, tasks, counted, l, i, j);
    SortSpec.LegacySort(q.sort, q.sortBy, q.ascending);
    NotReversed(SortSpec.Built(RequestedSort(q)), l.data[i], l.data[j]);
  }

  lemma ListedPrecedes(env: Environment, r: Request, tasks: seq<Task>, counted: seq<Task>, l: Listing, i: nat, j: nat)
    requires Answers(env, r, tasks, counted, l) && !r.query.byCursor && i < j < |l.data|
    ensures Compare(SortSpec.Built(RequestedSort(r.query)), l.data[i], l.data[j]) <= 0
  {
    var q := r.query;
    var sorted :| IsSortOf(RequestedSort(q), Select(env, r, tasks, false), sorted) && l.data == Page(sorted, q.page, q.limit);
    PageKeepsOrder(RequestedSort(q), sorted, q.page, q.limit, i, j);
  }

  lemma PageKeepsOrder(requested: SortSpec.Spec, sorted: seq<Task>, page: nat, limit: nat, i: nat, j: nat)
    requires Sorted(requested, sorted) && page >= 1 && i < j < |Page(sorted, page, limit)|
    ensures Precedes(requested, Page(sorted, page, limit)[i], Page(sorted, page, limit)[j])
  {
    var from := Min((page - 1) * limit, |sorted|);
    assert Page(sorted, page, limit)[i] == sorted[from + i] && Page(sorted, page, limit)[j] == sorted[from + j];
  }

  lemma NotReversed(spec: SortSpec.Spec, a: Task, b: Task)
    requires Compare(spec, a, b) <= 0 && |spec| == 2 && spec[1] == ("_id", SortSpec.Asc)
    ensures var x, y := SortValue(a, spec[0].0), SortValue(b, spec[0].0);
            && !(if spec[0].1 == SortSpec.Asc then ValueBefore(y, x) else ValueBefore(x, y))
            && (x == y ==> a.id <= b.id)
  {
    CompareIsPreorder(spec, a, b, a);
    FirstDifferenceDecides(spec, b, a);
    SortsBy(a, "");
    SortsBy(b, "");
    if b.id < a.id { assert ValueBefore(SortValue(b, "_id"), SortValue(a, "_id")); }
    assert !DecidesAt(spec, b, a, 0) && !DecidesAt(spec, b, a, 1);
  }

  // ------------------------------------------------ all pages together

  function OnPage(r: Request, page: nat): Request { r.(query := r.query.(page := page)) }

  function Together(listings: seq<Listing>): seq<Task> {
    if listings == [] then [] else Together(listings[..|listings| - 1]) + listings[|listings| - 1].data
  }

  lemma {:induction false} PageDoesNotSelect(env: Environment, r: Request, page: nat, tasks: seq<Task>)
    ensures Select(env, OnPage(r, page), tasks, false) == Select(env, r, tasks, false)
  {
    if tasks != [] { PageDoesNotSelect(env, r, page, tasks[1..]); }
  }

  lemma {:induction false} SelectCounts(env: Environment, r: Request, tasks: seq<Task>, t: Task)
    requires KeyedById(tasks)
    ensures multiset(Select(env, r, tasks, false))[t] == if t in tasks && Passes(env, r, t) then 1 else 0
  {
    if tasks != [] {
      SelectCounts(env, r, tasks[1..], t);
      var rest := Select(env, r, tasks[1..], false);
      assert multiset([tasks[0]] + rest)[t] == multiset(rest)[t] + if tasks[0] == t then 1 else 0;
      assert t in tasks <==> t == tasks[0] || t in tasks[1..];
      if t in tasks[1..] {
        var j :| 0 <= j < |tasks[1..]| && tasks[1..][j] == t;
        assert tasks[j + 1] == t;
      }
    }
  }

  lemma SelectedIdentify(env: Environment, r: Request, tasks: seq<Task>)
    requires KeyedById(tasks)
    ensures IdsIdentify(multiset(Select(env, r, tasks, false)))
  {
    var selected := Select(env, r, tasks, false);
    SelectKeepsKeys(env, r, tasks, false);
    forall t: Task, u: Task | t in multiset(selected) && u in multiset(selected) && t.id == u.id ensures t == u {
      var i :| 0 <= i < |selected| && selected[i] == t;
      var j :| 0 <= j < |selected| && selected[j] == u;
    }
  }

  lemma PageIsOfTheSort(env: Environment, r: Request, page: nat, tasks: seq<Task>, l: Listing, sorted: seq<Task>)
    requires KeyedById(tasks) && !r.query.byCursor && page >= 1 && Answers(env, OnPage(r, page), tasks, tasks, l)
    requires sorted == SortTasks(RequestedSort(r.query), Select(env, r, tasks, false))
    ensures l.data == Page(sorted, page, r.query.limit)
  {
    PageDoesNotSelect(env, r, page, tasks);
    var own :| IsSortOf(RequestedSort(r.query), Select(env, r, tasks, false), own) && l.data == Page(own, page, r.query.limit);
    SelectedIdentify(env, r, tasks);
    SortExists(RequestedSort(r.query), Select(env, r, tasks, false));
    SortIsUnique(RequestedSort(r.query), own, sorted);
  }

  lemma {:induction false} TogetherArePages(env: Environment, r: Request, tasks: seq<Task>, listings: seq<Listing>, sorted: seq<Task>,
                                            answers: seq<seq<Task>>)
    requires KeyedById(tasks) && !r.query.byCursor && |answers| == |listings|
    requires forall i :: 0 <= i < |listings| ==> answers[i] == sorted && Answers(env, OnPage(r, i + 1), tasks, tasks, listings[i])
    requires sorted == SortTasks(RequestedSort(r.query), Select(env, r, tasks, false))
    ensures Together(listings) == Pages(answers, r.query.limit)
  {
    if listings != [] {
      var n := |listings| - 1;
      TogetherArePages(env, r, tasks, listings[..n], sorted, answers[..n]);
      PageIsOfTheSort(env, r, n + 1, tasks, listings[n], sorted);
    }
  }

  /** The pages of an offset listing together, over an unchanged collection, hold every
      undeleted task of the workspace that the asker may see and that meets the filters,
      once each, and no other: an admin sees all of them, any other user their own. */
  lemma OffsetPagesListExactly(env: Environment, r: Request, tasks: seq<Task>, listings: seq<Listing>, t: Task)
    requires KeyedById(tasks) && !r.query.byCursor && r.query.limit >= 1
    requires |listings| == TotalPages(|Select(env, r, tasks, false)|, r.query.limit)
    requires forall i :: 0 <= i < |listings| ==> Answers(env, OnPage(r, i + 1), tasks, tasks, listings[i])
    ensures var q := r.query;
            multiset(Together(listings))[t] ==
            if (&& t in tasks && !t.isDeleted && t.workspace == r.workspace && (r.role == "admin" || t.owner == r.user)
                && (q.status == "" || Field(t, "status") == Text(q.status))
                && (q.search == "" || env.found(q.search, t))
                && (q.dueFrom.None? || exists n :: Field(t, "dueDate") == Number(n) && n >= q.dueFrom.value)
                && (q.dueTo.None? || exists n :: Field(t, "dueDate") == Number(n) && n <= q.dueTo.value)
                && (q.tags.None? || q.tags.value == "" || forall tag :: tag in SortSpec.Split(q.tags.value, ',') ==> tag in t.tags)
                && (q.assignee == Some("me") ==> r.user in t.assignees)
                && (q.assignee.Some? && q.assignee.value != "" && q.assignee.value != "me" ==>
                      exists id :: env.parseId(q.assignee.value) == Some(id) && id in t.assignees)) then 1 else 0
  {
    var selected := Select(env, r, tasks, false);
    var sorted := SortTasks(RequestedSort(r.query), selected);
    var answers := seq(|listings|, i requires 0 <= i < |listings| => sorted);
    SelectedIdentify(env, r, tasks);
    SortExists(RequestedSort(r.query), selected);
    TogetherArePages(env, r, tasks, listings, sorted, answers);
    OffsetPagesCoverOnce(RequestedSort(r.query), selected, sorted, answers, r.query.limit);
    SelectCounts(env, r, tasks, t);
    PassesMeans(env, r, t);
  }

  /** And the walk by cursor returns the ids of exactly these tasks. */
  lemma CursorWalkListsExactly(env: Environment, r: Request, tasks: seq<Task>, snapshots: seq<Snapshot>, id: nat)
    requires KeyedById(tasks) && r.query.limit >= 1 && Constant(snapshots, Collection(tasks))
    requires |snapshots| >= Max(1, TotalPages(|Matching(Collection(tasks), t => Passes(env, r, t), None)|, r.query.limit))
    ensures id in Walk(snapshots, t => Passes(env, r, t), None, r.query.limit) <==>
            exists t :: t in tasks && t.id == id && Passes(env, r, t)
  {
    var filter := t => Passes(env, r, t);
    var matching := Matching(Collection(tasks), filter, None);
    WalkOverFixedData(snapshots, Collection(tasks), filter, None, r.query.limit);
    AscendingFacts(matching);
    assert id in Ascending(matching) <==> id in matching;
    if t :| t in tasks && t.id == id && Passes(env, r, t) { KeyedTaskWith(tasks, t); }
    if id in matching { assert TaskWith(tasks, id) in tasks; }
  }
}
