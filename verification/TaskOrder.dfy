/** The order the store gives to listed tasks, and the offset pages cut from it. */
module TaskOrder {
  import opened Common
  import opened SortSpec

  /** A stored field value, ordered as the store orders values of mixed kinds:
      absent values first, then numbers and dates, then strings. */
  datatype Value = Missing | Number(n: int) | Text(s: string)

  datatype Task = Task(id: nat, workspace: nat, owner: nat, isDeleted: bool,
                       tags: seq<string>, assignees: seq<nat>, fields: map<string, Value>)

  function Field(t: Task, key: string): Value {
    if key in t.fields then t.fields[key] else Missing
  }

  function PriorityWeight(t: Task): int {
    match Field(t, "priority")
    case Text(p) => if p == "low" then 1 else if p == "medium" then 2 else if p == "high" then 3 else 0
    case _ => 0
  }

  /** The value a sort key reads in the pipeline, after the weight was added. */
  function SortValue(t: Task, key: string): Value {
    if key == "_id" then Number(t.id)
    else if key == "priorityWeight" then Number(PriorityWeight(t))
    else Field(t, key)
  }

  // ------------------------------------------------ comparison

  function CompareInt(a: int, b: int): int {
    if a < b then -1 else if a == b then 0 else 1
  }

  function CompareText(a: string, b: string): int {
    if a == "" || b == "" then CompareInt(|a|, |b|)
    else if a[0] != b[0] then CompareInt(a[0] as int, b[0] as int)
    else CompareText(a[1..], b[1..])
  }

  function Kind(v: Value): int {
    match v
    case Missing => 0
    case Number(_) => 1
    case Text(_) => 2
  }

  function CompareValue(a: Value, b: Value): int {
    if Kind(a) != Kind(b) then CompareInt(Kind(a), Kind(b))
    else
      match a
      case Missing => 0
      case Number(n) => CompareInt(n, b.n)
      case Text(s) => CompareText(s, b.s)
  }

  function Directed(c: int, dir: Direction): int { if dir == Asc then c else -c }

  /** Negative when `a` comes before `b` under the sort, positive when after. */
  function Compare(spec: Spec, a: Task, b: Task): int {
    if spec == [] then 0
    else
      var c := Directed(CompareValue(SortValue(a, spec[0].0), SortValue(b, spec[0].0)), spec[0].1);
      if c != 0 then c else Compare(spec[1..], a, b)
  }

  lemma {:induction false} CompareTextIsOrder(a: string, b: string, c: string)
    ensures CompareText(a, b) == -CompareText(b, a)
    ensures CompareText(a, b) == 0 ==> a == b
    ensures CompareText(a, b) <= 0 && CompareText(b, c) <= 0 ==> CompareText(a, c) <= 0
    ensures CompareText(a, b) <= 0 && CompareText(b, c) <= 0 && CompareText(a, c) == 0 ==> CompareText(a, b) == 0
  {
    if a != "" && b != "" && a[0] == b[0] {
      CompareTextIsOrder(a[1..], b[1..], if c == "" then "" else c[1..]);
      assert a == [a[0]] + a[1..] && b == [b[0]] + b[1..];
    }
  }

  lemma CompareValueIsOrder(a: Value, b: Value, c: Value)
    ensures CompareValue(a, b) == -CompareValue(b, a)
    ensures CompareValue(a, b) == 0 <==> a == b
    ensures CompareValue(a, b) <= 0 && CompareValue(b, c) <= 0 ==> CompareValue(a, c) <= 0
  {
    if a.Text? && b.Text? {
      CompareTextIsOrder(a.s, b.s, if c.Text? then c.s else "");
      CompareTextIsOrder(a.s, a.s, "");
    }
  }

  lemma {:induction false} CompareIsPreorder(spec: Spec, a: Task, b: Task, c: Task)
    ensures Compare(spec, a, b) == -Compare(spec, b, a)
    ensures Compare(spec, a, b) <= 0 && Compare(spec, b, c) <= 0 ==> Compare(spec, a, c) <= 0
  {
    if spec != [] {
      var x, y, z := SortValue(a, spec[0].0), SortValue(b, spec[0].0), SortValue(c, spec[0].0);
      CompareValueIsOrder(x, y, z);
      CompareValueIsOrder(y, x, x);
      CompareValueIsOrder(z, y, x);
      CompareValueIsOrder(x, z, y);
      CompareIsPreorder(spec[1..], a, b, c);
    }
  }

  lemma {:induction false} TiesShareEveryKey(spec: Spec, a: Task, b: Task, key: string)
    requires Compare(spec, a, b) == 0 && Lookup(spec, key).Some?
    ensures SortValue(a, key) == SortValue(b, key)
  {
    CompareValueIsOrder(SortValue(a, spec[0].0), SortValue(b, spec[0].0), Missing);
    if spec[0].0 != key {
      TiesShareEveryKey(spec[1..], a, b, key);
    }
  }

  /** The order a listing is in, for the request's sort. */
  ghost predicate Precedes(requested: Spec, a: Task, b: Task) {
    Compare(Built(requested), a, b) <= 0
  }

  /** For every sort a request can ask for, the built comparison is a total order
      on tasks with different ids: two tasks never tie. */
  lemma BuiltSortIsTotalOrder(requested: Spec, a: Task, b: Task, c: Task)
    ensures Precedes(requested, a, b) || Precedes(requested, b, a)
    ensures Precedes(requested, a, b) && Precedes(requested, b, a) ==> a.id == b.id
    ensures Precedes(requested, a, b) && Precedes(requested, b, c) ==> Precedes(requested, a, c)
  {
    var spec := Built(requested);
    CompareIsPreorder(spec, a, b, c);
    if Compare(spec, a, b) == 0 {
      BuiltEndsTies(requested);
      TiesShareEveryKey(spec, a, b, "_id");
    }
  }

  // ------------------------------------------------ what the order is

  /** Text is ordered by its first difference, and a beginning comes before the whole. */
  ghost predicate TextBefore(a: string, b: string) {
    exists i :: DiffersAt(a, b, i)
  }

  ghost predicate DiffersAt(a: string, b: string, i: nat) {
    i <= |a| && i < |b| && a[..i] == b[..i] && (i == |a| || a[i] < b[i])
  }

  /** Absent values come first, then numbers by size, then text. */
  ghost predicate ValueBefore(a: Value, b: Value) {
    match a
    case Missing => !b.Missing?
    case Number(n) => b.Text? || (b.Number? && n < b.n)
    case Text(s) => b.Text? && TextBefore(s, b.s)
  }

  lemma SameBeginning(a: string, b: string, i: nat)
    requires DiffersAt(a, b, i) && a != "" && b != ""
    ensures i == 0 || a[0] == b[0]
  {
    if i > 0 { assert a[..i][0] == b[..i][0]; }
  }

  lemma {:induction false} CompareTextMeans(a: string, b: string)
    ensures CompareText(a, b) < 0 <==> TextBefore(a, b)
  {
    if a == "" || b == "" {
      if a == "" && b != "" { assert DiffersAt(a, b, 0); }
    } else if a[0] != b[0] {
      if a[0] < b[0] { assert DiffersAt(a, b, 0); }
      if i: nat :| DiffersAt(a, b, i) {
        SameBeginning(a, b, i);
      }
    } else {
      CompareTextMeans(a[1..], b[1..]);
      if i: nat :| DiffersAt(a[1..], b[1..], i) {
        assert a[..i + 1] == [a[0]] + a[1..][..i] && b[..i + 1] == [b[0]] + b[1..][..i];
        assert DiffersAt(a, b, i + 1);
      }
      if i: nat :| DiffersAt(a, b, i) {
        assert i > 0;
        assert a[1..][..i - 1] == a[..i][1..] && b[1..][..i - 1] == b[..i][1..];
        assert DiffersAt(a[1..], b[1..], i - 1);
      }
    }
  }

  lemma CompareValueMeans(a: Value, b: Value)
    ensures CompareValue(a, b) < 0 <==> ValueBefore(a, b)
    ensures CompareValue(a, b) > 0 <==> ValueBefore(b, a)
    ensures CompareValue(a, b) == 0 <==> a == b
  {
    CompareValueIsOrder(a, b, a);
    if a.Text? && b.Text? {
      CompareTextMeans(a.s, b.s);
      CompareTextMeans(b.s, a.s);
    }
  }

  /** The i-th key decides: the tasks agree in all keys before it, and in its direction
      the first comes before the second. */
  ghost predicate DecidesAt(spec: Spec, a: Task, b: Task, i: nat) {
    && i < |spec| && (forall j :: 0 <= j < i ==> SortValue(a, spec[j].0) == SortValue(b, spec[j].0))
    && var x, y := SortValue(a, spec[i].0), SortValue(b, spec[i].0);
       if spec[i].1 == Asc then ValueBefore(x, y) else ValueBefore(y, x)
  }

  /** One task comes before another exactly when the first key in which they differ says so. */
  lemma {:induction false} FirstDifferenceDecides(spec: Spec, a: Task, b: Task)
    ensures Compare(spec, a, b) < 0 <==> exists i :: DecidesAt(spec, a, b, i)
  {
    if spec != [] {
      var x, y := SortValue(a, spec[0].0), SortValue(b, spec[0].0);
      CompareValueMeans(x, y);
      if x == y {
        FirstDifferenceDecides(spec[1..], a, b);
        if i: nat :| DecidesAt(spec[1..], a, b, i) {
          forall j | 0 <= j < i + 1 ensures SortValue(a, spec[j].0) == SortValue(b, spec[j].0) {
            if j > 0 { assert spec[1..][j - 1] == spec[j]; }
          }
          assert DecidesAt(spec, a, b, i + 1);
        }
        if i: nat :| DecidesAt(spec, a, b, i) { LaterKeyDecides(spec, a, b, i); }
      } else {
        assert DecidesAt(spec, a, b, 0) <==> Compare(spec, a, b) < 0;
        if i: nat :| DecidesAt(spec, a, b, i) { assert i == 0; }
      }
    }
  }

  lemma LaterKeyDecides(spec: Spec, a: Task, b: Task, i: nat)
    requires DecidesAt(spec, a, b, i) && SortValue(a, spec[0].0) == SortValue(b, spec[0].0)
    ensures i > 0 && DecidesAt(spec[1..], a, b, i - 1)
  {
    var x := SortValue(a, spec[0].0);
    CompareValueMeans(x, x);
    assert i > 0;
    forall j | 0 <= j < i - 1 ensures SortValue(a, spec[1..][j].0) == SortValue(b, spec[1..][j].0) {
      assert spec[1..][j] == spec[j + 1];
    }
  }

  /** What a sort key reads: the id, the weight of the priority, or the stored field. */
  lemma SortsBy(t: Task, key: string)
    ensures SortValue(t, "_id") == Number(t.id)
    ensures SortValue(t, "priorityWeight")
              == Number(if "priority" !in t.fields then 0
                        else if t.fields["priority"] == Text("low") then 1
                        else if t.fields["priority"] == Text("medium") then 2
                        else if t.fields["priority"] == Text("high") then 3 else 0)
    ensures key != "_id" && key != "priorityWeight" ==> SortValue(t, key) == if key in t.fields then t.fields[key] else Missing
  {
    assert "_id"[0] != "priorityWeight"[0];
  }

  // ------------------------------------------------ the sorted listing

  /** An id names one task, as the store's primary key makes sure. */
  ghost predicate IdsIdentify(tasks: multiset<Task>) {
    forall t, u :: t in tasks && u in tasks && t.id == u.id ==> t == u
  }

  ghost predicate Sorted(requested: Spec, tasks: seq<Task>) {
    forall i, j :: 0 <= i < j < |tasks| ==> Precedes(requested, tasks[i], tasks[j])
  }

  /** What the store's sort stage may return for a collection. */
  ghost predicate IsSortOf(requested: Spec, collection: seq<Task>, sorted: seq<Task>) {
    multiset(sorted) == multiset(collection) && Sorted(requested, sorted)
  }

  lemma RemoveHead(xs: seq<Task>)
    requires xs != []
    ensures multiset(xs[1..]) == multiset(xs) - multiset{xs[0]}
  {
    assert xs == [xs[0]] + xs[1..];
  }

  lemma TailSorted(requested: Spec, xs: seq<Task>)
    requires xs != [] && Sorted(requested, xs)
    ensures Sorted(requested, xs[1..])
  {
  }

  lemma TailIdentified(xs: seq<Task>)
    requires xs != [] && IdsIdentify(multiset(xs))
    ensures IdsIdentify(multiset(xs[1..]))
  {
    RemoveHead(xs);
  }

  lemma SameLength(xs: seq<Task>, ys: seq<Task>)
    requires multiset(xs) == multiset(ys)
    ensures |xs| == |ys|
  {
    assert |multiset(xs)| == |xs| && |multiset(ys)| == |ys|;
  }

  /** The order is unique: the store has no freedom in answering a listing. */
  lemma {:induction false} SortIsUnique(requested: Spec, xs: seq<Task>, ys: seq<Task>)
    requires multiset(xs) == multiset(ys) && IdsIdentify(multiset(xs))
    requires Sorted(requested, xs) && Sorted(requested, ys)
    ensures xs == ys
  {
    SameLength(xs, ys);
    if xs != [] {
      HeadsAgree(requested, xs, ys);
      TailsAgree(xs, ys);
      TailSorted(requested, xs);
      TailSorted(requested, ys);
      TailIdentified(xs);
      SortIsUnique(requested, xs[1..], ys[1..]);
      HeadAndTail(xs, ys);
    }
  }

  lemma TailsAgree(xs: seq<Task>, ys: seq<Task>)
    requires xs != [] && ys != [] && multiset(xs) == multiset(ys) && xs[0] == ys[0]
    ensures multiset(xs[1..]) == multiset(ys[1..])
  {
    RemoveHead(xs);
    RemoveHead(ys);
  }

  lemma HeadAndTail(xs: seq<Task>, ys: seq<Task>)
    requires xs != [] && ys != [] && xs[0] == ys[0] && xs[1..] == ys[1..]
    ensures xs == ys
  {
    assert xs == [xs[0]] + xs[1..] && ys == [ys[0]] + ys[1..];
  }

  lemma HeadsAgree(requested: Spec, xs: seq<Task>, ys: seq<Task>)
    requires xs != [] && ys != [] && multiset(xs) == multiset(ys) && IdsIdentify(multiset(xs))
    requires Sorted(requested, xs) && Sorted(requested, ys)
    ensures xs[0] == ys[0]
  {
    assert xs[0] in multiset(ys) && ys[0] in multiset(xs);
    BuiltSortIsTotalOrder(requested, xs[0], ys[0], xs[0]);
    BuiltSortIsTotalOrder(requested, xs[0], xs[0], xs[0]);
    BuiltSortIsTotalOrder(requested, ys[0], ys[0], ys[0]);
  }

  // ------------------------------------------------ offset pages

  /** The page stages: skip, then limit. */
  function Page(sorted: seq<Task>, page: nat, limit: nat): seq<Task>
    requires page >= 1
  {
    var from := Min((page - 1) * limit, |sorted|);
    sorted[from..Min(from + limit, |sorted|)]
  }

  /** `Math.ceil(total / limit)`. */
  function TotalPages(total: nat, limit: nat): nat
    requires limit >= 1
  {
    (total + limit - 1) / limit
  }

  /** The first `n` pages put together, each cut from its own answer of the store. */
  function Pages(answers: seq<seq<Task>>, limit: nat): seq<Task> {
    if answers == [] then []
    else Pages(answers[..|answers| - 1], limit) + Page(answers[|answers| - 1], |answers|, limit)
  }

  lemma CeilDivision(total: nat, limit: nat)
    requires limit >= 1
    ensures var pages := TotalPages(total, limit);
            pages * limit >= total && (pages > 0 ==> (pages - 1) * limit < total)
  {
  }

  lemma MulStep(n: nat, limit: nat)
    ensures (n + 1) * limit == n * limit + limit
  {
  }

  lemma NextPage(sorted: seq<Task>, done: nat, limit: nat)
    ensures var from := Min(done, |sorted|);
            sorted[..from] + sorted[from..Min(from + limit, |sorted|)] == sorted[..Min(done + limit, |sorted|)]
  {
  }

  lemma {:induction false} PagesArePrefix(sorted: seq<Task>, answers: seq<seq<Task>>, limit: nat)
    requires limit >= 1 && forall i :: 0 <= i < |answers| ==> answers[i] == sorted
    ensures Pages(answers, limit) == sorted[..Min(|answers| * limit, |sorted|)]
  {
    if answers != [] {
      var n := |answers| - 1;
      PagesArePrefix(sorted, answers[..n], limit);
      MulStep(n, limit);
      NextPage(sorted, n * limit, limit);
    }
  }

  /** Main result on offset pages: over an unchanged collection, whatever sorted
      answer the store gives to each request, the pages in order put together are
      the sorted collection, once each. */
  lemma OffsetPagesCoverOnce(requested: Spec, collection: seq<Task>, sorted: seq<Task>,
                             answers: seq<seq<Task>>, limit: nat)
    requires limit >= 1 && IdsIdentify(multiset(collection))
    requires IsSortOf(requested, collection, sorted)
    requires |answers| == TotalPages(|collection|, limit)
    requires forall i :: 0 <= i < |answers| ==> IsSortOf(requested, collection, answers[i])
    ensures Pages(answers, limit) == sorted
  {
    forall i | 0 <= i < |answers| ensures answers[i] == sorted {
      SortIsUnique(requested, sorted, answers[i]);
    }
    assert |multiset(sorted)| == |sorted| && |multiset(collection)| == |collection|;
    PagesArePrefix(sorted, answers, limit);
    CeilDivision(|collection|, limit);
  }

  /** Every page but the last is full, the last is not empty, later ones are. */
  lemma PageSizes(sorted: seq<Task>, page: nat, limit: nat)
    requires page >= 1 && limit >= 1
    ensures page < TotalPages(|sorted|, limit) ==> |Page(sorted, page, limit)| == limit
    ensures page == TotalPages(|sorted|, limit) ==> 1 <= |Page(sorted, page, limit)| <= limit
    ensures page > TotalPages(|sorted|, limit) ==> Page(sorted, page, limit) == []
  {
    var pages := TotalPages(|sorted|, limit);
    CeilDivision(|sorted|, limit);
    if page < pages {
      MulMonotone(page, pages - 1, limit);
      MulStep(page - 1, limit);
    } else if page > pages {
      MulMonotone(pages, page - 1, limit);
    }
  }

  lemma MulMonotone(a: nat, b: nat, c: nat)
    requires a <= b
    ensures a * c <= b * c
  {
  }

  // ------------------------------------------------ a sort that exists

  function Insert(requested: Spec, t: Task, sorted: seq<Task>): seq<Task> {
    if sorted == [] then [t]
    else if Compare(Built(requested), t, sorted[0]) <= 0 then [t] + sorted
    else [sorted[0]] + Insert(requested, t, sorted[1..])
  }

  /** One way to sort; by uniqueness, the only result a sort can have. */
  function SortTasks(requested: Spec, tasks: seq<Task>): seq<Task> {
    if tasks == [] then [] else Insert(requested, tasks[0], SortTasks(requested, tasks[1..]))
  }

  lemma PrependSorts(requested: Spec, t: Task, sorted: seq<Task>)
    requires Sorted(requested, sorted) && forall i :: 0 <= i < |sorted| ==> Precedes(requested, t, sorted[i])
    ensures Sorted(requested, [t] + sorted)
    ensures multiset([t] + sorted) == multiset(sorted) + multiset{t}
  {
  }

  lemma InsertFirst(requested: Spec, t: Task, sorted: seq<Task>)
    requires Sorted(requested, sorted) && sorted != [] && Precedes(requested, t, sorted[0])
    ensures forall i :: 0 <= i < |sorted| ==> Precedes(requested, t, sorted[i])
  {
    forall i | 0 <= i < |sorted| ensures Precedes(requested, t, sorted[i]) {
      BuiltSortIsTotalOrder(requested, t, sorted[0], sorted[i]);
      BuiltSortIsTotalOrder(requested, t, t, t);
    }
  }

  lemma HeadBefore(requested: Spec, t: Task, sorted: seq<Task>, rest: seq<Task>)
    requires Sorted(requested, sorted) && sorted != [] && Precedes(requested, sorted[0], t)
    requires multiset(rest) == multiset(sorted[1..]) + multiset{t}
    ensures forall i :: 0 <= i < |rest| ==> Precedes(requested, sorted[0], rest[i])
  {
    forall i | 0 <= i < |rest| ensures Precedes(requested, sorted[0], rest[i]) {
      assert rest[i] in multiset(rest);
      assert rest[i] == t || rest[i] in sorted[1..];
    }
  }

  lemma {:induction false} InsertSorts(requested: Spec, t: Task, sorted: seq<Task>)
    requires Sorted(requested, sorted)
    ensures Sorted(requested, Insert(requested, t, sorted))
    ensures multiset(Insert(requested, t, sorted)) == multiset(sorted) + multiset{t}
  {
    if sorted == [] {
    } else if Compare(Built(requested), t, sorted[0]) <= 0 {
      InsertFirst(requested, t, sorted);
      PrependSorts(requested, t, sorted);
    } else {
      var rest := Insert(requested, t, sorted[1..]);
      TailSorted(requested, sorted);
      InsertSorts(requested, t, sorted[1..]);
      RemoveHead(sorted);
      BuiltSortIsTotalOrder(requested, t, sorted[0], t);
      HeadBefore(requested, t, sorted, rest);
      PrependSorts(requested, sorted[0], rest);
    }
  }

  /** A sorted answer always exists, with the ids of the collection. */
  lemma {:induction false} SortExists(requested: Spec, tasks: seq<Task>)
    ensures IsSortOf(requested, tasks, SortTasks(requested, tasks))
  {
    if tasks != [] {
      SortExists(requested, tasks[1..]);
      RemoveHead(tasks);
      InsertSorts(requested, tasks[0], SortTasks(requested, tasks[1..]));
    }
  }
}
