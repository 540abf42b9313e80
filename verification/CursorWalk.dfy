/** Cursor pages of the task listing, and walks over them while the collection
    changes between requests. */
module CursorWalk {
  import opened Common
  import opened TaskOrder

  /** The collection at the moment one request reads it. */
  type Snapshot = map<nat, Task>

  ghost predicate Ascends(ids: seq<nat>) {
    forall i, j :: 0 <= i < j < |ids| ==> ids[i] < ids[j]
  }

  // ------------------------------------------------ ascending enumeration

  predicate IsLeast(m: nat, ids: set<nat>) { m in ids && forall x :: x in ids ==> m <= x }

  lemma {:induction false} LeastExists(ids: set<nat>)
    requires ids != {}
    ensures exists m :: IsLeast(m, ids)
  {
    var y :| y in ids;
    var smaller := set x | x in ids && x < y;
    if smaller == {} {
      assert forall x :: x in ids ==> x in smaller || y <= x;
      assert IsLeast(y, ids);
    } else {
      assert smaller < ids by { assert y !in smaller; }
      LeastExists(smaller);
      var m :| IsLeast(m, smaller);
      assert forall x :: x in ids ==> x in smaller || y <= x;
      assert IsLeast(m, ids);
    }
  }

  ghost function Least(ids: set<nat>): (m: nat)
    requires ids != {}
    ensures m in ids && forall x :: x in ids ==> m <= x
  {
    LeastExists(ids);
    var m :| IsLeast(m, ids);
    m
  }

  /** The ids from the smallest up: what sorting by `_id` gives. */
  ghost function Ascending(ids: set<nat>): seq<nat> {
    if ids == {} then [] else [Least(ids)] + Ascending(ids - {Least(ids)})
  }

  lemma PrependLeast(m: nat, rest: seq<nat>, others: set<nat>)
    requires Ascends(rest) && (forall x :: x in rest <==> x in others) && forall x :: x in others ==> m < x
    ensures Ascends([m] + rest) && forall x :: x in [m] + rest <==> x == m || x in others
  {
    assert forall i :: 0 <= i < |rest| ==> rest[i] in rest;
  }

  lemma {:induction false} AscendingFacts(ids: set<nat>)
    ensures |Ascending(ids)| == |ids| && Ascends(Ascending(ids))
    ensures forall x :: x in Ascending(ids) <==> x in ids
  {
    if ids != {} {
      var m := Least(ids);
      AscendingFacts(ids - {m});
      PrependLeast(m, Ascending(ids - {m}), ids - {m});
    }
  }

  lemma HeadIsLeast(r: seq<nat>, ids: set<nat>)
    requires r != [] && Ascends(r) && ids != {} && forall x :: x in r <==> x in ids
    ensures r[0] == Least(ids)
    ensures Ascends(r[1..]) && forall x :: x in r[1..] <==> x in ids - {Least(ids)}
  {
    var m := Least(ids);
    assert r[0] in r;
    var i :| 0 <= i < |r| && r[i] == m;
    forall x ensures x in r[1..] <==> x in ids - {m} {
      if x in ids - {m} {
        var j :| 0 <= j < |r| && r[j] == x;
        assert r[1..][j - 1] == x;
      }
      if x in r[1..] {
        var j :| 0 <= j < |r[1..]| && r[1..][j] == x;
        assert r[j + 1] == x && x in r;
      }
    }
  }

  lemma {:induction false} AscendingUnique(r: seq<nat>, ids: set<nat>)
    requires Ascends(r) && forall x :: x in r <==> x in ids
    ensures r == Ascending(ids)
  {
    if r == [] {
      assert ids == {};
    } else {
      assert r[0] in r;
      HeadIsLeast(r, ids);
      AscendingUnique(r[1..], ids - {Least(ids)});
      assert r == [r[0]] + r[1..];
    }
  }

  lemma AscendsJoin(a: seq<nat>, b: seq<nat>, pivot: nat)
    requires Ascends(a) && Ascends(b)
    requires (forall x :: x in a ==> x <= pivot) && forall y :: y in b ==> y > pivot
    ensures Ascends(a + b)
  {
    var r := a + b;
    forall i, j | 0 <= i < j < |r| ensures r[i] < r[j] {
      assert i < |a| ==> r[i] == a[i] && a[i] in a;
      assert j >= |a| ==> r[j] == b[j - |a|] && b[j - |a|] in b;
    }
  }

  // ------------------------------------------------ one page

  /** The ids the match stage lets through: filter and cursor. */
  ghost function Matching(snapshot: Snapshot, filter: Task -> bool, cursor: Option<nat>): set<nat> {
    set id | id in snapshot && filter(snapshot[id]) && (cursor.Some? ==> id > cursor.value)
  }

  datatype CursorPage = CursorPage(ids: seq<nat>, next: Option<nat>)

  /** Fetch one more than the page holds; if it came, drop it and hand out the
      last id kept as the cursor of the next request. */
  function Cut(fetched: seq<nat>, limit: nat): CursorPage {
    if |fetched| > limit then
      var kept := fetched[..|fetched| - 1];
      CursorPage(kept, if |kept| > 0 then Some(kept[|kept| - 1]) else None)
    else CursorPage(fetched, None)
  }

  ghost function PageAt(snapshot: Snapshot, filter: Task -> bool, cursor: Option<nat>, limit: nat): CursorPage {
    var all := Ascending(Matching(snapshot, filter, cursor));
    Cut(all[..Min(limit + 1, |all|)], limit)
  }

  lemma CutMeaning(all: seq<nat>, limit: nat)
    requires limit >= 1
    ensures var page := Cut(all[..Min(limit + 1, |all|)], limit);
            && page.ids == all[..Min(limit, |all|)]
            && (page.next.Some? <==> |all| > limit)
            && (page.next.Some? ==> page.next.value == all[limit - 1])
  {
    if |all| > limit {
      assert all[..limit + 1][..limit] == all[..limit];
    }
  }

  lemma UpToLastKept(all: seq<nat>, limit: nat, id: nat)
    requires limit >= 1 && |all| > limit && Ascends(all) && id in all
    ensures id <= all[limit - 1] <==> id in all[..limit]
  {
    var i :| 0 <= i < |all| && all[i] == id;
    if i < limit {
      assert all[..limit][i] == id;
    } else {
      assert all[limit - 1] < id;
      assert forall k :: 0 <= k < limit ==> all[..limit][k] < all[i];
    }
  }

  /** A page holds the first `limit` matching ids, and a next cursor exactly when
      there are more; of the matching ids it holds exactly those up to that cursor. */
  lemma PageMeaning(snapshot: Snapshot, filter: Task -> bool, cursor: Option<nat>, limit: nat)
    requires limit >= 1
    ensures var page := PageAt(snapshot, filter, cursor, limit);
            var all := Ascending(Matching(snapshot, filter, cursor));
            && page.ids == all[..Min(limit, |all|)] && Ascends(page.ids)
            && (page.next.Some? <==> |all| > limit)
            && (page.next.Some? ==> page.next.value == all[limit - 1])
  {
    AscendingFacts(Matching(snapshot, filter, cursor));
    CutMeaning(Ascending(Matching(snapshot, filter, cursor)), limit);
  }

  lemma KeptAreOfAll(all: seq<nat>, limit: nat, id: nat)
    requires limit <= |all|
    ensures id in all[..limit] ==> id in all
  {
    assert forall k :: 0 <= k < limit ==> all[..limit][k] == all[k];
  }

  lemma OnPageOrLater(snapshot: Snapshot, filter: Task -> bool, cursor: Option<nat>, limit: nat, id: nat)
    requires limit >= 1
    ensures var page := PageAt(snapshot, filter, cursor, limit);
            id in page.ids <==> id in Matching(snapshot, filter, cursor) && (page.next.Some? ==> id <= page.next.value)
  {
    var all := Ascending(Matching(snapshot, filter, cursor));
    AscendingFacts(Matching(snapshot, filter, cursor));
    CutMeaning(all, limit);
    if |all| > limit {
      KeptAreOfAll(all, limit, id);
      if id in all {
        UpToLastKept(all, limit, id);
      }
    } else {
      assert all[..|all|] == all;
    }
  }

  // ------------------------------------------------ a walk

  /** The ids returned when each request uses the cursor the one before it gave,
      the i-th request reading the i-th snapshot. */
  ghost function Walk(snapshots: seq<Snapshot>, filter: Task -> bool, cursor: Option<nat>, limit: nat): seq<nat> {
    if snapshots == [] then []
    else
      var page := PageAt(snapshots[0], filter, cursor, limit);
      if page.next.None? then page.ids
      else page.ids + Walk(snapshots[1..], filter, page.next, limit)
  }

  /** How many requests the walk makes: it stops at a page without a next cursor. */
  ghost function Requests(snapshots: seq<Snapshot>, filter: Task -> bool, cursor: Option<nat>, limit: nat): nat {
    if snapshots == [] then 0
    else
      var page := PageAt(snapshots[0], filter, cursor, limit);
      if page.next.None? then 1 else 1 + Requests(snapshots[1..], filter, page.next, limit)
  }

  /** True when some page of the walk came without a next cursor. */
  ghost predicate Finished(snapshots: seq<Snapshot>, filter: Task -> bool, cursor: Option<nat>, limit: nat) {
    snapshots != [] &&
    var page := PageAt(snapshots[0], filter, cursor, limit);
    page.next.None? || Finished(snapshots[1..], filter, page.next, limit)
  }

  ghost predicate AllPast(ids: seq<nat>, cursor: Option<nat>) {
    cursor.Some? ==> forall id :: id in ids ==> id > cursor.value
  }

  lemma PagePastCursor(snapshot: Snapshot, filter: Task -> bool, cursor: Option<nat>, limit: nat)
    requires limit >= 1
    ensures var page := PageAt(snapshot, filter, cursor, limit);
            && AllPast(page.ids, cursor)
            && (page.next.Some? ==> (forall id :: id in page.ids ==> id <= page.next.value)
                                    && (cursor.Some? ==> page.next.value > cursor.value))
  {
    var page := PageAt(snapshot, filter, cursor, limit);
    forall id | id in page.ids
      ensures id in Matching(snapshot, filter, cursor) && (page.next.Some? ==> id <= page.next.value)
    {
      OnPageOrLater(snapshot, filter, cursor, limit, id);
    }
    if page.next.Some? {
      PageMeaning(snapshot, filter, cursor, limit);
      AscendingFacts(Matching(snapshot, filter, cursor));
      assert Ascending(Matching(snapshot, filter, cursor))[limit - 1] in Ascending(Matching(snapshot, filter, cursor));
    }
  }

  /** No duplicates: over any sequence of snapshots, the ids of a whole walk are
      strictly increasing. */
  lemma {:induction false} WalkAscends(snapshots: seq<Snapshot>, filter: Task -> bool, cursor: Option<nat>, limit: nat)
    requires limit >= 1
    ensures Ascends(Walk(snapshots, filter, cursor, limit)) && AllPast(Walk(snapshots, filter, cursor, limit), cursor)
  {
    if snapshots != [] {
      var page := PageAt(snapshots[0], filter, cursor, limit);
      PageMeaning(snapshots[0], filter, cursor, limit);
      PagePastCursor(snapshots[0], filter, cursor, limit);
      if page.next.Some? {
        WalkAscends(snapshots[1..], filter, page.next, limit);
        AscendsJoin(page.ids, Walk(snapshots[1..], filter, page.next, limit), page.next.value);
      }
    }
  }

  /** Nothing foreign: every id returned matched when its page was read. */
  lemma {:induction false} WalkReturnsMatches(snapshots: seq<Snapshot>, filter: Task -> bool, cursor: Option<nat>,
                                              limit: nat, id: nat)
    requires limit >= 1 && id in Walk(snapshots, filter, cursor, limit)
    ensures exists i :: 0 <= i < |snapshots| && id in Matching(snapshots[i], filter, None)
  {
    var page := PageAt(snapshots[0], filter, cursor, limit);
    OnPageOrLater(snapshots[0], filter, cursor, limit, id);
    if id in page.ids {
      assert id in Matching(snapshots[0], filter, None);
    } else {
      WalkReturnsMatches(snapshots[1..], filter, page.next, limit, id);
      var i :| 0 <= i < |snapshots[1..]| && id in Matching(snapshots[1..][i], filter, None);
      assert snapshots[1..][i] == snapshots[i + 1];
    }
  }

  /** No gaps: a task past the cursor that matches in every snapshot is returned
      by a walk that reaches its end. */
  lemma {:induction false} WalkMissesNothing(snapshots: seq<Snapshot>, filter: Task -> bool, cursor: Option<nat>,
                                             limit: nat, id: nat)
    requires limit >= 1 && Finished(snapshots, filter, cursor, limit)
    requires forall i :: 0 <= i < |snapshots| ==> id in Matching(snapshots[i], filter, cursor)
    ensures id in Walk(snapshots, filter, cursor, limit)
  {
    var page := PageAt(snapshots[0], filter, cursor, limit);
    OnPageOrLater(snapshots[0], filter, cursor, limit, id);
    assert id in Matching(snapshots[0], filter, cursor);
    if id !in page.ids {
      forall i | 0 <= i < |snapshots[1..]| ensures id in Matching(snapshots[1..][i], filter, page.next) {
        assert snapshots[1..][i] == snapshots[i + 1];
        assert id in Matching(snapshots[i + 1], filter, cursor);
      }
      WalkMissesNothing(snapshots[1..], filter, page.next, limit, id);
    }
  }

  ghost function Occurrences(ids: seq<nat>, id: nat): set<nat> {
    set i: nat | i < |ids| && ids[i] == id
  }

  lemma AscendsMeansOnce(ids: seq<nat>, id: nat)
    requires Ascends(ids)
    ensures |Occurrences(ids, id)| == if id in ids then 1 else 0
  {
    if id in ids {
      var i: nat :| i < |ids| && ids[i] == id;
      forall j | j in Occurrences(ids, id) ensures j == i {
        assert !(i < j) && !(j < i);
      }
      assert Occurrences(ids, id) == {i};
    } else {
      assert Occurrences(ids, id) == {};
    }
  }

  /** Main result on changing data: walking from the start over any snapshots to
      the end returns every task that matches throughout exactly once, and no task
      more than once. */
  lemma WalkIsExactOnChangingData(snapshots: seq<Snapshot>, filter: Task -> bool, limit: nat, id: nat)
    requires limit >= 1 && Finished(snapshots, filter, None, limit)
    ensures |Occurrences(Walk(snapshots, filter, None, limit), id)| <= 1
    ensures (forall i :: 0 <= i < |snapshots| ==> id in Matching(snapshots[i], filter, None))
            ==> |Occurrences(Walk(snapshots, filter, None, limit), id)| == 1
  {
    WalkAscends(snapshots, filter, None, limit);
    AscendsMeansOnce(Walk(snapshots, filter, None, limit), id);
    if forall i :: 0 <= i < |snapshots| ==> id in Matching(snapshots[i], filter, None) {
      WalkMissesNothing(snapshots, filter, None, limit, id);
    }
  }

  // ------------------------------------------------ a walk over fixed data

  lemma InTail(all: seq<nat>, limit: nat, x: nat)
    requires Ascends(all) && 1 <= limit < |all|
    ensures x in all[limit..] <==> x in all && x > all[limit - 1]
  {
    if x in all[limit..] {
      var i :| 0 <= i < |all[limit..]| && all[limit..][i] == x;
      assert all[i + limit] == x;
    }
    if x in all && x > all[limit - 1] {
      var i :| 0 <= i < |all| && all[i] == x;
      assert i >= limit;
      assert all[limit..][i - limit] == x;
    }
  }

  /** Moving the cursor to the end of a page leaves exactly the rest. */
  lemma RestAfterPage(snapshot: Snapshot, filter: Task -> bool, cursor: Option<nat>, limit: nat)
    requires limit >= 1 && |Ascending(Matching(snapshot, filter, cursor))| > limit
    ensures var all := Ascending(Matching(snapshot, filter, cursor));
            Ascending(Matching(snapshot, filter, Some(all[limit - 1]))) == all[limit..]
  {
    var all := Ascending(Matching(snapshot, filter, cursor));
    var rest := Matching(snapshot, filter, Some(all[limit - 1]));
    AscendingFacts(Matching(snapshot, filter, cursor));
    assert all[limit - 1] in all;
    forall x ensures x in all[limit..] <==> x in rest {
      InTail(all, limit, x);
      assert x in all <==> x in Matching(snapshot, filter, cursor);
    }
    assert Ascends(all[limit..]);
    AscendingUnique(all[limit..], rest);
  }

  ghost predicate Constant(snapshots: seq<Snapshot>, snapshot: Snapshot) {
    forall i :: 0 <= i < |snapshots| ==> snapshots[i] == snapshot
  }

  lemma FixedStep(snapshots: seq<Snapshot>, filter: Task -> bool, cursor: Option<nat>, limit: nat)
    requires limit >= 1 && snapshots != []
    ensures var all := Ascending(Matching(snapshots[0], filter, cursor));
            if |all| <= limit then
              && Walk(snapshots, filter, cursor, limit) == all
              && Finished(snapshots, filter, cursor, limit)
              && Requests(snapshots, filter, cursor, limit) == 1
            else
              var next := Some(all[limit - 1]);
              && Walk(snapshots, filter, cursor, limit) == all[..limit] + Walk(snapshots[1..], filter, next, limit)
              && (Finished(snapshots, filter, cursor, limit) <==> Finished(snapshots[1..], filter, next, limit))
              && Requests(snapshots, filter, cursor, limit) == 1 + Requests(snapshots[1..], filter, next, limit)
  {
    var all := Ascending(Matching(snapshots[0], filter, cursor));
    PageMeaning(snapshots[0], filter, cursor, limit);
    assert all[..|all|] == all;
  }

  lemma PageCount(n: nat, limit: nat)
    requires limit >= 1
    ensures n <= limit ==> Max(1, TotalPages(n, limit)) == 1
    ensures n > limit ==> Max(1, TotalPages(n, limit)) == 1 + Max(1, TotalPages(n - limit, limit))
  {
    if n > limit {
      PagesAfterOne(n, limit);
    } else {
      CeilDivision(n, limit);
      CeilUnique(n, limit, TotalPages(n, limit), 1);
    }
  }

  lemma AscendingCounts(ids: set<nat>)
    ensures |Ascending(ids)| == |ids|
  {
    AscendingFacts(ids);
  }

  lemma SplitAt(all: seq<nat>, at: nat)
    requires at <= |all|
    ensures all[..at] + all[at..] == all && |all[at..]| == |all| - at
  {
  }

  /** Main result on unchanged data: the walk returns the matching ids in order and
      ends after max(1, ceil(n / limit)) requests, neither sooner nor later. */
  lemma {:induction false} WalkOverFixedData(snapshots: seq<Snapshot>, snapshot: Snapshot, filter: Task -> bool,
                                             cursor: Option<nat>, limit: nat)
    requires limit >= 1 && Constant(snapshots, snapshot)
    requires |snapshots| >= Max(1, TotalPages(|Matching(snapshot, filter, cursor)|, limit))
    ensures Walk(snapshots, filter, cursor, limit) == Ascending(Matching(snapshot, filter, cursor))
    ensures Finished(snapshots, filter, cursor, limit)
    ensures Requests(snapshots, filter, cursor, limit)
            == Max(1, TotalPages(|Matching(snapshot, filter, cursor)|, limit))
    decreases |snapshots|
  {
    var all := Ascending(Matching(snapshot, filter, cursor));
    AscendingCounts(Matching(snapshot, filter, cursor));
    FixedStep(snapshots, filter, cursor, limit);
    PageCount(|all|, limit);
    if |all| > limit {
      var next := Some(all[limit - 1]);
      RestAfterPage(snapshot, filter, cursor, limit);
      AscendingCounts(Matching(snapshot, filter, next));
      WalkOverFixedData(snapshots[1..], snapshot, filter, next, limit);
      SplitAt(all, limit);
    }
  }

  lemma CeilUnique(n: nat, limit: nat, a: nat, b: nat)
    requires limit >= 1 && a * limit >= n && b * limit >= n
    requires (a > 0 ==> (a - 1) * limit < n) && (b > 1 ==> (b - 1) * limit < n)
    ensures a <= b && (b > 1 ==> a == b)
  {
    if a > b {
      MulMonotone(b, a - 1, limit);
    } else if a < b && b > 1 {
      MulMonotone(a, b - 1, limit);
    }
  }

  lemma PagesAfterOne(n: nat, limit: nat)
    requires limit >= 1 && n > limit
    ensures TotalPages(n, limit) == 1 + TotalPages(n - limit, limit) && TotalPages(n - limit, limit) >= 1
  {
    var a, b := TotalPages(n, limit), TotalPages(n - limit, limit);
    CeilDivision(n, limit);
    CeilDivision(n - limit, limit);
    MulStep(b, limit);
    if b > 0 { MulStep(b - 1, limit); }
    CeilUnique(n, limit, a, b + 1);
  }
}
