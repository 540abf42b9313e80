/** How the task listing turns its sort parameters into the order of its offset
    pages, and what order that is. */
module SortSpec {
  import opened Common

  datatype Direction = Asc | Desc

  /** A JavaScript object used as a sort specification: its properties in
      insertion order. */
  type Spec = seq<(string, Direction)>

  ghost predicate DistinctKeys(spec: Spec) {
    forall i, j :: 0 <= i < j < |spec| ==> spec[i].0 != spec[j].0
  }

  ghost predicate HasKey(spec: Spec, key: string) {
    exists i :: 0 <= i < |spec| && spec[i].0 == key
  }

  // ------------------------------------------------ object properties

  function Lookup(spec: Spec, key: string): Option<Direction> {
    if spec == [] then None
    else if spec[0].0 == key then Some(spec[0].1)
    else Lookup(spec[1..], key)
  }

  /** Assigning a property keeps the place of an existing one and appends a new one. */
  function Assign(spec: Spec, key: string, dir: Direction): Spec {
    if spec == [] then [(key, dir)]
    else if spec[0].0 == key then [(key, dir)] + spec[1..]
    else [spec[0]] + Assign(spec[1..], key, dir)
  }

  function Delete(spec: Spec, key: string): Spec {
    if spec == [] then []
    else if spec[0].0 == key then Delete(spec[1..], key)
    else [spec[0]] + Delete(spec[1..], key)
  }

  /** `Object.assign(target, source)`. */
  function AssignAll(target: Spec, source: Spec): Spec
    decreases |source|
  {
    if source == [] then target
    else AssignAll(Assign(target, source[0].0, source[0].1), source[1..])
  }

  // ------------------------------------------------ parsing

  function Split(s: string, separator: char): (parts: seq<string>)
    ensures parts != []
  {
    if s == "" then [""]
    else
      var rest := Split(s[1..], separator);
      if s[0] == separator then [""] + rest else [[s[0]] + rest[0]] + rest[1..]
  }

  /** One `key:direction` item; anything but the direction `asc` means descending. */
  function ParseItem(item: string): (string, Direction) {
    var parts := Split(item, ':');
    (parts[0], if |parts| > 1 && parts[1] == "asc" then Asc else Desc)
  }

  function ParseItems(items: seq<string>): Spec {
    if items == [] then []
    else
      var last := ParseItem(items[|items| - 1]);
      Assign(ParseItems(items[..|items| - 1]), last.0, last.1)
  }

  /** The sort the request asks for: the `sort` list when it is given and not
      empty, else the single legacy key. */
  function Requested(sort: Option<string>, sortBy: string, ascending: bool): Spec {
    if sort.Some? && sort.value != "" then ParseItems(Split(sort.value, ','))
    else [(sortBy, if ascending then Asc else Desc)]
  }

  /** The sort the store is given: the weight of the priority first when priority
      was asked for, then the other keys, with `_id` ascending as the last word. */
  function Built(requested: Spec): Spec {
    Assign(AssignAll(WeightFirst(requested), Delete(requested, "priority")), "_id", Asc)
  }

  function WeightFirst(requested: Spec): Spec {
    match Lookup(requested, "priority")
    case Some(dir) => [("priorityWeight", dir)]
    case None => []
  }

  /** The loops of the listing that fill the two objects one property at a time. */
  method BuildSort(sort: Option<string>, sortBy: string, ascending: bool) returns (aggregateSort: Spec)
    ensures aggregateSort == Built(Requested(sort, sortBy, ascending))
  {
    var sortObj: Spec := [];
    if sort.Some? && sort.value != "" {
      var items := Split(sort.value, ',');
      for i := 0 to |items|
        invariant sortObj == ParseItems(items[..i])
      {
        var item := ParseItem(items[i]);
        assert items[..i + 1][..i] == items[..i];
        sortObj := Assign(sortObj, item.0, item.1);
      }
      assert items[..|items|] == items;
    } else {
      sortObj := Assign(sortObj, sortBy, if ascending then Asc else Desc);
    }
    var priority := Lookup(sortObj, "priority");
    sortObj := Delete(sortObj, "priority");
    aggregateSort := [];
    if priority.Some? {
      aggregateSort := Assign(aggregateSort, "priorityWeight", priority.value);
    }
    ghost var start := aggregateSort;
    var rest := sortObj;
    while rest != []
      invariant AssignAll(aggregateSort, rest) == AssignAll(start, sortObj)
      decreases |rest|
    {
      aggregateSort := Assign(aggregateSort, rest[0].0, rest[0].1);
      rest := rest[1..];
    }
    aggregateSort := Assign(aggregateSort, "_id", Asc);
  }

  // ------------------------------------------------ what the built sort is

  lemma {:induction false} LookupFinds(spec: Spec, key: string)
    ensures Lookup(spec, key).Some? <==> HasKey(spec, key)
    ensures DistinctKeys(spec) ==> forall i :: 0 <= i < |spec| && spec[i].0 == key ==> Lookup(spec, key) == Some(spec[i].1)
  {
    if spec != [] {
      LookupFinds(spec[1..], key);
      if HasKey(spec, key) && spec[0].0 != key {
        var i :| 0 <= i < |spec| && spec[i].0 == key;
        assert spec[1..][i - 1].0 == key;
      }
      if HasKey(spec[1..], key) {
        var i :| 0 <= i < |spec[1..]| && spec[1..][i].0 == key;
        assert spec[i + 1].0 == key;
      }
    }
  }

  lemma {:induction false} AssignEffect(spec: Spec, key: string, dir: Direction)
    ensures Lookup(Assign(spec, key, dir), key) == Some(dir)
    ensures forall k :: k != key ==> Lookup(Assign(spec, key, dir), k) == Lookup(spec, k)
    ensures Lookup(spec, key).None? ==> Assign(spec, key, dir) == spec + [(key, dir)]
  {
    if spec != [] && spec[0].0 != key {
      AssignEffect(spec[1..], key, dir);
      assert Assign(spec, key, dir)[1..] == Assign(spec[1..], key, dir);
    } else if spec != [] {
      assert Assign(spec, key, dir)[1..] == spec[1..];
    }
  }

  /** Whatever is asked for, the built sort orders by `_id`, and always upwards:
      a request to sort by `_id` downwards is not honoured. */
  lemma BuiltEndsTies(requested: Spec)
    ensures Lookup(Built(requested), "_id") == Some(Asc)
  {
    AssignEffect(AssignAll(WeightFirst(requested), Delete(requested, "priority")), "_id", Asc);
  }

  /** The direction asked for `_id` is the one used exactly when it is ascending. */
  lemma IdDirectionHonoured(requested: Spec)
    requires Lookup(requested, "_id").Some?
    ensures Lookup(Built(requested), "_id") == Lookup(requested, "_id") <==> Lookup(requested, "_id") == Some(Asc)
  {
    BuiltEndsTies(requested);
  }

  /** Without a list of keys the listing sorts by its one key, then by `_id`. */
  lemma LegacySort(sort: Option<string>, sortBy: string, ascending: bool)
    requires sort.None? || sort.value == ""
    ensures var dir := if ascending then Asc else Desc;
            && Requested(sort, sortBy, ascending) == [(sortBy, dir)]
            && Built(Requested(sort, sortBy, ascending))
                 == (if sortBy == "_id" then [("_id", Asc)]
                     else [(if sortBy == "priority" then "priorityWeight" else sortBy, dir), ("_id", Asc)])
  {
    var dir := if ascending then Asc else Desc;
    OneKeyBuilt(sortBy, dir);
  }

  lemma OneKeyBuilt(key: string, dir: Direction)
    ensures Built([(key, dir)])
              == if key == "_id" then [("_id", Asc)] else [(if key == "priority" then "priorityWeight" else key, dir), ("_id", Asc)]
  {
    var keys := [(key, dir)];
    if key == "priority" {
      assert keys == [] + keys + [];
      DeleteOne([], key, dir, []);
      AssignLast("priorityWeight", dir);
    } else {
      DeleteAbsent(keys, "priority");
      assert keys[1..] == [] && AssignAll([], keys) == AssignAll(keys, []) == keys;
      if key != "_id" { AssignLast(key, dir); }
    }
  }

  lemma AssignLast(key: string, dir: Direction)
    requires key != "_id"
    ensures Assign([(key, dir)], "_id", Asc) == [(key, dir), ("_id", Asc)]
  {
    assert [(key, dir)][1..] == [];
  }

  function Print(spec: Spec): string {
    if spec == [] then ""
    else
      var item := spec[0].0 + (if spec[0].1 == Asc then ":asc" else ":desc");
      if |spec| == 1 then item else item + "," + Print(spec[1..])
  }

  ghost predicate Ordinary(key: string) {
    ',' !in key && ':' !in key && key != "_id" && key != "priorityWeight"
  }

  lemma {:induction false} SplitFirst(head: string, separator: char, tail: string)
    requires separator !in head
    ensures Split(head, separator) == [head]
    ensures Split(head + [separator] + tail, separator) == [head] + Split(tail, separator)
  {
    var whole := head + [separator] + tail;
    if head == "" {
      assert whole[1..] == tail;
    } else {
      SplitFirst(head[1..], separator, tail);
      assert head[0] in head && forall c :: c in head[1..] ==> c in head;
      assert whole[1..] == head[1..] + [separator] + tail;
      assert [head[0]] + head[1..] == head;
    }
  }

  lemma ParseItemOfPrinted(key: string, dir: Direction)
    requires ':' !in key
    ensures ParseItem(key + (if dir == Asc then ":asc" else ":desc")) == (key, dir)
  {
    var word := if dir == Asc then "asc" else "desc";
    SplitFirst(key, ':', word);
    SplitFirst(word, ':', "");
    assert key + [':'] + word == key + (if dir == Asc then ":asc" else ":desc");
  }

  /** Only the word `asc` asks for the ascending order; without a word it is descending. */
  lemma DirectionWord(key: string, word: string)
    requires ':' !in key && ':' !in word
    ensures ParseItem(key + ":" + word) == (key, if word == "asc" then Asc else Desc)
    ensures ParseItem(key) == (key, Desc)
  {
    SplitFirst(key, ':', word);
    SplitFirst(word, ':', "");
    assert key + [':'] + word == key + ":" + word;
  }

  function PrintedItems(spec: Spec): seq<string> {
    seq(|spec|, i requires 0 <= i < |spec| => spec[i].0 + (if spec[i].1 == Asc then ":asc" else ":desc"))
  }

  lemma {:induction false} SplitPrinted(spec: Spec)
    requires spec != [] && forall i :: 0 <= i < |spec| ==> ',' !in spec[i].0
    ensures Split(Print(spec), ',') == PrintedItems(spec)
  {
    var item := PrintedItems(spec)[0];
    if |spec| == 1 {
      SplitFirst(item, ',', "");
    } else {
      SplitFirst(item, ',', Print(spec[1..]));
      SplitPrinted(spec[1..]);
      assert PrintedItems(spec) == [item] + PrintedItems(spec[1..]);
    }
  }

  lemma {:induction false} ParsePrintedItems(spec: Spec)
    requires DistinctKeys(spec) && forall i :: 0 <= i < |spec| ==> ':' !in spec[i].0
    ensures ParseItems(PrintedItems(spec)) == spec
  {
    if spec != [] {
      var n := |spec| - 1;
      var items := PrintedItems(spec);
      assert items[..n] == PrintedItems(spec[..n]);
      ParsePrintedItems(spec[..n]);
      ParseItemOfPrinted(spec[n].0, spec[n].1);
      AssignsNew(spec, n);
    }
  }

  lemma AssignsNew(spec: Spec, n: nat)
    requires DistinctKeys(spec) && |spec| == n + 1
    ensures Assign(spec[..n], spec[n].0, spec[n].1) == spec
  {
    LookupFinds(spec[..n], spec[n].0);
    AssignEffect(spec[..n], spec[n].0, spec[n].1);
    assert spec == spec[..n] + [spec[n]];
  }

  lemma {:induction false} DeleteKeeps(spec: Spec, key: string)
    requires DistinctKeys(spec)
    ensures DistinctKeys(Delete(spec, key)) && !HasKey(Delete(spec, key), key)
    ensures forall k :: HasKey(Delete(spec, key), k) ==> HasKey(spec, k)
  {
    if spec != [] {
      DeleteKeeps(spec[1..], key);
      var rest := Delete(spec[1..], key);
      forall k | HasKey(spec[1..], k) ensures HasKey(spec, k) && k != spec[0].0 {
        var i :| 0 <= i < |spec[1..]| && spec[1..][i].0 == k;
        assert spec[i + 1].0 == k;
      }
      if spec[0].0 != key {
        assert forall i :: 0 <= i < |rest| ==> HasKey(rest, rest[i].0);
        forall k | HasKey(Delete(spec, key), k) ensures HasKey(spec, k) && k != key {
          var i :| 0 <= i < |Delete(spec, key)| && Delete(spec, key)[i].0 == k;
          if i > 0 {
            assert rest[i - 1].0 == k;
            assert HasKey(rest, k);
          }
        }
      }
    }
  }

  lemma {:induction false} AssignNewKeys(target: Spec, source: Spec)
    requires DistinctKeys(target + source)
    ensures AssignAll(target, source) == target + source
    decreases |source|
  {
    if source == [] {
      assert target + source == target;
    } else {
      forall i | 0 <= i < |target| ensures target[i].0 != source[0].0 {
        assert (target + source)[i] == target[i] && (target + source)[|target|] == source[0];
      }
      LookupFinds(target, source[0].0);
      AssignEffect(target, source[0].0, source[0].1);
      assert target + [source[0]] + source[1..] == target + source;
      AssignNewKeys(target + [source[0]], source[1..]);
    }
  }

  lemma PrintedParses(keys: Spec, sortBy: string, ascending: bool)
    requires keys != [] && DistinctKeys(keys)
    requires forall i :: 0 <= i < |keys| ==> ',' !in keys[i].0 && ':' !in keys[i].0
    ensures Requested(Some(Print(keys)), sortBy, ascending) == keys
  {
    SplitPrinted(keys);
    ParsePrintedItems(keys);
    assert Print(keys) != "" by {
      assert |PrintedItems(keys)[0]| > 0;
    }
  }

  lemma WeightThenRest(keys: Spec, rest: Spec)
    requires DistinctKeys(rest) && !HasKey(rest, "priorityWeight")
    ensures DistinctKeys(WeightFirst(keys) + rest)
  {
    var all := WeightFirst(keys) + rest;
    forall i, j | 0 <= i < j < |all| ensures all[i].0 != all[j].0 {
      var k := j - |WeightFirst(keys)|;
      assert all[j] == rest[k];
      assert HasKey(rest, rest[k].0);
    }
  }

  lemma NoKeyInSum(weight: Spec, rest: Spec, key: string)
    requires !HasKey(weight, key) && !HasKey(rest, key)
    ensures !HasKey(weight + rest, key)
  {
    forall i | 0 <= i < |weight + rest| ensures (weight + rest)[i].0 != key {
      assert (weight + rest)[i] == if i < |weight| then weight[i] else rest[i - |weight|];
    }
  }

  /** Assigning the last word to properties that do not have it puts it at the end. */
  lemma IdComesLast(weight: Spec, rest: Spec)
    requires DistinctKeys(weight + rest) && !HasKey(weight, "_id") && !HasKey(rest, "_id")
    ensures Assign(AssignAll(weight, rest), "_id", Asc) == weight + rest + [("_id", Asc)]
  {
    AssignNewKeys(weight, rest);
    NoKeyInSum(weight, rest, "_id");
    LookupFinds(weight + rest, "_id");
    AssignEffect(weight + rest, "_id", Asc);
  }

  lemma OrdinaryHasNot(keys: Spec, key: string)
    requires key == "_id" || key == "priorityWeight"
    requires forall i :: 0 <= i < |keys| ==> Ordinary(keys[i].0)
    ensures !HasKey(keys, key)
  {
  }

  lemma WeightHasNoId(keys: Spec)
    ensures !HasKey(WeightFirst(keys), "_id")
  {
    assert "priorityWeight"[0] == 'p';
  }

  lemma DeleteHasNot(keys: Spec, key: string, absent: string)
    requires DistinctKeys(keys) && !HasKey(keys, absent)
    ensures DistinctKeys(Delete(keys, key)) && !HasKey(Delete(keys, key), absent)
  {
    DeleteKeeps(keys, key);
  }

  lemma BuiltListsAll(keys: Spec)
    requires DistinctKeys(keys) && !HasKey(keys, "_id") && !HasKey(keys, "priorityWeight")
    ensures Built(keys) == WeightFirst(keys) + Delete(keys, "priority") + [("_id", Asc)]
  {
    var weight, rest := WeightFirst(keys), Delete(keys, "priority");
    DeleteHasNot(keys, "priority", "_id");
    DeleteHasNot(keys, "priority", "priorityWeight");
    WeightThenRest(keys, rest);
    WeightHasNoId(keys);
    IdComesLast(weight, rest);
  }

  lemma {:induction false} DeleteAbsent(spec: Spec, key: string)
    requires forall i :: 0 <= i < |spec| ==> spec[i].0 != key
    ensures Delete(spec, key) == spec && Lookup(spec, key).None?
  {
    if spec != [] { DeleteAbsent(spec[1..], key); }
  }

  lemma {:induction false} DeleteOne(before: Spec, key: string, dir: Direction, after: Spec)
    requires forall i :: 0 <= i < |before| ==> before[i].0 != key
    requires forall i :: 0 <= i < |after| ==> after[i].0 != key
    ensures Delete(before + [(key, dir)] + after, key) == before + after
    ensures Lookup(before + [(key, dir)] + after, key) == Some(dir)
  {
    var all := before + [(key, dir)] + after;
    if before == [] {
      assert all[1..] == after;
      DeleteAbsent(after, key);
    } else {
      assert all[1..] == before[1..] + [(key, dir)] + after;
      DeleteOne(before[1..], key, dir, after);
      assert [before[0]] + (before[1..] + after) == before + after;
    }
  }

  /** Main result on the parameters: for distinct ordinary names, the text that
      lists them is understood as exactly that list, and the store sorts by the
      priority weight first if priority is listed, in its direction, then by the
      other keys in the order listed, then by `_id`. */
  lemma SortMeansWhatItLists(keys: Spec, sortBy: string, ascending: bool, p: nat)
    requires keys != [] && DistinctKeys(keys) && forall i :: 0 <= i < |keys| ==> Ordinary(keys[i].0)
    ensures Requested(Some(Print(keys)), sortBy, ascending) == keys
    ensures p < |keys| && keys[p].0 == "priority" ==>
              Built(keys) == [("priorityWeight", keys[p].1)] + keys[..p] + keys[p + 1..] + [("_id", Asc)]
    ensures (forall i :: 0 <= i < |keys| ==> keys[i].0 != "priority") ==> Built(keys) == keys + [("_id", Asc)]
  {
    PrintedParses(keys, sortBy, ascending);
    OrdinaryHasNot(keys, "_id");
    OrdinaryHasNot(keys, "priorityWeight");
    BuiltMeans(keys, p);
  }

  lemma BuiltMeans(keys: Spec, p: nat)
    requires DistinctKeys(keys) && !HasKey(keys, "_id") && !HasKey(keys, "priorityWeight")
    ensures p < |keys| && keys[p].0 == "priority" ==>
              Built(keys) == [("priorityWeight", keys[p].1)] + keys[..p] + keys[p + 1..] + [("_id", Asc)]
    ensures (forall i :: 0 <= i < |keys| ==> keys[i].0 != "priority") ==> Built(keys) == keys + [("_id", Asc)]
  {
    BuiltListsAll(keys);
    if p < |keys| && keys[p].0 == "priority" { PriorityBuilt(keys, keys[..p], keys[p].1, keys[p + 1..]); }
    if forall i :: 0 <= i < |keys| ==> keys[i].0 != "priority" { DeleteAbsent(keys, "priority"); }
  }

  lemma PriorityBuilt(keys: Spec, before: Spec, dir: Direction, after: Spec)
    requires DistinctKeys(keys) && keys == before + [("priority", dir)] + after
    ensures WeightFirst(keys) + Delete(keys, "priority") == [("priorityWeight", dir)] + before + after
  {
    var p := |before|;
    assert keys[p].0 == "priority";
    forall i | 0 <= i < |before| ensures before[i].0 != "priority" { assert before[i] == keys[i]; }
    forall i | 0 <= i < |after| ensures after[i].0 != "priority" { assert after[i] == keys[p + 1 + i]; }
    DeleteOne(before, "priority", dir, after);
    assert WeightFirst(keys) == [("priorityWeight", dir)];
  }
}
