/** The category repository: queries answered from a cache whose keys the repository
    tracks, so that every write can clear them. */
module CategoryCache {
  import opened Common
  import opened CategoryVersions

  type Docs = seq<Category>

  // ------------------------------------------------ ids

  predicate IsHex(c: char) { '0' <= c <= '9' || 'a' <= c <= 'f' || 'A' <= c <= 'F' }

  function LowerChar(c: char): char { if 'A' <= c <= 'F' then ((c as int) + 32) as char else c }

  /** The cast of a string to an ObjectId, printed in lower case. */
  function Cast(s: string): Option<Id> {
    if |s| == 24 && forall i :: 0 <= i < 24 ==> IsHex(s[i]) then Some(seq(24, i requires 0 <= i < 24 => LowerChar(s[i]))) else None
  }

  predicate IsId(s: string) { Cast(s) == Some(s) }

  // ------------------------------------------------ the collection

  /** The place of a document, or the length of the collection. */
  function Position(docs: Docs, id: Id): (r: nat)
    ensures r <= |docs| && (r < |docs| ==> docs[r].id == id)
    ensures forall i :: 0 <= i < r ==> docs[i].id != id
  {
    if docs == [] then 0
    else
      var p := Position(docs[..|docs| - 1], id);
      if p < |docs| - 1 then p else if docs[|docs| - 1].id == id then |docs| - 1 else |docs|
  }

  predicate Has(docs: Docs, id: Id) { Position(docs, id) < |docs| }

  function Get(docs: Docs, id: Id): Category
    requires Has(docs, id)
  {
    docs[Position(docs, id)]
  }

  predicate Distinct(docs: Docs) { forall i, j :: 0 <= i < j < |docs| ==> docs[i].id != docs[j].id }

  function OwnedBy(docs: Docs, owner: Id): Docs {
    if docs == [] then []
    else OwnedBy(docs[..|docs| - 1], owner) + (if docs[|docs| - 1].owner == owner then [docs[|docs| - 1]] else [])
  }

  function IdsOf(docs: Docs): set<Id> { set i | 0 <= i < |docs| :: docs[i].id }

  /** The collection as the compare-and-set sees it. */
  function StoreOf(docs: Docs): Store {
    map id | id in IdsOf(docs) && Has(docs, id) :: Get(docs, id)
  }

  lemma StoreHas(docs: Docs, id: Id)
    ensures id in StoreOf(docs) <==> Has(docs, id)
    ensures Has(docs, id) ==> StoreOf(docs)[id] == Get(docs, id)
  {
    if Has(docs, id) { assert docs[Position(docs, id)].id in IdsOf(docs); }
  }

  // ------------------------------------------------ queries

  datatype Query = ListOf(owner: Id) | ById(id: string, owner: Id) | ForRole(id: string, owner: Id, role: string)

  datatype Reply = Many(categories: Docs) | One(category: Category) | Nothing | CastError | DuplicateKey

  function Key(q: Query): string {
    match q
    case ListOf(owner) => "categories:list:" + owner
    case ById(id, owner) => "category:" + (owner + ":" + id)
    case ForRole(id, owner, role) => "category:role:" + (role + ":" + (owner + ":" + id))
  }

  /** What the query yields without a cache. */
  function Uncached(docs: Docs, q: Query): Reply {
    match q
    case ListOf(owner) => Many(OwnedBy(docs, owner))
    case ById(id, owner) => Lookup(docs, id, owner, false)
    case ForRole(id, owner, role) => Lookup(docs, id, owner, role == "admin")
  }

  function Lookup(docs: Docs, id: string, owner: Id, anyOwner: bool): Reply {
    match Cast(id)
    case None => CastError
    case Some(i) => if Has(docs, i) && (anyOwner || Get(docs, i).owner == owner) then One(Get(docs, i)) else Nothing
  }

  predicate Cacheable(r: Reply) { r.Many? || r.One? }

  predicate ColonFree(s: string) { forall i :: 0 <= i < |s| ==> s[i] != ':' }

  /** Owners and roles come from the caller's token; the id is any text. */
  predicate Asked(q: Query) { IsId(q.owner) && (q.ForRole? ==> ColonFree(q.role)) }

  // ------------------------------------------------ keys tell queries apart

  lemma IdsAreColonFree(s: string)
    requires IsId(s)
    ensures ColonFree(s) && |s| == 24
  {
  }

  lemma FirstColon(a: string, b: string)
    requires ColonFree(a)
    ensures (a + ":" + b)[|a|] == ':' && forall i :: 0 <= i < |a| ==> (a + ":" + b)[i] != ':'
  {
    assert forall i :: 0 <= i < |a| ==> (a + ":" + b)[i] == a[i];
  }

  /** Text up to the first colon. */
  lemma SplitUnique(a: string, b: string, c: string, d: string)
    requires ColonFree(a) && ColonFree(c) && a + ":" + b == c + ":" + d
    ensures a == c && b == d
  {
    FirstColon(a, b);
    FirstColon(c, d);
    assert |a| == |c|;
    assert a == (a + ":" + b)[..|a|] && c == (c + ":" + d)[..|c|];
    assert b == (a + ":" + b)[|a| + 1..] && d == (c + ":" + d)[|c| + 1..];
  }

  lemma DropPrefix(p: string, a: string, b: string)
    requires p + a == p + b
    ensures a == b
  {
    assert a == (p + a)[|p|..] && b == (p + b)[|p|..];
  }

  lemma ByIdKeys(p: Query, q: Query)
    requires p.ById? && q.ById? && Asked(p) && Asked(q) && Key(p) == Key(q)
    ensures p == q
  {
    IdsAreColonFree(p.owner);
    IdsAreColonFree(q.owner);
    DropPrefix("category:", p.owner + ":" + p.id, q.owner + ":" + q.id);
    SplitUnique(p.owner, p.id, q.owner, q.id);
  }

  lemma RoleKeys(p: Query, q: Query)
    requires p.ForRole? && q.ForRole? && Asked(p) && Asked(q) && Key(p) == Key(q)
    ensures p == q
  {
    IdsAreColonFree(p.owner);
    IdsAreColonFree(q.owner);
    var a, b := p.owner + ":" + p.id, q.owner + ":" + q.id;
    DropPrefix("category:role:", p.role + ":" + a, q.role + ":" + b);
    SplitUnique(p.role, a, q.role, b);
    SplitUnique(p.owner, p.id, q.owner, q.id);
  }

  /** An owner is not the word that starts the keys by role. */
  lemma RoleIsNoOwner(p: Query, q: Query)
    requires p.ById? && q.ForRole? && Asked(p)
    ensures Key(p) != Key(q)
  {
    var rest := q.role + ":" + (q.owner + ":" + q.id);
    assert "category:role:" + rest == "category:" + ("role" + ":" + rest);
    IdsAreColonFree(p.owner);
    if Key(p) == Key(q) {
      DropPrefix("category:", p.owner + ":" + p.id, "role" + ":" + rest);
      SplitUnique(p.owner, p.id, "role", rest);
    }
  }

  lemma ListKeyDiffers(p: Query, q: Query)
    requires p.ListOf? && !q.ListOf?
    ensures Key(p) != Key(q)
  {
    assert Key(p)[7] == 'i';
    assert Key(q)[7] == 'y';
  }

  /** Different queries have different cache keys, whatever text is asked for as an id. */
  lemma KeysAreDistinct(p: Query, q: Query)
    requires Asked(p) && Asked(q) && Key(p) == Key(q)
    ensures p == q
  {
    match (p, q)
    case (ListOf(a), ListOf(b)) => DropPrefix("categories:list:", a, b);
    case (ById(_, _), ById(_, _)) => ByIdKeys(p, q);
    case (ForRole(_, _, _), ForRole(_, _, _)) => RoleKeys(p, q);
    case (ById(_, _), ForRole(_, _, _)) => RoleIsNoOwner(p, q);
    case (ForRole(_, _, _), ById(_, _)) => RoleIsNoOwner(q, p);
    case (ListOf(_), _) => ListKeyDiffers(p, q);
    case (_, ListOf(_)) => ListKeyDiffers(q, p);
  }

  // ------------------------------------------------ operations without a cache

  datatype Op =
    | Find(query: Query)
    | Insert(category: Category)
    | Set(id: string, owner: Id, patch: Patch, expected: nat)
    | Remove(id: string, owner: Id)
    | Expire(key: string)

  function AfterInsert(docs: Docs, c: Category): Docs {
    if Has(docs, c.id) || !NameFree(StoreOf(docs), c.id, c.owner, c.name) then docs else docs + [c]
  }

  function SetReply(docs: Docs, id: string, owner: Id, p: Patch, expected: nat): Reply {
    match Cast(id)
    case None => CastError
    case Some(i) =>
      match SetAnswer(StoreOf(docs), i, owner, p, expected)
      case Updated(category) => One(category)
      case NoMatch => Nothing
      case DuplicateName => DuplicateKey
  }

  function AfterUpdate(docs: Docs, id: string, owner: Id, p: Patch, expected: nat): Docs {
    var reply := SetReply(docs, id, owner, p, expected);
    if reply.One? && Has(docs, reply.category.id) then docs[Position(docs, reply.category.id) := reply.category] else docs
  }

  function AfterRemove(docs: Docs, id: string, owner: Id): Docs {
    var found := Lookup(docs, id, owner, false);
    if found.One? then docs[..Position(docs, found.category.id)] + docs[Position(docs, found.category.id) + 1..] else docs
  }

  /** The collection after an operation. */
  function After(docs: Docs, op: Op): Docs {
    match op
    case Insert(c) => AfterInsert(docs, c)
    case Set(id, owner, p, expected) => AfterUpdate(docs, id, owner, p, expected)
    case Remove(id, owner) => AfterRemove(docs, id, owner)
    case _ => docs
  }

  /** What the operation answers, asked of the collection directly. */
  function ReplyTo(docs: Docs, op: Op): Reply {
    match op
    case Find(q) => Uncached(docs, q)
    case Insert(c) => if AfterInsert(docs, c) == docs then DuplicateKey else One(c)
    case Set(id, owner, p, expected) => SetReply(docs, id, owner, p, expected)
    case Remove(id, owner) => Lookup(docs, id, owner, false)
    case Expire(_) => Nothing
  }

  function AfterAll(docs: Docs, ops: seq<Op>): Docs {
    if ops == [] then docs else After(AfterAll(docs, ops[..|ops| - 1]), ops[|ops| - 1])
  }

  function Replies(docs: Docs, ops: seq<Op>): seq<Reply> {
    if ops == [] then []
    else Replies(docs, ops[..|ops| - 1]) + [ReplyTo(AfterAll(docs, ops[..|ops| - 1]), ops[|ops| - 1])]
  }

  lemma RepliesAppend(docs: Docs, ops: seq<Op>, op: Op)
    ensures AfterAll(docs, ops + [op]) == After(AfterAll(docs, ops), op)
    ensures Replies(docs, ops + [op]) == Replies(docs, ops) + [ReplyTo(AfterAll(docs, ops), op)]
  {
    assert (ops + [op])[..|ops|] == ops;
  }

  lemma SameIdsSamePosition(a: Docs, b: Docs, id: Id)
    requires |a| == |b| && forall i :: 0 <= i < |a| ==> a[i].id == b[i].id
    ensures Position(a, id) == Position(b, id)
  {
    var p, q := Position(a, id), Position(b, id);
    assert p < |a| ==> b[p].id == id;
    assert q < |b| ==> a[q].id == id;
  }

  /** The update in place is the compare-and-set of the store. */
  lemma UpdateIsCompareAndSet(docs: Docs, id: string, owner: Id, p: Patch, expected: nat)
    requires Cast(id).Some?
    ensures StoreOf(AfterUpdate(docs, id, owner, p, expected)) == AfterSet(StoreOf(docs), Cast(id).value, owner, p, expected)
  {
    var i := Cast(id).value;
    StoreHas(docs, i);
    if SetAnswer(StoreOf(docs), i, owner, p, expected).Updated? {
      ReplacedStore(docs, i, Patched(Get(docs, i), p));
    }
  }

  lemma ReplacedAt(docs: Docs, id: Id, c: Category, j: Id)
    requires Has(docs, id) && c.id == id
    ensures var after := docs[Position(docs, id) := c];
            && (Has(after, j) <==> Has(docs, j))
            && (Has(docs, j) ==> Get(after, j) == if j == id then c else Get(docs, j))
  {
    SameIdsSamePosition(docs, docs[Position(docs, id) := c], j);
  }

  lemma ReplacedStore(docs: Docs, id: Id, c: Category)
    requires Has(docs, id) && c.id == id
    ensures StoreOf(docs[Position(docs, id) := c]) == StoreOf(docs)[id := c]
  {
    var after := docs[Position(docs, id) := c];
    StoreHas(docs, id);
    forall j ensures j in StoreOf(after) <==> j in StoreOf(docs) {
      ReplacedAt(docs, id, c, j);
      StoreHas(docs, j);
      StoreHas(after, j);
    }
    forall j | j in StoreOf(after) ensures StoreOf(after)[j] == if j == id then c else StoreOf(docs)[j] {
      ReplacedAt(docs, id, c, j);
      StoreHas(docs, j);
      StoreHas(after, j);
    }
  }

  // ------------------------------------------------ what the operations mean

  /** Text names an id when it is twenty-four hexadecimal digits, read without regard to case. */
  lemma CastMeans(s: string, i: nat)
    ensures Cast(s).Some? <==> |s| == 24 && forall c :: c in s ==> c in "0123456789abcdefABCDEF"
    ensures Cast(s).Some? ==> |Cast(s).value| == 24
    ensures Cast(s).Some? && i < 24 && s[i] in "0123456789abcdef" ==> Cast(s).value[i] == s[i]
    ensures Cast(s).Some? && i < 24 && s[i] in "ABCDEF" ==> Cast(s).value[i] as int == s[i] as int - 'A' as int + 'a' as int
  {
    forall c ensures IsHex(c) <==> c in "0123456789abcdefABCDEF" { HexDigit(c); }
    if forall c :: c in s ==> c in "0123456789abcdefABCDEF" {
      forall j | 0 <= j < |s| ensures IsHex(s[j]) { assert s[j] in s; }
    }
    if |s| == 24 && forall j :: 0 <= j < 24 ==> IsHex(s[j]) {
      forall c | c in s ensures IsHex(c) { }
    }
  }

  lemma HexDigit(c: char)
    ensures IsHex(c) <==> c in "0123456789abcdefABCDEF"
  {
    var digits := "0123456789abcdefABCDEF";
    if '0' <= c <= '9' { assert digits[c as int - '0' as int] == c; }
    if 'a' <= c <= 'f' { assert digits[10 + (c as int - 'a' as int)] == c; }
    if 'A' <= c <= 'F' { assert digits[16 + (c as int - 'A' as int)] == c; }
  }

  lemma PositionOf(docs: Docs, c: Category)
    requires Distinct(docs) && c in docs
    ensures Has(docs, c.id) && Get(docs, c.id) == c
  {
    var i :| 0 <= i < |docs| && docs[i] == c;
    var p := Position(docs, c.id);
    assert p < |docs| && !(i < p) && !(p < i);
  }

  lemma {:induction false} OwnedCounts(docs: Docs, owner: Id, c: Category)
    ensures multiset(OwnedBy(docs, owner))[c] == if c.owner == owner then multiset(docs)[c] else 0
  {
    if docs != [] {
      OwnedCounts(docs[..|docs| - 1], owner, c);
      assert docs == docs[..|docs| - 1] + [docs[|docs| - 1]];
    }
  }

  lemma {:induction false} OwnedInOrder(a: Docs, b: Docs, owner: Id)
    ensures OwnedBy(a + b, owner) == OwnedBy(a, owner) + OwnedBy(b, owner)
  {
    if b == [] {
      assert a + b == a;
    } else {
      assert (a + b)[..|a + b| - 1] == a + b[..|b| - 1];
      OwnedInOrder(a, b[..|b| - 1], owner);
    }
  }

  /** What a query answers, by whom it is asked: the list is the owner's categories, each
      once, in the order of the collection; one category is found by its id if it is the
      asker's own, or an admin asks; text that is no id is an error. */
  lemma QueriesMean(docs: Docs, q: Query, c: Category)
    requires Distinct(docs)
    ensures q.ListOf? ==> var r := Uncached(docs, q);
              && r.Many? && multiset(r.categories)[c] == (if c.owner == q.owner then multiset(docs)[c] else 0)
              && forall n :: 0 <= n <= |docs| ==> OwnedBy(docs[..n], q.owner) <= r.categories
    ensures q.ById? ==> (Uncached(docs, q) == One(c) <==> c in docs && Cast(q.id) == Some(c.id) && c.owner == q.owner)
    ensures q.ForRole? ==>
              (Uncached(docs, q) == One(c) <==> c in docs && Cast(q.id) == Some(c.id) && (q.role == "admin" || c.owner == q.owner))
    ensures !q.ListOf? ==>
              (Uncached(docs, q) == CastError <==> Cast(q.id).None?) && (Uncached(docs, q).One? || Uncached(docs, q).Nothing? || Cast(q.id).None?)
  {
    if q.ListOf? {
      OwnedCounts(docs, q.owner, c);
      forall n | 0 <= n <= |docs| ensures OwnedBy(docs[..n], q.owner) <= OwnedBy(docs, q.owner) {
        OwnedInOrder(docs[..n], docs[n..], q.owner);
        assert docs[..n] + docs[n..] == docs;
      }
    } else if c in docs {
      PositionOf(docs, c);
    }
  }

  lemma InsertMeans(docs: Docs, d: Category, c: Category)
    requires Distinct(docs)
    ensures c in AfterInsert(docs, d) <==>
              c in docs || (c == d && forall e :: e in docs ==> e.id != d.id && !(e.owner == d.owner && e.name == d.name))
    ensures Distinct(AfterInsert(docs, d))
  {
    forall e | e in docs ensures Has(docs, e.id) && e.id in StoreOf(docs) && StoreOf(docs)[e.id] == e {
      PositionOf(docs, e);
      StoreHas(docs, e.id);
    }
    forall i | i in StoreOf(docs) ensures StoreOf(docs)[i] in docs && StoreOf(docs)[i].id == i {
      StoreHas(docs, i);
    }
    if Has(docs, d.id) { assert Get(docs, d.id) in docs; }
  }

  lemma {:induction false} RemoveMeans(docs: Docs, id: string, owner: Id, c: Category)
    requires Distinct(docs)
    ensures c in AfterRemove(docs, id, owner) <==> c in docs && !(Cast(id) == Some(c.id) && c.owner == owner)
    ensures Distinct(AfterRemove(docs, id, owner))
  {
    if c in docs { PositionOf(docs, c); }
    var found := Lookup(docs, id, owner, false);
    if found.One? {
      var p := Position(docs, found.category.id);
      assert docs == docs[..p] + [docs[p]] + docs[p + 1..];
      if c in docs && c != docs[p] { assert c in docs[..p] || c in docs[p + 1..]; }
      if c in docs[..p] || c in docs[p + 1..] { OtherPlace(docs, p, c); }
    }
  }

  /** So every history leaves a collection in which an id names one category. */
  lemma {:induction false} HistoryKeepsIds(docs: Docs, ops: seq<Op>)
    requires Distinct(docs)
    ensures Distinct(AfterAll(docs, ops))
  {
    if ops != [] {
      var before, op := AfterAll(docs, ops[..|ops| - 1]), ops[|ops| - 1];
      HistoryKeepsIds(docs, ops[..|ops| - 1]);
      match op
      case Insert(d) => InsertMeans(before, d, d);
      case Remove(id, owner) => RemoveMeans(before, id, owner, Category("", "", "", None, 0));
      case Set(id, owner, p, expected) => SetKeepsIds(before, id, owner, p, expected);
      case _ =>
    }
  }

  lemma SetKeepsIds(docs: Docs, id: string, owner: Id, p: Patch, expected: nat)
    requires Distinct(docs)
    ensures Distinct(AfterUpdate(docs, id, owner, p, expected))
  {
    if Cast(id).Some? { StoreHas(docs, Cast(id).value); }
  }

  lemma OtherPlace(docs: Docs, p: nat, c: Category)
    requires Distinct(docs) && p < |docs| && (c in docs[..p] || c in docs[p + 1..])
    ensures c in docs && c.id != docs[p].id
  {
    if c in docs[..p] {
      var i :| 0 <= i < p && docs[i] == c;
    } else {
      var i :| 0 <= i < |docs[p + 1..]| && docs[p + 1..][i] == c;
      assert docs[p + 1 + i] == c;
    }
  }

  // ------------------------------------------------ the repository

  /** The entry answers some query as the collection would. */
  ghost predicate Backed(docs: Docs, key: string, r: Reply, q: Query) {
    Asked(q) && Key(q) == key && Cacheable(r) && r == Uncached(docs, q)
  }

  /** Every live entry is tracked, and answers as the collection would. */
  ghost predicate Coherent(docs: Docs, cache: map<string, Reply>, keys: set<string>) {
    && cache.Keys <= keys
    && forall k :: k in cache ==> exists q :: Backed(docs, k, cache[k], q)
  }

  lemma HitAnswers(docs: Docs, cache: map<string, Reply>, keys: set<string>, q: Query)
    requires Coherent(docs, cache, keys) && Asked(q) && Key(q) in cache
    ensures cache[Key(q)] == Uncached(docs, q)
  {
    var p :| Backed(docs, Key(q), cache[Key(q)], p);
    KeysAreDistinct(p, q);
  }

  lemma MissCaches(docs: Docs, cache: map<string, Reply>, keys: set<string>, q: Query)
    requires Coherent(docs, cache, keys) && Asked(q) && Cacheable(Uncached(docs, q))
    ensures Coherent(docs, cache[Key(q) := Uncached(docs, q)], keys + {Key(q)})
  {
    var after := cache[Key(q) := Uncached(docs, q)];
    forall k | k in after ensures exists p :: Backed(docs, k, after[k], p) {
      if k == Key(q) {
        assert Backed(docs, k, after[k], q);
      } else {
        var p :| Backed(docs, k, cache[k], p);
        assert Backed(docs, k, after[k], p);
      }
    }
  }

  class MongooseCategoryRepository {
    var docs: Docs
    var cache: map<string, Reply>
    var categoryCacheKeys: set<string>

    ghost predicate Valid()
      reads this
    {
      Coherent(docs, cache, categoryCacheKeys)
    }

    constructor (docs: Docs)
      ensures Valid() && this.docs == docs
    {
      this.docs, cache, categoryCacheKeys := docs, map[], {};
    }

    /** Stores an entry with its time to live, and its key. */
    method Remember(q: Query)
      requires Valid() && Asked(q) && Cacheable(Uncached(docs, q))
      modifies this
      ensures Valid() && docs == old(docs)
      ensures Key(q) in cache && cache[Key(q)] == Uncached(docs, q)
    {
      MissCaches(docs, cache, categoryCacheKeys, q);
      cache := cache[Key(q) := Uncached(docs, q)];
      categoryCacheKeys := categoryCacheKeys + {Key(q)};
    }

    method FindAll(owner: Id) returns (reply: Reply)
      requires Valid() && IsId(owner)
      modifies this
      ensures Valid() && docs == old(docs) && reply == Uncached(docs, ListOf(owner))
    {
      var cacheKey := "categories:list:" + owner;
      if cacheKey in cache {
        HitAnswers(docs, cache, categoryCacheKeys, ListOf(owner));
        return cache[cacheKey];
      }
      reply := Many(OwnedBy(docs, owner));
      Remember(ListOf(owner));
    }

    method FindById(id: string, owner: Id) returns (reply: Reply)
      requires Valid() && IsId(owner)
      modifies this
      ensures Valid() && docs == old(docs) && reply == Uncached(docs, ById(id, owner))
    {
      var cacheKey := "category:" + (owner + ":" + id);
      if cacheKey in cache {
        HitAnswers(docs, cache, categoryCacheKeys, ById(id, owner));
        return cache[cacheKey];
      }
      reply := Lookup(docs, id, owner, false);
      if reply.One? {
        Remember(ById(id, owner));
      }
    }

    method FindByIdForRole(id: string, owner: Id, role: string) returns (reply: Reply)
      requires Valid() && IsId(owner) && ColonFree(role)
      modifies this
      ensures Valid() && docs == old(docs) && reply == Uncached(docs, ForRole(id, owner, role))
    {
      var cacheKey := "category:role:" + (role + ":" + (owner + ":" + id));
      if cacheKey in cache {
        HitAnswers(docs, cache, categoryCacheKeys, ForRole(id, owner, role));
        return cache[cacheKey];
      }
      reply := Lookup(docs, id, owner, role == "admin");
      if reply.One? {
        Remember(ForRole(id, owner, role));
      }
    }

    /** Deletes the tracked entries one by one; what is left is not tracked. */
    method ClearCache()
      requires cache.Keys <= categoryCacheKeys
      modifies `cache, `categoryCacheKeys
      ensures cache == map[] && categoryCacheKeys == {}
    {
      var keys := categoryCacheKeys;
      while keys != {}
        invariant cache.Keys <= keys
        decreases keys
      {
        var key :| key in keys;
        cache := cache - {key};
        keys := keys - {key};
      }
      categoryCacheKeys := {};
    }

    /** An insert that violates a unique index throws before the cache is cleared. */
    method Create(c: Category) returns (reply: Reply)
      requires Valid()
      modifies this
      ensures Valid() && docs == AfterInsert(old(docs), c) && reply == ReplyTo(old(docs), Insert(c))
    {
      if Has(docs, c.id) || !NameFree(StoreOf(docs), c.id, c.owner, c.name) {
        return DuplicateKey;
      }
      docs := docs + [c];
      ClearCache();
      reply := One(c);
    }

    method Update(id: string, owner: Id, p: Patch, expected: nat) returns (reply: Reply)
      requires Valid()
      modifies this
      ensures Valid() && docs == AfterUpdate(old(docs), id, owner, p, expected)
      ensures reply == SetReply(old(docs), id, owner, p, expected)
      ensures reply.One? || reply.Nothing? ==> cache == map[] && categoryCacheKeys == {}
    {
      reply := SetReply(docs, id, owner, p, expected);
      if reply.One? || reply.Nothing? {
        docs := AfterUpdate(docs, id, owner, p, expected);
        ClearCache();
      }
    }

    method Delete(id: string, owner: Id) returns (reply: Reply)
      requires Valid()
      modifies this
      ensures Valid() && docs == AfterRemove(old(docs), id, owner) && reply == Lookup(old(docs), id, owner, false)
    {
      reply := Lookup(docs, id, owner, false);
      if reply.One? {
        var p := Position(docs, reply.category.id);
        docs := docs[..p] + docs[p + 1..];
      }
      if !reply.CastError? {
        ClearCache();
      }
    }

    /** An entry's time to live ends. */
    method Expire(key: string)
      requires Valid()
      modifies this
      ensures Valid() && docs == old(docs)
    {
      cache := cache - {key};
    }

    method Perform(op: Op) returns (reply: Reply)
      requires Valid() && (op.Find? ==> Asked(op.query))
      modifies this
      ensures Valid() && docs == After(old(docs), op) && reply == ReplyTo(old(docs), op)
    {
      match op
      case Find(q) =>
        match q {
          case ListOf(owner) => reply := FindAll(owner);
          case ById(id, owner) => reply := FindById(id, owner);
          case ForRole(id, owner, role) => reply := FindByIdForRole(id, owner, role);
        }
      case Insert(c) => reply := Create(c);
      case Set(id, owner, p, expected) => reply := Update(id, owner, p, expected);
      case Remove(id, owner) => reply := Delete(id, owner);
      case Expire(key) =>
        Expire(key);
        reply := Nothing;
    }

    /** Over every history of operations and expiries, the repository answers and
        changes the collection exactly as one without a cache. */
    method Serve(ops: seq<Op>) returns (replies: seq<Reply>)
      requires Valid() && forall i :: 0 <= i < |ops| && ops[i].Find? ==> Asked(ops[i].query)
      modifies this
      ensures Valid() && docs == AfterAll(old(docs), ops) && replies == Replies(old(docs), ops)
      ensures forall k :: k in cache ==> cache[k].Many? || cache[k].One?
    {
      replies := [];
      for i := 0 to |ops|
        invariant Valid() && docs == AfterAll(old(docs), ops[..i]) && replies == Replies(old(docs), ops[..i])
      {
        RepliesAppend(old(docs), ops[..i], ops[i]);
        assert ops[..i + 1] == ops[..i] + [ops[i]];
        var reply := Perform(ops[i]);
        replies := replies + [reply];
      }
      assert ops[..|ops|] == ops;
      forall k | k in cache ensures cache[k].Many? || cache[k].One? {
        var q :| Backed(docs, k, cache[k], q);
        assert Cacheable(cache[k]);
      }
    }
  }

  // ------------------------------------------------ the update handler

  datatype HandlerResult = Done(category: Category) | NotFoundError | ConflictError | OtherError

  class UpdateCategoryHandler {
    const categoryRepository: MongooseCategoryRepository

    constructor (categoryRepository: MongooseCategoryRepository)
      ensures this.categoryRepository == categoryRepository
    {
      this.categoryRepository := categoryRepository;
    }

    /** Undisturbed, the handler succeeds exactly when the owner's category is at the
        version named and the new name is free, and then stores the patched category. */
    method Execute(id: string, owner: Id, patch: Patch, expected: nat) returns (r: HandlerResult)
      requires categoryRepository.Valid() && IsId(owner)
      modifies categoryRepository
      ensures categoryRepository.Valid()
      ensures var found := Lookup(old(categoryRepository.docs), id, owner, false);
              && (r.NotFoundError? <==> found.Nothing?)
              && (r.ConflictError? <==> found.One? && found.category.v != expected)
              && (r.Done? <==> found.One? && found.category.v == expected
                               && SetReply(old(categoryRepository.docs), id, owner, patch, expected).One?)
              && (r.Done? ==>
                    r.category == Category(found.category.id, found.category.owner,
                                           if patch.name.Some? then patch.name.value else found.category.name,
                                           if patch.color.Some? then patch.color else found.category.color, expected + 1))
      ensures categoryRepository.docs == AfterUpdate(old(categoryRepository.docs), id, owner, patch, expected)
    {
      SetReplyLooksUp(categoryRepository.docs, id, owner, patch, expected);
      var found := categoryRepository.FindById(id, owner);
      match found
      case One(category) =>
        if category.v != expected {
          return ConflictError;
        }
        var updated := categoryRepository.Update(id, owner, patch, expected);
        match updated {
          case One(c) => return Done(c);
          case Nothing => return ConflictError;
          case _ => return OtherError;
        }
      case Nothing => return NotFoundError;
      case _ => return OtherError;
    }
  }

  lemma SetReplyLooksUp(docs: Docs, id: string, owner: Id, p: Patch, expected: nat)
    ensures var found, outcome := Lookup(docs, id, owner, false), SetReply(docs, id, owner, p, expected);
            && (outcome.CastError? <==> found.CastError?)
            && (outcome.Nothing? <==> found.Nothing? || (found.One? && found.category.v != expected))
            && (outcome.One? ==> found.One? && outcome.category == Patched(found.category, p))
  {
    if Cast(id).Some? { StoreHas(docs, Cast(id).value); }
  }
}
