/** Version tags in HTTP headers: a version printed as an entity tag is read back by
    both parsers (sections 8.8.3, 13.1.1 and 13.1.2 of RFC 9110). */
module ETags {
  import opened Common

  // ------------------------------------------------ numbers

  predicate IsDigit(c: char) { '0' <= c <= '9' }

  function Digit(n: nat): char
    requires n < 10
  {
    '0' + n as char
  }

  function Printed(n: nat): string {
    if n < 10 then [Digit(n)] else Printed(n / 10) + [Digit(n % 10)]
  }

  predicate AllDigits(s: string) { s != "" && forall i :: 0 <= i < |s| ==> IsDigit(s[i]) }

  function Value(s: string): nat {
    if s == "" || !IsDigit(s[|s| - 1]) then 0 else 10 * Value(s[..|s| - 1]) + (s[|s| - 1] - '0') as nat
  }

  lemma {:induction false} PrintedReadsBack(n: nat)
    ensures AllDigits(Printed(n)) && Value(Printed(n)) == n
  {
    if n < 10 {
      assert Printed(n)[..0] == "";
    } else {
      PrintedReadsBack(n / 10);
      assert Printed(n)[..|Printed(n)| - 1] == Printed(n / 10);
    }
  }

  // ------------------------------------------------ text

  predicate IsSpace(c: char) { c == ' ' || c == '\t' || c == '\n' || c == '\r' || c as int in {11, 12, 160, 65279} }

  predicate Blank(s: string) { forall i :: 0 <= i < |s| ==> IsSpace(s[i]) }

  function TrimLeft(s: string): string { if s != "" && IsSpace(s[0]) then TrimLeft(s[1..]) else s }

  function TrimRight(s: string): string {
    if s != "" && IsSpace(s[|s| - 1]) then TrimRight(s[..|s| - 1]) else s
  }

  function Trim(s: string): string { TrimRight(TrimLeft(s)) }

  function StripWeak(s: string): string { if "W/" <= s then s[2..] else s }

  /** One quote off each end. */
  function StripQuotes(s: string): string {
    var t := if s != "" && s[0] == '"' then s[1..] else s;
    if t != "" && t[|t| - 1] == '"' then t[..|t| - 1] else t
  }

  function Normalized(s: string): string { StripQuotes(StripWeak(Trim(s))) }

  function Split(s: string): (parts: seq<string>)
    ensures parts != []
  {
    if s == "" then [""]
    else
      var rest := Split(s[1..]);
      if s[0] == ',' then [""] + rest else [[s[0]] + rest[0]] + rest[1..]
  }

  // ------------------------------------------------ the parsers

  /** `Other` stands for text that is not a plain number: what `Number` makes of it is
      not described here. */
  datatype IfMatch = Version(version: nat) | Required | Other(text: string)

  function ParseIfMatch(header: Option<string>): IfMatch {
    if header.None? || header.value == "" then Required
    else if AllDigits(Normalized(header.value)) then Version(Value(Normalized(header.value)))
    else Other(Normalized(header.value))
  }

  function Versions(parts: seq<string>): seq<int> {
    if parts == [] then []
    else (if AllDigits(Normalized(parts[0])) then [Value(Normalized(parts[0]))] else []) + Versions(parts[1..])
  }

  function ParseIfNoneMatch(header: Option<string>): seq<int> {
    if header.None? || header.value == "" then []
    else if Trim(header.value) == "*" then [-1]
    else Versions(Split(header.value))
  }

  // ------------------------------------------------ printing

  /** A tag as clients may send it: with space around it, weak or strong. */
  datatype Tag = Tag(before: string, weak: bool, version: nat, after: string)

  predicate Spaced(t: Tag) { Blank(t.before) && Blank(t.after) }

  /** The header the controllers set. */
  function ETag(version: nat): string { "\"" + Printed(version) + "\"" }

  function Core(t: Tag): string { (if t.weak then "W/" else "") + ETag(t.version) }

  function Shown(t: Tag): string { t.before + Core(t) + t.after }

  function Joined(tags: seq<Tag>): string {
    if tags == [] then "" else if |tags| == 1 then Shown(tags[0]) else Shown(tags[0]) + "," + Joined(tags[1..])
  }

  function VersionsOf(tags: seq<Tag>): seq<int> {
    if tags == [] then [] else [tags[0].version] + VersionsOf(tags[1..])
  }

  // ------------------------------------------------ trimming and stripping

  lemma {:induction false} TrimLeftDrops(a: string, s: string)
    requires Blank(a) && s != "" && !IsSpace(s[0])
    ensures TrimLeft(a + s) == s
  {
    if a == "" {
      assert a + s == s;
    } else {
      assert (a + s)[1..] == a[1..] + s;
      TrimLeftDrops(a[1..], s);
    }
  }

  lemma {:induction false} TrimRightDrops(s: string, b: string)
    requires Blank(b) && s != "" && !IsSpace(s[|s| - 1])
    ensures TrimRight(s + b) == s
  {
    if b == "" {
      assert s + b == s;
    } else {
      assert (s + b)[..|s + b| - 1] == s + b[..|b| - 1];
      TrimRightDrops(s, b[..|b| - 1]);
    }
  }

  lemma TrimDrops(a: string, s: string, b: string)
    requires Blank(a) && Blank(b) && s != "" && !IsSpace(s[0]) && !IsSpace(s[|s| - 1])
    ensures Trim(a + s + b) == s
  {
    assert a + s + b == a + (s + b);
    TrimLeftDrops(a, s + b);
    TrimRightDrops(s, b);
  }

  lemma QuotesStrip(s: string)
    requires AllDigits(s)
    ensures StripQuotes("\"" + s + "\"") == s
  {
    assert ("\"" + s + "\"")[1..] == s + "\"";
  }

  lemma TagNormalizes(t: Tag)
    requires Spaced(t)
    ensures Normalized(Shown(t)) == Printed(t.version) && Trim(Shown(t)) == Core(t)
  {
    PrintedReadsBack(t.version);
    var core := Core(t);
    assert core[0] == (if t.weak then 'W' else '"') && core[|core| - 1] == '"';
    TrimDrops(t.before, core, t.after);
    assert StripWeak(core) == ETag(t.version);
    QuotesStrip(Printed(t.version));
  }

  // ------------------------------------------------ splitting

  predicate CommaFree(s: string) { forall i :: 0 <= i < |s| ==> s[i] != ',' }

  lemma {:induction false} SplitWhole(s: string)
    requires CommaFree(s)
    ensures Split(s) == [s]
  {
    if s != "" {
      SplitWhole(s[1..]);
      assert [s[0]] + s[1..] == s;
    }
  }

  lemma {:induction false} SplitAtComma(s: string, rest: string)
    requires CommaFree(s)
    ensures Split(s + "," + rest) == [s] + Split(rest)
  {
    var whole := s + "," + rest;
    if s == "" {
      assert whole[1..] == rest;
    } else {
      assert whole[1..] == s[1..] + "," + rest;
      SplitAtComma(s[1..], rest);
      assert [s[0]] + s[1..] == s;
      assert ([s[1..]] + Split(rest))[1..] == Split(rest);
    }
  }

  lemma ShownIsCommaFree(t: Tag)
    requires Spaced(t)
    ensures CommaFree(Shown(t))
  {
    PrintedReadsBack(t.version);
  }

  lemma {:induction false} JoinedSplits(tags: seq<Tag>)
    requires tags != [] && forall i :: 0 <= i < |tags| ==> Spaced(tags[i])
    ensures Versions(Split(Joined(tags))) == VersionsOf(tags)
  {
    var t := tags[0];
    ShownIsCommaFree(t);
    TagNormalizes(t);
    PrintedReadsBack(t.version);
    if |tags| == 1 {
      SplitWhole(Shown(t));
      assert Versions([Shown(t)]) == [t.version] + Versions([]);
    } else {
      JoinedSplits(tags[1..]);
      SplitAtComma(Shown(t), Joined(tags[1..]));
      assert ([Shown(t)] + Split(Joined(tags[1..])))[1..] == Split(Joined(tags[1..]));
    }
  }

  // ------------------------------------------------ main results

  /** A tag a client got, sent back in If-Match, weak or strong, names its version. */
  lemma IfMatchReadsBack(t: Tag)
    requires Spaced(t)
    ensures ParseIfMatch(Some(Shown(t))) == Version(t.version)
  {
    TagNormalizes(t);
    PrintedReadsBack(t.version);
  }

  lemma {:induction false} TrimKeepsQuote(s: string)
    requires '"' in s
    ensures '"' in TrimLeft(s) && '"' in TrimRight(s)
    decreases |s|
  {
    if s != "" && IsSpace(s[0]) {
      assert '"' in s[1..];
      TrimKeepsQuote(s[1..]);
    }
    if s != "" && IsSpace(s[|s| - 1]) {
      assert s == s[..|s| - 1] + [s[|s| - 1]];
      TrimKeepsQuote(s[..|s| - 1]);
    }
  }

  lemma ConcatHas(a: string, b: string)
    ensures '"' in a || '"' in b ==> '"' in a + b
  {
    if i :| 0 <= i < |b| && b[i] == '"' {
      assert (a + b)[|a| + i] == '"';
    } else if i :| 0 <= i < |a| && a[i] == '"' {
      assert (a + b)[i] == '"';
    }
  }

  lemma ShownHasQuote(t: Tag)
    ensures '"' in Shown(t)
  {
    assert ETag(t.version)[0] == '"';
    ConcatHas(if t.weak then "W/" else "", ETag(t.version));
    ConcatHas(t.before, Core(t));
    ConcatHas(t.before + Core(t), t.after);
  }

  lemma JoinedHasQuote(tags: seq<Tag>)
    requires tags != []
    ensures '"' in Joined(tags)
  {
    ShownHasQuote(tags[0]);
    if |tags| > 1 {
      ConcatHas(Shown(tags[0]), ",");
      ConcatHas(Shown(tags[0]) + ",", Joined(tags[1..]));
    }
  }

  lemma JoinedIsNoStar(tags: seq<Tag>)
    requires tags != []
    ensures Trim(Joined(tags)) != "*" && Joined(tags) != ""
  {
    JoinedHasQuote(tags);
    TrimKeepsQuote(Joined(tags));
    TrimKeepsQuote(TrimLeft(Joined(tags)));
  }

  /** The other headers: none at all, and the star. */
  lemma HeaderEdges(before: string, after: string)
    requires forall c :: c in before + after ==> c in " \t\n\r" || c as int in {11, 12, 160, 65279}
    ensures ParseIfMatch(None) == ParseIfMatch(Some("")) == Required
    ensures ParseIfNoneMatch(None) == ParseIfNoneMatch(Some("")) == []
    ensures ParseIfNoneMatch(Some(before + "*" + after)) == [-1]
  {
    assert Blank(before) && Blank(after) by {
      forall i | 0 <= i < |before| ensures IsSpace(before[i]) { assert (before + after)[i] in before + after; }
      forall i | 0 <= i < |after| ensures IsSpace(after[i]) { assert (before + after)[|before| + i] in before + after; }
    }
    TrimDrops(before, "*", after);
  }

  /** A list of tags sent back in If-None-Match names exactly their versions, in order. */
  lemma IfNoneMatchReadsBack(tags: seq<Tag>)
    requires tags != [] && forall i :: 0 <= i < |tags| ==> Spaced(tags[i])
    ensures ParseIfNoneMatch(Some(Joined(tags))) == VersionsOf(tags)
  {
    JoinedSplits(tags);
    JoinedIsNoStar(tags);
  }
}
