/** The CSV writer of the export service, and a reader for the format it writes.

    The reader follows the grammar of section 2 of RFC 4180 with two differences
    that the writer forces: records are separated by a single LF, and CR is
    ordinary text. The reader is written without looking at the writer, so the
    round trip below says that the written text is unambiguous. */
module CsvExport {
  import opened Common

  // ---------------------------------------------------------------- writer

  /** A JavaScript value, by what the writer does with it: `typeof` picks the
      case, `printed` is what `toString` gives, `encoded` what `JSON.stringify`
      gives (it may give nothing). */
  datatype Value =
    | Null
    | Undefined
    | Str(text: string)
    | Scalar(printed: string)
    | Object(encoded: Option<string>)
    | Callable

  datatype Task = Task(id: Value, title: Value, description: Value, status: Value, priority: Value,
                       workspace: Value, owner: Value, dueDate: Value, createdAt: Value, updatedAt: Value)

  const HEADERS: seq<string> :=
    ["id", "title", "description", "status", "priority", "workspace", "owner", "dueDate", "createdAt", "updatedAt"]

  /** The characters a value stands for, before any quoting. */
  function TextOf(v: Value): string {
    match v
    case Null | Undefined => ""
    case Str(text) => text
    case Scalar(printed) => printed
    case Object(Some(encoded)) => encoded
    case Object(None) => ""
    case Callable => ""
  }

  predicate NeedsQuotes(s: string) {
    ',' in s || '"' in s || '\n' in s
  }

  function DoubleQuotes(s: string): string {
    if s == "" then "" else (if s[0] == '"' then "\"\"" else [s[0]]) + DoubleQuotes(s[1..])
  }

  function EscapeCsv(v: Value): string {
    var s := TextOf(v);
    if NeedsQuotes(s) then "\"" + DoubleQuotes(s) + "\"" else s
  }

  function Join(parts: seq<string>, separator: char): string {
    if parts == [] then "" else if |parts| == 1 then parts[0] else parts[0] + [separator] + Join(parts[1..], separator)
  }

  function Escaped(row: seq<Value>): seq<string> {
    seq(|row|, i requires 0 <= i < |row| => EscapeCsv(row[i]))
  }

  function Row(t: Task): seq<Value> {
    [t.id, t.title, t.description, t.status, t.priority, t.workspace, t.owner, t.dueDate, t.createdAt, t.updatedAt]
  }

  function Line(row: seq<Value>): string { Join(Escaped(row), ',') }

  function Lines(rows: seq<seq<Value>>): seq<string> {
    seq(|rows|, i requires 0 <= i < |rows| => Line(rows[i]))
  }

  function Rows(tasks: seq<Task>): seq<seq<Value>> {
    seq(|tasks|, i requires 0 <= i < |tasks| => Row(tasks[i]))
  }

  /** The text the export writes: the header names as they are, then one line a task. */
  function Csv(tasks: seq<Task>): string {
    Join([Join(HEADERS, ',')] + Lines(Rows(tasks)), '\n')
  }

  // ---------------------------------------------------------------- reader

  /** True where a field must stop: at the end, at a comma, or at a line break. */
  predicate AtBoundary(s: string) {
    s == "" || s[0] == ',' || s[0] == '\n'
  }

  /** The rest of a quoted field, after its opening quote: two quotes stand for
      one, a single quote closes the field. */
  function ReadQuoted(s: string): (r: Option<(string, string)>)
    ensures r.Some? ==> |r.value.1| < |s|
  {
    if s == "" then None
    else if s[0] != '"' then
      match ReadQuoted(s[1..])
      case None => None
      case Some((text, rest)) => Some(([s[0]] + text, rest))
    else if |s| > 1 && s[1] == '"' then
      match ReadQuoted(s[2..])
      case None => None
      case Some((text, rest)) => Some(("\"" + text, rest))
    else Some(("", s[1..]))
  }

  /** A bare field: text up to the next boundary, in which no quote may occur. */
  function ReadBare(s: string): (r: Option<(string, string)>)
    ensures r.Some? ==> |r.value.1| <= |s| && AtBoundary(r.value.1)
  {
    if AtBoundary(s) then Some(("", s))
    else if s[0] == '"' then None
    else
      match ReadBare(s[1..])
      case None => None
      case Some((text, rest)) => Some(([s[0]] + text, rest))
  }

  function ReadField(s: string): (r: Option<(string, string)>)
    ensures r.Some? ==> |r.value.1| <= |s| && AtBoundary(r.value.1)
  {
    if s != "" && s[0] == '"' then
      match ReadQuoted(s[1..])
      case None => None
      case Some((text, rest)) => if AtBoundary(rest) then Some((text, rest)) else None
    else ReadBare(s)
  }

  function ReadRecord(s: string): (r: Option<(seq<string>, string)>)
    ensures r.Some? ==> |r.value.1| <= |s| && (r.value.1 == "" || r.value.1[0] == '\n')
    decreases |s|
  {
    match ReadField(s)
    case None => None
    case Some((field, rest)) =>
      if rest != "" && rest[0] == ',' then
        match ReadRecord(rest[1..])
        case None => None
        case Some((fields, last)) => Some(([field] + fields, last))
      else Some(([field], rest))
  }

  /** A whole file: records separated by LF; a final LF ends the last record. */
  function ReadFile(s: string): Option<seq<seq<string>>>
    decreases |s|
  {
    match ReadRecord(s)
    case None => None
    case Some((record, rest)) =>
      if |rest| <= 1 then Some([record])
      else
        match ReadFile(rest[1..])
        case None => None
        case Some(records) => Some([record] + records)
  }

  // ---------------------------------------------------------------- round trip

  function Texts(row: seq<Value>): seq<string> {
    seq(|row|, i requires 0 <= i < |row| => TextOf(row[i]))
  }

  function Table(rows: seq<seq<Value>>): seq<seq<string>> {
    seq(|rows|, i requires 0 <= i < |rows| => Texts(rows[i]))
  }

  lemma {:induction false} ReadQuotedUndoesDoubling(s: string, tail: string)
    requires tail == "" || tail[0] != '"'
    ensures ReadQuoted(DoubleQuotes(s) + "\"" + tail) == Some((s, tail))
  {
    var whole := DoubleQuotes(s) + "\"" + tail;
    if s == "" {
      assert whole == "\"" + tail;
      assert whole[1..] == tail;
    } else {
      ReadQuotedUndoesDoubling(s[1..], tail);
      var rest := DoubleQuotes(s[1..]) + "\"" + tail;
      if s[0] == '"' {
        assert whole == "\"\"" + rest;
        assert whole[2..] == rest;
      } else {
        assert whole == [s[0]] + rest;
        assert whole[1..] == rest;
      }
      assert s == [s[0]] + s[1..];
    }
  }

  lemma {:induction false} ReadBareTakesPlainText(s: string, tail: string)
    requires !NeedsQuotes(s) && AtBoundary(tail)
    ensures ReadBare(s + tail) == Some((s, tail))
  {
    if s == "" {
      assert s + tail == tail;
    } else {
      assert (s + tail)[0] == s[0] && s[0] in s;
      assert (s + tail)[1..] == s[1..] + tail;
      ReadBareTakesPlainText(s[1..], tail);
      assert s == [s[0]] + s[1..];
    }
  }

  lemma QuotesAround(inner: string, tail: string)
    ensures "\"" + inner + "\"" + tail == "\"" + (inner + "\"" + tail)
    ensures ("\"" + (inner + "\"" + tail))[1..] == inner + "\"" + tail
  {
  }

  lemma QuotedFieldRoundTrip(v: Value, tail: string)
    requires AtBoundary(tail) && NeedsQuotes(TextOf(v))
    ensures ReadField(EscapeCsv(v) + tail) == Some((TextOf(v), tail))
  {
    ReadQuotedUndoesDoubling(TextOf(v), tail);
    QuotesAround(DoubleQuotes(TextOf(v)), tail);
  }

  lemma BareFieldRoundTrip(v: Value, tail: string)
    requires AtBoundary(tail) && !NeedsQuotes(TextOf(v))
    ensures ReadField(EscapeCsv(v) + tail) == Some((TextOf(v), tail))
  {
    var s := TextOf(v);
    ReadBareTakesPlainText(s, tail);
    if s != "" {
      assert (s + tail)[0] == s[0] && s[0] in s;
    } else {
      assert s + tail == tail;
    }
  }

  /** One written field reads back as its text, whatever boundary follows it. */
  lemma FieldRoundTrip(v: Value, tail: string)
    requires AtBoundary(tail)
    ensures ReadField(EscapeCsv(v) + tail) == Some((TextOf(v), tail))
  {
    if NeedsQuotes(TextOf(v)) {
      QuotedFieldRoundTrip(v, tail);
    } else {
      BareFieldRoundTrip(v, tail);
    }
  }

  lemma LineSplits(row: seq<Value>)
    requires row != []
    ensures |row| == 1 ==> Line(row) == EscapeCsv(row[0]) && Texts(row) == [TextOf(row[0])]
    ensures |row| > 1 ==> Line(row) == EscapeCsv(row[0]) + "," + Line(row[1..])
    ensures |row| > 1 ==> Texts(row) == [TextOf(row[0])] + Texts(row[1..])
  {
    if |row| > 1 {
      assert Escaped(row)[1..] == Escaped(row[1..]);
    }
  }

  lemma ReadRecordCons(first: string, field: string, rest: string, fields: seq<string>, last: string)
    requires ReadField(first + "," + rest) == Some((field, "," + rest))
    requires ReadRecord(rest) == Some((fields, last))
    ensures ReadRecord(first + "," + rest) == Some(([field] + fields, last))
  {
    assert ("," + rest)[1..] == rest;
  }

  lemma Regroup(a: string, b: string, c: string, d: string)
    ensures a + b + c == a + (b + c)
    ensures a + b + c + d == a + (b + (c + d))
  {
  }

  lemma {:induction false} RecordRoundTrip(row: seq<Value>, tail: string)
    requires row != [] && (tail == "" || tail[0] == '\n')
    ensures ReadRecord(Line(row) + tail) == Some((Texts(row), tail))
  {
    LineSplits(row);
    FieldRoundTrip(row[0], if |row| == 1 then tail else "," + (Line(row[1..]) + tail));
    if |row| > 1 {
      Regroup(EscapeCsv(row[0]), ",", Line(row[1..]), tail);
      Regroup(EscapeCsv(row[0]), ",", Line(row[1..]) + tail, "");
      RecordRoundTrip(row[1..], tail);
      ReadRecordCons(EscapeCsv(row[0]), TextOf(row[0]), Line(row[1..]) + tail, Texts(row[1..]), tail);
    } else {
      LastField(EscapeCsv(row[0]) + tail);
    }
  }

  lemma LastField(s: string)
    requires ReadField(s).Some? && (ReadField(s).value.1 == "" || ReadField(s).value.1[0] == '\n')
    ensures ReadRecord(s) == Some(([ReadField(s).value.0], ReadField(s).value.1))
  {
  }

  /** A line of two or more fields is never empty, so no line is mistaken for the
      end of the file. */
  lemma LineNotEmpty(row: seq<Value>)
    requires |row| >= 2
    ensures Line(row) != ""
  {
    assert Line(row) == Escaped(row)[0] + [','] + Join(Escaped(row)[1..], ',');
    assert ',' in Line(row);
  }

  lemma LinesSplit(rows: seq<seq<Value>>)
    requires rows != []
    ensures |rows| == 1 ==> Join(Lines(rows), '\n') == Line(rows[0]) && Table(rows) == [Texts(rows[0])]
    ensures |rows| > 1 ==> Join(Lines(rows), '\n') == Line(rows[0]) + "\n" + Join(Lines(rows[1..]), '\n')
    ensures |rows| > 1 ==> Table(rows) == [Texts(rows[0])] + Table(rows[1..])
  {
    if |rows| > 1 {
      assert Lines(rows)[1..] == Lines(rows[1..]);
    }
  }

  lemma ReadFileCons(line: string, record: seq<string>, rest: string, records: seq<seq<string>>)
    requires rest != "" && ReadRecord(line + ("\n" + rest)) == Some((record, "\n" + rest))
    requires ReadFile(rest) == Some(records)
    ensures ReadFile(line + ("\n" + rest)) == Some([record] + records)
  {
    assert ("\n" + rest)[1..] == rest;
  }

  lemma {:induction false} TableRoundTrip(rows: seq<seq<Value>>)
    requires rows != [] && forall i :: 0 <= i < |rows| ==> |rows[i]| >= 2
    ensures ReadFile(Join(Lines(rows), '\n')) == Some(Table(rows))
  {
    LinesSplit(rows);
    if |rows| == 1 {
      RecordRoundTrip(rows[0], "");
      assert Line(rows[0]) + "" == Line(rows[0]);
    } else {
      var rest := Join(Lines(rows[1..]), '\n');
      RecordRoundTrip(rows[0], "\n" + rest);
      LineNotEmpty(rows[1]);
      LinesSplit(rows[1..]);
      TableRoundTrip(rows[1..]);
      ReadFileCons(Line(rows[0]), Texts(rows[0]), rest, Table(rows[1..]));
      Regroup(Line(rows[0]), "\n", rest, "");
    }
  }

  function Plain(names: seq<string>): seq<Value> {
    seq(|names|, i requires 0 <= i < |names| => Str(names[i]))
  }

  /** The header line is not escaped; it does not have to be. */
  lemma HeadersNeedNoQuotes()
    ensures forall i :: 0 <= i < |HEADERS| ==> !NeedsQuotes(HEADERS[i])
  {
  }

  lemma PlainNames(names: seq<string>)
    requires forall i :: 0 <= i < |names| ==> !NeedsQuotes(names[i])
    ensures Escaped(Plain(names)) == names && Texts(Plain(names)) == names
  {
  }

  lemma CsvAsTable(tasks: seq<Task>)
    ensures Csv(tasks) == Join(Lines([Plain(HEADERS)] + Rows(tasks)), '\n')
    ensures Texts(Plain(HEADERS)) == HEADERS
  {
    HeadersNeedNoQuotes();
    PlainNames(HEADERS);
    HeaderFirst(Plain(HEADERS), Rows(tasks));
  }

  lemma HeaderFirst(header: seq<Value>, rows: seq<seq<Value>>)
    ensures Lines([header] + rows) == [Line(header)] + Lines(rows)
    ensures Table([header] + rows) == [Texts(header)] + Table(rows)
  {
  }

  lemma HeadedRoundTrip(header: seq<Value>, rows: seq<seq<Value>>)
    requires |header| >= 2 && forall i :: 0 <= i < |rows| ==> |rows[i]| >= 2
    ensures ReadFile(Join(Lines([header] + rows), '\n')) == Some([Texts(header)] + Table(rows))
  {
    TableRoundTrip([header] + rows);
    HeaderFirst(header, rows);
  }

  /** Main result: reading the export gives the header names and then, for every
      task in order, the texts of its ten columns, whatever characters they hold. */
  lemma CsvRoundTrip(tasks: seq<Task>)
    ensures ReadFile(Csv(tasks)) == Some([HEADERS] + Table(Rows(tasks)))
  {
    HeadersNeedNoQuotes();
    PlainNames(HEADERS);
    CsvAsTable(tasks);
    HeadedRoundTrip(Plain(HEADERS), Rows(tasks));
  }

  /** Every cell sits under the header of its own attribute: the header line names the ten
      attributes, and the line of a task has their texts in the same places. */
  lemma ColumnsMatchHeaders(tasks: seq<Task>, k: nat)
    requires k < |tasks|
    ensures var file, t := ReadFile(Csv(tasks)), tasks[k];
            && file.Some? && |file.value| == |tasks| + 1
            && file.value[0] == ["id", "title", "description", "status", "priority",
                                 "workspace", "owner", "dueDate", "createdAt", "updatedAt"]
            && file.value[k + 1] == [TextOf(t.id), TextOf(t.title), TextOf(t.description), TextOf(t.status), TextOf(t.priority),
                                     TextOf(t.workspace), TextOf(t.owner), TextOf(t.dueDate), TextOf(t.createdAt), TextOf(t.updatedAt)]
  {
    RowRead(tasks, k);
    RowTexts(tasks[k]);
  }

  lemma RowTexts(t: Task)
    ensures Texts(Row(t)) == [TextOf(t.id), TextOf(t.title), TextOf(t.description), TextOf(t.status), TextOf(t.priority),
                              TextOf(t.workspace), TextOf(t.owner), TextOf(t.dueDate), TextOf(t.createdAt), TextOf(t.updatedAt)]
  {
    var row := Row(t);
    assert |row| == 10;
    assert Texts(row) == [TextOf(row[0]), TextOf(row[1]), TextOf(row[2]), TextOf(row[3]), TextOf(row[4]),
                          TextOf(row[5]), TextOf(row[6]), TextOf(row[7]), TextOf(row[8]), TextOf(row[9])];
  }

  lemma RowRead(tasks: seq<Task>, k: nat)
    requires k < |tasks|
    ensures var file := ReadFile(Csv(tasks));
            file.Some? && |file.value| == |tasks| + 1 && file.value[0] == HEADERS && file.value[k + 1] == Texts(Row(tasks[k]))
  {
    CsvRoundTrip(tasks);
    var table := Table(Rows(tasks));
    assert table[k] == Texts(Row(tasks[k]));
    assert ([HEADERS] + table)[k + 1] == table[k];
  }

  lemma {:induction false} JoinLast(parts: seq<string>, last: string, separator: char)
    requires parts != []
    ensures Join(parts + [last], separator) == Join(parts, separator) + [separator] + last
  {
    if |parts| == 1 {
      assert (parts + [last])[1..] == [last];
    } else {
      assert (parts + [last])[1..] == parts[1..] + [last];
      JoinLast(parts[1..], last, separator);
      assert parts[0] + [separator] + (Join(parts[1..], separator) + [separator] + last)
          == parts[0] + [separator] + Join(parts[1..], separator) + [separator] + last;
    }
  }

  /** The file is the header line and, for every task, a line feed and its line; nothing
      stands at the end. */
  lemma LineByLine(tasks: seq<Task>, t: Task)
    ensures Csv([]) == Join(HEADERS, ',')
    ensures Csv(tasks + [t]) == Csv(tasks) + "\n" + Line(Row(t))
  {
    assert Lines(Rows([])) == [];
    UnderHeader(Join(HEADERS, ','), tasks, t);
  }

  lemma UnderHeader(header: string, tasks: seq<Task>, t: Task)
    ensures Join([header] + Lines(Rows(tasks + [t])), '\n') == Join([header] + Lines(Rows(tasks)), '\n') + "\n" + Line(Row(t))
  {
    LinesAppend(tasks, t);
    assert [header] + (Lines(Rows(tasks)) + [Line(Row(t))]) == ([header] + Lines(Rows(tasks))) + [Line(Row(t))];
    JoinLast([header] + Lines(Rows(tasks)), Line(Row(t)), '\n');
  }

  lemma LinesAppend(tasks: seq<Task>, t: Task)
    ensures Lines(Rows(tasks + [t])) == Lines(Rows(tasks)) + [Line(Row(t))]
  {
    assert Rows(tasks + [t]) == Rows(tasks) + [Row(t)];
  }

  /** What a cell says: a string itself, a number or truth value as printed, an object as
      encoded, and nothing for what is absent or has no text. */
  lemma CellsSay(tasks: seq<Task>, k: nat, c: nat, v: Value)
    requires k < |tasks| && c < 10 && Row(tasks[k])[c] == v
    ensures var file := ReadFile(Csv(tasks));
            && file.Some? && k + 1 < |file.value| && |file.value[k + 1]| == 10
            && file.value[k + 1][c] == (if v.Str? then v.text else if v.Scalar? then v.printed
                                        else if v.Object? && v.encoded.Some? then v.encoded.value else "")
  {
    RowRead(tasks, k);
  }

  /** Two exports have the same text exactly when all their cells have the same
      texts: the encoding loses the kind of an absent value and nothing else. */
  lemma SameTextSameCells(a: seq<Task>, b: seq<Task>)
    ensures Csv(a) == Csv(b) <==> Table(Rows(a)) == Table(Rows(b))
  {
    CsvRoundTrip(a);
    CsvRoundTrip(b);
    if Csv(a) == Csv(b) {
      assert ([HEADERS] + Table(Rows(a)))[1..] == Table(Rows(a));
      assert ([HEADERS] + Table(Rows(b)))[1..] == Table(Rows(b));
    } else if Table(Rows(a)) == Table(Rows(b)) {
      EqualTextsEqualLines(Rows(a), Rows(b));
    }
  }

  lemma EqualTextsEqualLines(a: seq<seq<Value>>, b: seq<seq<Value>>)
    requires Table(a) == Table(b)
    ensures Lines(a) == Lines(b)
  {
    assert |a| == |Table(a)| == |Table(b)| == |b|;
    forall i | 0 <= i < |a| ensures Lines(a)[i] == Lines(b)[i] {
      assert Table(a)[i] == Texts(a[i]) && Table(b)[i] == Texts(b[i]);
      assert |a[i]| == |Texts(a[i])| == |b[i]|;
      forall j | 0 <= j < |a[i]| ensures Escaped(a[i])[j] == Escaped(b[i])[j] {
        assert Texts(a[i])[j] == Texts(b[i])[j];
      }
      assert Escaped(a[i]) == Escaped(b[i]);
    }
  }

  /** A field is quoted exactly when its text holds a comma, a quote or a line
      break; an absent value is written as nothing, like an empty text. */
  lemma QuotedOnlyWhenNeeded(v: Value)
    ensures ',' in TextOf(v) || '"' in TextOf(v) || '\n' in TextOf(v) <==> EscapeCsv(v) != TextOf(v)
    ensures EscapeCsv(Null) == EscapeCsv(Undefined) == EscapeCsv(Str("")) == ""
  {
    var s := TextOf(v);
    if NeedsQuotes(s) {
      DoublingNeverShortens(s);
      assert |EscapeCsv(v)| > |s|;
    }
  }

  lemma {:induction false} DoublingNeverShortens(s: string)
    ensures |DoubleQuotes(s)| >= |s|
  {
    if s != "" {
      DoublingNeverShortens(s[1..]);
    }
  }
}
