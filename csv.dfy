/**
 * The export every intake form runs on submit: each field becomes one line `key,value`, the
 * lines joined by a newline. Object and array values are JSON-encoded first and booleans print
 * as `true`/`false`; a value is quoted, with its inner double quotes doubled, only when it
 * contains a comma. No other escaping happens: a quote or a newline in a value without a comma
 * goes out as it is.
 *
 * Beside the encoder, a reader for the format (split at newlines, split each line at its first
 * comma, undo the quoting) states what the export preserves and where it breaks.
 */
module Csv {
  import opened Json
  import opened FormRecord

  datatype Option<T> = None | Some(value: T)

  /** How many times `c` occurs in `s`. */
  function Count(c: char, s: string): (n: nat)
    ensures n <= |s|
    ensures n == 0 <==> c !in s
  {
    if s == [] then 0 else (if s[0] == c then 1 else 0) + Count(c, s[1..])
  }

  lemma {:induction false} CountConcat(c: char, a: string, b: string)
    ensures Count(c, a + b) == Count(c, a) + Count(c, b)
  {
    if a == [] {
      assert a + b == b;
    } else {
      assert (a + b)[1..] == a[1..] + b;
      CountConcat(c, a[1..], b);
    }
  }

  /** A trip as JSON.stringify sees it: its four properties in declaration order. */
  function TripJson(t: TripPlan): (j: Json)
    ensures j.JObject? && |j.members| == 4
    ensures [j.members[0].0, j.members[1].0, j.members[2].0, j.members[3].0] ==
      ["country", "purpose", "departureDate", "returnDate"]
    ensures j.members[0].1 == JString(t.country) && j.members[1].1 == JString(t.purpose)
    ensures j.members[2].1 == JString(t.departureDate) && j.members[3].1 == JString(t.returnDate)
  {
    JObject([("country", JString(t.country)), ("purpose", JString(t.purpose)),
             ("departureDate", JString(t.departureDate)), ("returnDate", JString(t.returnDate))])
  }

  function TripsJson(ts: seq<TripPlan>): (j: Json)
    ensures j.JArray? && |j.items| == |ts|
    ensures forall i :: 0 <= i < |ts| ==> j.items[i] == TripJson(ts[i])
  {
    JArray(seq(|ts|, i requires 0 <= i < |ts| => TripJson(ts[i])))
  }

  /**
   * `formattedValue.toString()`: JSON for arrays, `true`/`false` for booleans, the string itself
   * otherwise. Only a string can carry a newline.
   */
  function Format(v: Value): (r: string)
    ensures !v.Text? ==> '\n' !in r
  {
    match v
    case Text(s) => s
    case Flag(b) => if b then "true" else "false"
    case Trips(ts) => StringifyHasNoNewline(TripsJson(ts)); Stringify(TripsJson(ts))
    case Items(items) => StringifyHasNoNewline(JArray(items)); Stringify(JArray(items))
  }

  /** `s.replace(/"/g, '""')`: every double quote doubled, every other character kept. */
  function DoubleQuotes(s: string): (r: string)
    ensures |r| == |s| + Count('"', s)
    ensures Count('"', r) == 2 * Count('"', s)
    ensures forall c :: c != '"' ==> Count(c, r) == Count(c, s)
  {
    if s == [] then []
    else
      var head := if s[0] == '"' then "\"\"" else [s[0]];
      CountConcat('"', head, DoubleQuotes(s[1..]));
      forall c | c != '"' ensures Count(c, head + DoubleQuotes(s[1..])) == Count(c, s) {
        CountConcat(c, head, DoubleQuotes(s[1..]));
      }
      head + DoubleQuotes(s[1..])
  }

  /**
   * The value as it appears after the key's comma. It is left as it is exactly when it holds
   * no comma; otherwise it is wrapped in double quotes, and it keeps its commas and newlines.
   */
  function Escape(s: string): (r: string)
    ensures r == s <==> ',' !in s
    ensures ',' in s ==> |r| >= 2 && r[0] == '"' && r[|r| - 1] == '"'
    ensures Count(',', r) == Count(',', s) && Count('\n', r) == Count('\n', s)
  {
    if ',' in s then
      var d := DoubleQuotes(s);
      QuotedCount(',', d);
      QuotedCount('\n', d);
      "\"" + d + "\""
    else s
  }

  lemma QuotedCount(c: char, d: string)
    requires c != '"'
    ensures Count(c, "\"" + d + "\"") == Count(c, d)
  {
    CountConcat(c, "\"", d);
    CountConcat(c, "\"" + d, "\"");
  }

  /**
   * One line of the export: the key, a comma, the escaped value. Its newlines are those of the
   * key and the value: escaping adds none and removes none.
   */
  function Line(key: string, v: Value): (line: string)
    ensures Count('\n', line) == Count('\n', key) + Count('\n', Format(v))
  {
    var cell := Escape(Format(v));
    CountConcat('\n', key, ",");
    CountConcat('\n', key + ",", cell);
    key + "," + cell
  }

  function Lines(entries: seq<(string, Value)>): (lines: seq<string>)
    ensures |lines| == |entries|
  {
    seq(|entries|, i requires 0 <= i < |entries| => Line(entries[i].0, entries[i].1))
  }

  /** `lines.join('\n')`: no newline before the first line or after the last. */
  function Join(lines: seq<string>): (r: string)
    ensures Count('\n', r) == (if lines == [] then 0 else |lines| - 1) + SumNewlines(lines)
  {
    if lines == [] then ""
    else if |lines| == 1 then lines[0]
    else
      CountConcat('\n', lines[0], "\n");
      CountConcat('\n', lines[0] + "\n", Join(lines[1..]));
      lines[0] + "\n" + Join(lines[1..])
  }

  function SumNewlines(lines: seq<string>): nat {
    if lines == [] then 0 else Count('\n', lines[0]) + SumNewlines(lines[1..])
  }

  /**
   * The CSV text of `Object.entries(formData)`. With keys free of newlines, its newlines are the
   * separators between the lines plus every newline inside a value.
   */
  function Encode(entries: seq<(string, Value)>): (text: string)
    ensures (forall i :: 0 <= i < |entries| ==> '\n' !in entries[i].0) ==>
      Count('\n', text) == (if entries == [] then 0 else |entries| - 1) + ValueNewlines(entries)
  {
    if forall i :: 0 <= i < |entries| ==> '\n' !in entries[i].0 then
      SumNewlinesOfLines(entries);
      Join(Lines(entries))
    else Join(Lines(entries))
  }

  /**
   * The CSV text a form exports for its record. With plain keys, it reads back as every key with
   * its formatted value exactly when no value holds a newline.
   */
  function Export(r: Record): (text: string)
    requires Valid(r)
    ensures |r.keys| >= 1 && (forall i :: 0 <= i < |r.keys| ==> ',' !in r.keys[i] && '\n' !in r.keys[i]) ==>
      (Decode(text) == Some(Formatted(Entries(r))) <==> forall k :: k in r.vals ==> '\n' !in Format(r.vals[k]))
  {
    ReadsBackFieldByField(Entries(r));
    Encode(Entries(r))
  }

  // ---------------------------------------------------------------------------------------
  // Reading the format back

  /** `text.split('\n')`: the pieces between newlines; an empty text is one empty piece. */
  function SplitLines(text: string): (pieces: seq<string>)
    ensures |pieces| == Count('\n', text) + 1
  {
    if text == [] then [""]
    else
      var rest := SplitLines(text[1..]);
      if text[0] == '\n' then [""] + rest else [[text[0]] + rest[0]] + rest[1..]
  }

  /** The key before the first comma of a line and the cell after it; none without a comma. */
  function SplitKey(line: string): (r: Option<(string, string)>)
    ensures r.Some? <==> ',' in line
    ensures r.Some? ==> ',' !in r.value.0 && line == r.value.0 + "," + r.value.1
  {
    if line == [] then None
    else if line[0] == ',' then Some(("", line[1..]))
    else
      match SplitKey(line[1..])
      case None => None
      case Some((k, cell)) => Some(([line[0]] + k, cell))
  }

  /** Halves the doubled quotes; a lone quote has no reading. */
  function Undouble(s: string): Option<string> {
    if s == [] then Some([])
    else if s[0] == '"' then
      if |s| >= 2 && s[1] == '"' then
        match Undouble(s[2..])
        case None => None
        case Some(t) => Some("\"" + t)
      else None
    else
      match Undouble(s[1..])
      case None => None
      case Some(t) => Some([s[0]] + t)
  }

  /** A cell with a comma must be a quoted value; a cell without one is the value itself. */
  function Unescape(cell: string): Option<string> {
    if ',' !in cell then Some(cell)
    else if |cell| >= 2 && cell[0] == '"' && cell[|cell| - 1] == '"' then Undouble(cell[1..|cell| - 1])
    else None
  }

  /** Each line read as a key and its value; a line the encoder cannot have written has no reading. */
  function DecodeLines(lines: seq<string>): (r: Option<seq<(string, string)>>)
    ensures r.Some? ==> |r.value| == |lines|
  {
    if lines == [] then Some([])
    else
      match SplitKey(lines[0])
      case None => None
      case Some((k, cell)) =>
        match Unescape(cell)
        case None => None
        case Some(v) =>
          match DecodeLines(lines[1..])
          case None => None
          case Some(rest) => Some([(k, v)] + rest)
  }

  /** Key/value pairs read back from the exported text. */
  function Decode(text: string): (r: Option<seq<(string, string)>>)
    ensures r.Some? ==> |r.value| == Count('\n', text) + 1
  {
    DecodeLines(SplitLines(text))
  }

  // ---------------------------------------------------------------------------------------
  // What the export preserves

  lemma {:induction false} UndoubleDoubleQuotes(s: string)
    ensures Undouble(DoubleQuotes(s)) == Some(s)
  {
    if s != [] {
      UndoubleDoubleQuotes(s[1..]);
      var d := DoubleQuotes(s);
      if s[0] == '"' {
        assert d[2..] == DoubleQuotes(s[1..]);
        assert "\"" + s[1..] == s;
      } else {
        assert d[1..] == DoubleQuotes(s[1..]);
        assert [s[0]] + s[1..] == s;
      }
    }
  }

  /** Stripping the outer quotes and halving the inner ones gives back every value. */
  lemma EscapeRoundTrip(s: string)
    ensures Unescape(Escape(s)) == Some(s)
  {
    if ',' in s {
      var e := Escape(s);
      assert e[1..|e| - 1] == DoubleQuotes(s);
      UndoubleDoubleQuotes(s);
    }
  }

  /** A key without a comma is recovered by splitting its line at the first comma. */
  lemma {:induction false} SplitKeyLine(key: string, cell: string)
    requires ',' !in key
    ensures SplitKey(key + "," + cell) == Some((key, cell))
  {
    if key != [] {
      assert (key + "," + cell)[1..] == key[1..] + "," + cell;
      SplitKeyLine(key[1..], cell);
      assert [key[0]] + key[1..] == key;
    }
  }

  /** A first line without a newline splits off as one piece. */
  lemma {:induction false} SplitLinesAppend(a: string, b: string)
    requires '\n' !in a
    ensures SplitLines(a + "\n" + b) == [a] + SplitLines(b)
  {
    if a == [] {
      assert a + "\n" + b == "\n" + b;
      assert ("\n" + b)[1..] == b;
    } else {
      var text := a + "\n" + b;
      var rest := SplitLines(text[1..]);
      assert text[1..] == a[1..] + "\n" + b;
      assert rest == [a[1..]] + SplitLines(b) by {
        SplitLinesAppend(a[1..], b);
      }
      assert SplitLines(text) == [[a[0]] + rest[0]] + rest[1..] by {
        assert text[0] == a[0] && text[0] != '\n';
      }
      assert [a[0]] + a[1..] == a;
    }
  }

  lemma {:induction false} SplitLinesPlain(a: string)
    requires '\n' !in a
    ensures SplitLines(a) == [a]
  {
    if a != [] {
      SplitLinesPlain(a[1..]);
      assert [a[0]] + a[1..] == a;
    }
  }

  /** Joining lines that hold no newline and splitting again gives the lines back. */
  lemma {:induction false} SplitJoin(lines: seq<string>)
    requires |lines| >= 1
    requires forall i :: 0 <= i < |lines| ==> '\n' !in lines[i]
    ensures SplitLines(Join(lines)) == lines
  {
    if |lines| == 1 {
      SplitLinesPlain(lines[0]);
    } else {
      SplitJoin(lines[1..]);
      SplitLinesAppend(lines[0], Join(lines[1..]));
      assert [lines[0]] + lines[1..] == lines;
    }
  }

  /** The export of a single line reads back as its key and formatted value. */
  lemma DecodeLine(key: string, v: Value)
    requires ',' !in key
    ensures SplitKey(Line(key, v)) == Some((key, Escape(Format(v))))
    ensures Unescape(Escape(Format(v))) == Some(Format(v))
  {
    SplitKeyLine(key, Escape(Format(v)));
    EscapeRoundTrip(Format(v));
  }

  /** Each key with its formatted value: what a reader of the export should recover. */
  function Formatted(entries: seq<(string, Value)>): (pairs: seq<(string, string)>)
    ensures |pairs| == |entries|
    ensures forall i :: 0 <= i < |entries| ==> pairs[i] == (entries[i].0, Format(entries[i].1))
  {
    if entries == [] then [] else [(entries[0].0, Format(entries[0].1))] + Formatted(entries[1..])
  }

  /** The first line is the first entry's; the others are the lines of the remaining entries. */
  lemma LinesCons(entries: seq<(string, Value)>)
    requires entries != []
    ensures Lines(entries)[0] == Line(entries[0].0, entries[0].1)
    ensures Lines(entries)[1..] == Lines(entries[1..])
  {
    var lines, tail := Lines(entries), Lines(entries[1..]);
    forall i | 0 <= i < |tail|
      ensures lines[1..][i] == tail[i]
    {
      assert entries[1..][i] == entries[i + 1];
    }
  }

  lemma {:induction false} DecodeAllLines(entries: seq<(string, Value)>)
    requires forall i :: 0 <= i < |entries| ==> ',' !in entries[i].0
    ensures DecodeLines(Lines(entries)) == Some(Formatted(entries))
  {
    if entries != [] {
      var lines := Lines(entries);
      var key, v := entries[0].0, entries[0].1;
      LinesCons(entries);
      var rest := Formatted(entries[1..]);
      assert DecodeLines(lines[1..]) == Some(rest) by {
        DecodeAllLines(entries[1..]);
      }
      assert DecodeLines(lines) == Some([(key, Format(v))] + rest) by {
        DecodeLine(key, v);
      }
      assert Formatted(entries) == [(key, Format(v))] + rest;
    }
  }

  /** Keys a reader can find again: no comma (it ends the key) and no newline (it ends the line). */
  predicate PlainKeys(entries: seq<(string, Value)>) {
    forall i :: 0 <= i < |entries| ==> ',' !in entries[i].0 && '\n' !in entries[i].0
  }

  /**
   * Round trip: with plain keys and no newline in any value, reading the export back gives
   * every key with its formatted value, in order.
   */
  lemma DecodeEncode(entries: seq<(string, Value)>)
    requires |entries| >= 1 && PlainKeys(entries)
    requires forall i :: 0 <= i < |entries| ==> '\n' !in Format(entries[i].1)
    ensures Decode(Encode(entries)) == Some(Formatted(entries))
  {
    var lines := Lines(entries);
    assert forall i :: 0 <= i < |lines| ==> Count('\n', lines[i]) == 0;
    SplitJoin(lines);
    DecodeAllLines(entries);
  }

  /** Newlines inside the values of the entries. */
  function ValueNewlines(entries: seq<(string, Value)>): nat {
    if entries == [] then 0 else Count('\n', Format(entries[0].1)) + ValueNewlines(entries[1..])
  }

  lemma {:induction false} SumNewlinesOfLines(entries: seq<(string, Value)>)
    requires forall i :: 0 <= i < |entries| ==> '\n' !in entries[i].0
    ensures SumNewlines(Lines(entries)) == ValueNewlines(entries)
  {
    if entries != [] {
      LinesCons(entries);
      assert Count('\n', Lines(entries)[0]) == Count('\n', Format(entries[0].1));
      SumNewlinesOfLines(entries[1..]);
    }
  }

  /**
   * The export has one line per field, plus one more for every newline inside a value: a
   * multi-line text answer spreads over several lines of the file.
   */
  lemma LineCount(entries: seq<(string, Value)>)
    requires |entries| >= 1
    requires forall i :: 0 <= i < |entries| ==> '\n' !in entries[i].0
    ensures |SplitLines(Encode(entries))| == |entries| + ValueNewlines(entries)
  {
    SumNewlinesOfLines(entries);
  }

  lemma {:induction false} NoValueNewlines(entries: seq<(string, Value)>)
    ensures ValueNewlines(entries) == 0 <==> forall i :: 0 <= i < |entries| ==> '\n' !in Format(entries[i].1)
  {
    if entries != [] {
      NoValueNewlines(entries[1..]);
      assert forall i :: 1 <= i < |entries| ==> entries[i] == entries[1..][i - 1];
    }
  }

  /** Exactly one line per field holds precisely when no value contains a newline. */
  lemma OneLinePerField(entries: seq<(string, Value)>)
    requires |entries| >= 1
    requires forall i :: 0 <= i < |entries| ==> '\n' !in entries[i].0
    ensures |SplitLines(Encode(entries))| == |entries| <==>
      forall i :: 0 <= i < |entries| ==> '\n' !in Format(entries[i].1)
  {
    LineCount(entries);
    NoValueNewlines(entries);
  }

  /**
   * The read-back is exact if and only if no value holds a newline: a newline inside a value
   * adds a line, and every line reads back as one more pair than there are fields.
   */
  lemma ReadsBackFieldByField(entries: seq<(string, Value)>)
    ensures |entries| >= 1 && PlainKeys(entries) ==>
      (Decode(Encode(entries)) == Some(Formatted(entries)) <==>
       forall i :: 0 <= i < |entries| ==> '\n' !in Format(entries[i].1))
  {
    if |entries| >= 1 && PlainKeys(entries) {
      if forall i :: 0 <= i < |entries| ==> '\n' !in Format(entries[i].1) {
        DecodeEncode(entries);
      } else {
        NoValueNewlines(entries);
        assert Count('\n', Encode(entries)) + 1 > |Formatted(entries)|;
      }
    }
  }

  /**
   * A value without a comma is written verbatim, quotes and newlines included: `say "hi"`
   * stays `say "hi"` and a line break stays a line break.
   */
  lemma VerbatimLine(key: string, s: string)
    requires ',' !in s
    ensures Line(key, Text(s)) == key + "," + s
  {
  }

  /** A two-line answer turns a one-field record into a two-line export. */
  lemma NewlineSplitsField(key: string, first: string, second: string)
    requires '\n' !in key && '\n' !in first && '\n' !in second
    ensures |SplitLines(Encode([(key, Text(first + "\n" + second))]))| == 2
  {
    var entries := [(key, Text(first + "\n" + second))];
    CountConcat('\n', first, "\n");
    CountConcat('\n', first + "\n", second);
    assert ValueNewlines(entries) == Count('\n', first + "\n" + second) + ValueNewlines([]);
    LineCount(entries);
  }

  /** Booleans print as `true`/`false` and are never quoted. */
  lemma FlagLine(key: string, b: bool)
    ensures Line(key, Flag(b)) == key + (if b then ",true" else ",false")
  {
    var cell := if b then "true" else "false";
    assert ',' !in cell;
    assert "," + cell == (if b then ",true" else ",false");
  }

  /** An empty string leaves the cell empty. */
  lemma EmptyTextLine(key: string)
    ensures Line(key, Text("")) == key + ","
  {
    assert Escape("") == "";
  }

  /** An empty list prints as `[]`, unquoted. */
  lemma EmptyItemsLine(key: string)
    ensures Line(key, Items([])) == key + ",[]"
  {
    EmptyArray();
  }

  /** A non-empty trip list contains a comma once JSON-encoded. */
  lemma TripsHaveComma(ts: seq<TripPlan>)
    requires |ts| >= 1
    ensures ',' in Stringify(TripsJson(ts))
  {
    var j := TripsJson(ts);
    var first := j.items[0];
    assert first.JObject? && |first.members| == 4;
    ObjectHasComma(first.members);
    ArrayHasComma(j.items);
  }

  /** So the trip list's cell is always quoted, with its JSON's double quotes doubled. */
  lemma TripsCellQuoted(ts: seq<TripPlan>)
    requires |ts| >= 1
    ensures Escape(Format(Trips(ts))) == "\"" + DoubleQuotes(Format(Trips(ts))) + "\""
  {
    var f := Format(Trips(ts));
    assert ',' in f by {
      TripsHaveComma(ts);
      assert f == Stringify(TripsJson(ts));
    }
  }

  /** The export of a record: one line per key, and the pairs read back in key order. */
  lemma ExportLines(r: Record)
    requires Valid(r) && |r.keys| >= 1
    requires forall i :: 0 <= i < |r.keys| ==> ',' !in r.keys[i] && '\n' !in r.keys[i]
    ensures |SplitLines(Export(r))| == |r.keys| + ValueNewlines(Entries(r))
    ensures |SplitLines(Export(r))| == |r.keys| <==> forall k :: k in r.vals ==> '\n' !in Format(r.vals[k])
    ensures Decode(Export(r)) == Some(Formatted(Entries(r))) <==> forall k :: k in r.vals ==> '\n' !in Format(r.vals[k])
    ensures (forall k :: k in r.vals ==> '\n' !in Format(r.vals[k])) ==>
      Decode(Export(r)) == Some(Formatted(Entries(r)))
  {
    var es := Entries(r);
    assert forall i :: 0 <= i < |es| ==> es[i].0 == r.keys[i] && es[i].1 == r.vals[r.keys[i]];
    LineCount(es);
    OneLinePerField(es);
    if forall k :: k in r.vals ==> '\n' !in Format(r.vals[k]) {
      DecodeEncode(es);
    }
  }

  /** Editing a field rewrites the line of its key and no other line. */
  lemma ExportAfterAssign(r: Record, k: string, v: Value)
    requires Valid(r) && k in r.vals
    ensures Valid(Assign(r, k, v))
    ensures |Lines(Entries(Assign(r, k, v)))| == |Lines(Entries(r))|
    ensures forall j :: 0 <= j < |r.keys| ==>
      Lines(Entries(Assign(r, k, v)))[j] == (if r.keys[j] == k then Line(k, v) else Lines(Entries(r))[j])
  {
    EntriesAfterAssign(r, k, v);
  }

  /**
   * The export of any record shaped like a form's initial record: one line per field of the
   * schema, plus one per newline typed into a value; without such newlines it reads back field
   * by field in the schema's order.
   */
  lemma ExportOfShaped(r: Record, schema: Record)
    requires FormRecord.Valid(schema) && Shaped(r, schema) && |schema.keys| >= 1
    requires forall i :: 0 <= i < |schema.keys| ==> ',' !in schema.keys[i] && '\n' !in schema.keys[i]
    ensures FormRecord.Valid(r)
    ensures |SplitLines(Export(r))| == |schema.keys| + ValueNewlines(Entries(r))
    ensures |SplitLines(Export(r))| == |schema.keys| <==> forall k :: k in r.vals ==> '\n' !in Format(r.vals[k])
    ensures Decode(Export(r)) == Some(Formatted(Entries(r))) <==> forall k :: k in r.vals ==> '\n' !in Format(r.vals[k])
    ensures (forall k :: k in r.vals ==> '\n' !in Format(r.vals[k])) ==>
      && Decode(Export(r)) == Some(Formatted(Entries(r)))
      && forall i :: 0 <= i < |schema.keys| ==> Formatted(Entries(r))[i] == (schema.keys[i], Format(r.vals[schema.keys[i]]))
  {
    ShapedValid(r, schema);
    ExportLines(r);
  }

  /**
   * Unticking the checkbox at position `i` hides the detail field at position `j` but keeps its
   * text: the checkbox line becomes `flag,false` and the detail line is unchanged.
   */
  lemma UntickExport(r: Record, flag: string, i: nat, detail: string, j: nat)
    requires FormRecord.Valid(r) && i < |r.keys| && j < |r.keys|
    requires r.keys[i] == flag && r.keys[j] == detail && flag != detail
    ensures FormRecord.Valid(Assign(r, flag, Flag(false)))
    ensures !Shows(Assign(r, flag, Flag(false)), flag)
    ensures Assign(r, flag, Flag(false)).vals[detail] == r.vals[detail]
    ensures Lines(Entries(Assign(r, flag, Flag(false))))[i] == flag + ",false"
    ensures Lines(Entries(Assign(r, flag, Flag(false))))[j] == Lines(Entries(r))[j]
  {
    var r' := Assign(r, flag, Flag(false));
    EntriesAfterAssign(r, flag, Flag(false));
    assert Entries(r')[i] == (flag, Flag(false));
    assert Entries(r')[j] == Entries(r)[j];
    FlagLine(flag, false);
  }
}
