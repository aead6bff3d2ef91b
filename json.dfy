/**
 * The part of JSON.stringify that the intake forms reach: the record encoder passes every
 * object- or array-valued field (the I-131 trip list, the I-485 history lists) through it.
 * Strings are quoted as ECMAScript's QuoteJSONString does; arrays and objects are written
 * without whitespace, their elements separated by commas.
 */
module Json {

  datatype Json =
    | JString(s: string)
    | JArray(items: seq<Json>)
    | JObject(members: seq<(string, Json)>)

  /** The four hexadecimal digits JSON.stringify uses are lower-case. */
  function HexDigit(n: nat): (c: char)
    requires n < 16
    ensures '0' <= c <= '9' || 'a' <= c <= 'f'
  {
    if n < 10 then ('0' as int + n) as char else ('a' as int + n - 10) as char
  }

  /** How one character of a string is written inside the quotes. */
  function EscapeChar(c: char): (r: string)
    ensures |r| >= 1
    ensures forall i :: 0 <= i < |r| ==> r[i] as int >= 0x20
    ensures c as int >= 0x20 && c != '"' && c != '\\' ==> r == [c]
    ensures c as int < 0x20 || c == '"' || c == '\\' ==> r[0] == '\\'
  {
    if c == '"' then "\\\""
    else if c == '\\' then "\\\\"
    else if c == '\U{8}' then "\\b"
    else if c == '\U{C}' then "\\f"
    else if c == '\n' then "\\n"
    else if c == '\r' then "\\r"
    else if c == '\t' then "\\t"
    else if c as int < 0x20 then "\\u00" + [HexDigit(c as int / 16), HexDigit(c as int % 16)]
    else [c]
  }

  function EscapeChars(s: string): (r: string)
    ensures |r| >= |s|
    ensures forall i :: 0 <= i < |r| ==> r[i] as int >= 0x20
  {
    if s == [] then [] else EscapeChar(s[0]) + EscapeChars(s[1..])
  }

  /** QuoteJSONString: the string between double quotes, with its special characters escaped. */
  function Quote(s: string): (r: string)
    ensures |r| >= 2 && r[0] == '"' && r[|r| - 1] == '"'
  {
    "\"" + EscapeChars(s) + "\""
  }

  /**
   * `JSON.stringify` without indentation. The first character tells a string, an array and an
   * object apart, and the matching delimiter closes the text.
   */
  function Stringify(j: Json): (r: string)
    ensures |r| >= 2
    ensures j.JString? <==> r[0] == '"'
    ensures j.JArray? <==> r[0] == '['
    ensures j.JObject? <==> r[0] == '{'
    ensures r[|r| - 1] == (match j case JString(_) => '"' case JArray(_) => ']' case JObject(_) => '}')
    decreases j, 1
  {
    match j
    case JString(s) => Quote(s)
    case JArray(items) => "[" + Elements(items) + "]"
    case JObject(members) => "{" + Members(members) + "}"
  }

  /** The elements of an array, separated by commas. */
  function Elements(items: seq<Json>): (r: string)
    decreases items, 0
  {
    if items == [] then ""
    else if |items| == 1 then Stringify(items[0])
    else Stringify(items[0]) + "," + Elements(items[1..])
  }

  /** The members of an object, each written `"name":value`, separated by commas. */
  function Members(members: seq<(string, Json)>): (r: string)
    decreases members, 0
  {
    if members == [] then ""
    else if |members| == 1 then Member(members[0])
    else Member(members[0]) + "," + Members(members[1..])
  }

  function Member(m: (string, Json)): (r: string)
    decreases m, 0
  {
    Quote(m.0) + ":" + Stringify(m.1)
  }

  /** No control character, in particular no newline, survives JSON encoding. */
  lemma {:induction false} StringifyPrintable(j: Json)
    ensures forall i :: 0 <= i < |Stringify(j)| ==> Stringify(j)[i] as int >= 0x20
    decreases j, 1
  {
    match j
    case JString(s) =>
    case JArray(items) => ElementsPrintable(items);
    case JObject(members) => MembersPrintable(members);
  }

  lemma {:induction false} ElementsPrintable(items: seq<Json>)
    ensures forall i :: 0 <= i < |Elements(items)| ==> Elements(items)[i] as int >= 0x20
    decreases items, 0
  {
    if items == [] {
    } else if |items| == 1 {
      StringifyPrintable(items[0]);
    } else {
      StringifyPrintable(items[0]);
      ElementsPrintable(items[1..]);
    }
  }

  lemma {:induction false} MembersPrintable(members: seq<(string, Json)>)
    ensures forall i :: 0 <= i < |Members(members)| ==> Members(members)[i] as int >= 0x20
    decreases members, 0
  {
    if members == [] {
    } else if |members| == 1 {
      MemberPrintable(members[0]);
    } else {
      MemberPrintable(members[0]);
      MembersPrintable(members[1..]);
    }
  }

  lemma {:induction false} MemberPrintable(m: (string, Json))
    ensures forall i :: 0 <= i < |Member(m)| ==> Member(m)[i] as int >= 0x20
    decreases m, 0
  {
    StringifyPrintable(m.1);
  }

  lemma StringifyHasNoNewline(j: Json)
    ensures '\n' !in Stringify(j)
  {
    StringifyPrintable(j);
  }

  /** An empty array is written `[]`, which holds no comma. */
  lemma EmptyArray()
    ensures Stringify(JArray([])) == "[]"
    ensures ',' !in Stringify(JArray([]))
  {
  }

  /** An object with two or more members is written with a comma between its first two members. */
  lemma ObjectHasComma(members: seq<(string, Json)>)
    requires |members| >= 2
    ensures ',' in Stringify(JObject(members))
  {
    var inner := Members(members);
    assert inner == Member(members[0]) + "," + Members(members[1..]);
    assert inner[|Member(members[0])|] == ',';
    assert Stringify(JObject(members)) == "{" + inner + "}";
    assert Stringify(JObject(members))[1 + |Member(members[0])|] == ',';
  }

  /** An array whose first element contains a comma contains one too. */
  lemma ArrayHasComma(items: seq<Json>)
    requires |items| >= 1 && ',' in Stringify(items[0])
    ensures ',' in Stringify(JArray(items))
  {
    var first := Stringify(items[0]);
    var k :| 0 <= k < |first| && first[k] == ',';
    var inner := Elements(items);
    if |items| > 1 {
      assert inner == first + "," + Elements(items[1..]);
    }
    assert inner[k] == ',';
    assert Stringify(JArray(items)) == "[" + inner + "]";
    assert Stringify(JArray(items))[k + 1] == ',';
  }
}
