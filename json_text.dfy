/**
 * JSON text as `JSON.stringify` writes it and `JSON.parse` reads it, for the values the document
 * store keeps: null, booleans, strings, arrays and objects. The store in lib/storage-utils.ts
 * serialises documents with these two calls; `Parse(Stringify(j)) == Some(j)` is what makes a
 * saved document load back unchanged.
 */
module JsonText {
  import opened Wrappers
  import opened Text

  /** A JSON value; an object keeps its members in insertion order. */
  datatype Json =
    | JNull
    | JBool(b: bool)
    | JString(s: string)
    | JArray(items: seq<Json>)
    | JObject(members: seq<(string, Json)>)

  // ---------------------------------------------------------------------------------------------
  // Strings

  function HexDigit(d: nat): char
    requires d < 16
  {
    if d < 10 then ('0' as int + d) as char else ('a' as int + d - 10) as char
  }

  function HexValue(c: char): Option<nat>
  {
    if '0' <= c <= '9' then Some(c as int - '0' as int)
    else if 'a' <= c <= 'f' then Some(c as int - 'a' as int + 10)
    else if 'A' <= c <= 'F' then Some(c as int - 'A' as int + 10)
    else None
  }

  /** The value of four hexadecimal digits, as in a `\uXXXX` escape. */
  function Hex4(h: string): (r: Option<nat>)
    requires |h| == 4
    ensures r.Some? ==> r.value < 0x10000
  {
    match (HexValue(h[0]), HexValue(h[1]), HexValue(h[2]), HexValue(h[3]))
    case (Some(a), Some(b), Some(c), Some(d)) =>
      if a < 16 && b < 16 && c < 16 && d < 16 then Some(4096 * a + 256 * b + 16 * c + d) else None
    case _ => None
  }

  lemma HexDigitValue(d: nat)
    requires d < 16
    ensures HexValue(HexDigit(d)) == Some(d)
  {
  }

  /** How `JSON.stringify` writes one character inside a string literal: the quote and the
      backslash are escaped, the five control characters with short escapes use them, the other
      control characters below U+0020 become `\u00xx` with lower-case hex digits, and everything
      else is written as is. */
  function EscapeChar(c: char): (r: string)
    ensures r != []
  {
    if c == '\"' then "\\\""
    else if c == '\\' then "\\\\"
    else if c == 8 as char then "\\b"
    else if c == 12 as char then "\\f"
    else if c == '\n' then "\\n"
    else if c == '\r' then "\\r"
    else if c == '\t' then "\\t"
    else if (c as int) < 0x20 then "\\u00" + [HexDigit(c as int / 16), HexDigit(c as int % 16)]
    else [c]
  }

  function Escape(s: string): string
  {
    if s == [] then [] else EscapeChar(s[0]) + Escape(s[1..])
  }

  /** A string literal: the escaped text between double quotes. */
  function Quote(s: string): string
  {
    "\"" + Escape(s) + "\""
  }

  /** The character a backslash escape at the start of `t` stands for, and the escape's length;
      `None` for an escape `JSON.parse` rejects. */
  function EscapeAt(t: string): (r: Option<(char, nat)>)
    requires t != [] && t[0] == '\\'
    ensures r.Some? ==> 2 <= r.value.1 <= |t|
  {
    if |t| < 2 then None
    else if t[1] == '\"' then Some(('\"', 2))
    else if t[1] == '\\' then Some(('\\', 2))
    else if t[1] == '/' then Some(('/', 2))
    else if t[1] == 'b' then Some((8 as char, 2))
    else if t[1] == 'f' then Some((12 as char, 2))
    else if t[1] == 'n' then Some(('\n', 2))
    else if t[1] == 'r' then Some(('\r', 2))
    else if t[1] == 't' then Some(('\t', 2))
    else if t[1] == 'u' && |t| >= 6 then
      match Hex4(t[2..6])
      case Some(v) => if v < 0xD800 || 0xE000 <= v then Some((v as char, 6)) else None
      case None => None
    else None
  }

  function Prepend(c: char, r: Option<(string, string)>): (p: Option<(string, string)>)
    ensures p.Some? <==> r.Some?
    ensures p.Some? ==> p.value == ([c] + r.value.0, r.value.1)
  {
    match r
    case None => None
    case Some((s, rest)) => Some(([c] + s, rest))
  }

  /** Reads the body of a string literal whose opening quote is already consumed: the text up to
      the closing quote, and what follows it. A raw control character is an error. */
  function ParseStringBody(t: string): (r: Option<(string, string)>)
    ensures r.Some? ==> |r.value.1| < |t|
    decreases |t|
  {
    if t == [] then None
    else if t[0] == '\"' then Some(([], t[1..]))
    else if (t[0] as int) < 0x20 then None
    else if t[0] != '\\' then Prepend(t[0], ParseStringBody(t[1..]))
    else
      match EscapeAt(t)
      case None => None
      case Some((c, n)) => Prepend(c, ParseStringBody(t[n..]))
  }

  /** Each escaped character reads back as itself. */
  lemma EscapeCharReads(c: char, tail: string)
    ensures ParseStringBody(EscapeChar(c) + tail) == Prepend(c, ParseStringBody(tail))
  {
    if |EscapeChar(c)| == 1 {
      PlainReads(c, tail);
    } else if |EscapeChar(c)| == 2 {
      ShortEscapeReads(c, tail);
    } else {
      UnicodeEscapeReads(c, tail);
    }
  }

  lemma PlainReads(c: char, tail: string)
    requires |EscapeChar(c)| == 1
    ensures ParseStringBody(EscapeChar(c) + tail) == Prepend(c, ParseStringBody(tail))
  {
    var t := EscapeChar(c) + tail;
    assert t[0] == c && t[1..] == tail;
  }

  lemma ShortEscapeReads(c: char, tail: string)
    requires |EscapeChar(c)| == 2
    ensures ParseStringBody(EscapeChar(c) + tail) == Prepend(c, ParseStringBody(tail))
  {
    var e := EscapeChar(c);
    var t := e + tail;
    assert t[0] == e[0] && t[1] == e[1] && t[2..] == tail;
  }

  lemma UnicodeEscapeReads(c: char, tail: string)
    requires |EscapeChar(c)| > 2
    ensures ParseStringBody(EscapeChar(c) + tail) == Prepend(c, ParseStringBody(tail))
  {
    var e := EscapeChar(c);
    var t := e + tail;
    var hi, lo := c as int / 16, c as int % 16;
    HexDigitValue(hi);
    HexDigitValue(lo);
    assert t[0] == '\\' && t[1] == 'u' && t[2..6] == "00" + [HexDigit(hi), HexDigit(lo)];
    assert t[6..] == tail;
  }

  /** The body of an escaped string reads back as the string, and parsing stops right after its
      closing quote. */
  lemma {:induction false} EscapeRoundTrip(s: string, rest: string)
    ensures ParseStringBody(Escape(s) + "\"" + rest) == Some((s, rest))
  {
    if s == [] {
      assert Escape(s) + "\"" + rest == "\"" + rest;
    } else {
      var tail := Escape(s[1..]) + "\"" + rest;
      assert Escape(s) + "\"" + rest == EscapeChar(s[0]) + tail;
      EscapeCharReads(s[0], tail);
      EscapeRoundTrip(s[1..], rest);
      assert [s[0]] + s[1..] == s;
    }
  }

  // ---------------------------------------------------------------------------------------------
  // Values

  /** The whitespace `JSON.parse` skips between tokens. */
  predicate IsJsonSpace(c: char)
  {
    c == ' ' || c == '\t' || c == '\n' || c == '\r'
  }

  function SkipWs(t: string): (r: string)
    ensures |r| <= |t|
    ensures r == [] || !IsJsonSpace(r[0])
  {
    if t != [] && IsJsonSpace(t[0]) then SkipWs(t[1..]) else t
  }

  /** The characters a value written by `Stringify` can start with. */
  predicate StartsValue(c: char)
  {
    c == 'n' || c == 't' || c == 'f' || c == '\"' || c == '[' || c == '{'
  }

  /** `JSON.stringify(j)`: no whitespace between tokens. */
  function Stringify(j: Json): (r: string)
    ensures r != [] && StartsValue(r[0])
    decreases j
  {
    match j
    case JNull => "null"
    case JBool(b) => if b then "true" else "false"
    case JString(s) => Quote(s)
    case JArray(items) => "[" + StringifyItems(items) + "]"
    case JObject(ms) => "{" + StringifyMembers(ms) + "}"
  }

  /** The items of an array, separated by commas. */
  function StringifyItems(items: seq<Json>): (r: string)
    ensures items != [] ==> r != [] && StartsValue(r[0])
    decreases items
  {
    if items == [] then ""
    else if |items| == 1 then Stringify(items[0])
    else Stringify(items[0]) + "," + StringifyItems(items[1..])
  }

  /** The members of an object, `"key":value`, separated by commas. */
  function StringifyMembers(ms: seq<(string, Json)>): (r: string)
    ensures ms != [] ==> r != [] && r[0] == '\"'
    decreases ms
  {
    if ms == [] then ""
    else
      assert ms[0].1 < ms[0];
      var first := Quote(ms[0].0) + ":" + Stringify(ms[0].1);
      if |ms| == 1 then first else first + "," + StringifyMembers(ms[1..])
  }

  /** A keyword at the start of `u`. */
  function Literal(u: string, word: string, v: Json): (r: Option<(Json, string)>)
    requires word != []
    ensures r.Some? ==> |r.value.1| < |u|
  {
    if StartsWith(u, word) then Some((v, u[|word|..])) else None
  }

  function ParseString(u: string): (r: Option<(Json, string)>)
    requires u != []
    ensures r.Some? ==> |r.value.1| < |u|
  {
    match ParseStringBody(u[1..])
    case Some((s, rest)) => Some((JString(s), rest))
    case None => None
  }

  /** Reads one value after optional whitespace; returns it and the text after it. */
  function ParseValue(t: string): (r: Option<(Json, string)>)
    ensures r.Some? ==> |r.value.1| < |t|
    decreases |t|, 3
  {
    var u := SkipWs(t);
    if u == [] then None else ParseValueAt(u)
  }

  /** Reads the value that starts at the first character of `u`, chosen by that character.
      Numbers are not read. */
  function ParseValueAt(u: string): (r: Option<(Json, string)>)
    requires u != []
    ensures r.Some? ==> |r.value.1| < |u|
    decreases |u|, 2
  {
    match u[0]
    case 'n' => Literal(u, "null", JNull)
    case 't' => Literal(u, "true", JBool(true))
    case 'f' => Literal(u, "false", JBool(false))
    case '\"' => ParseString(u)
    case '[' => ParseArray(u)
    case '{' => ParseObject(u)
    case _ => None
  }

  /** Reads `[ ]` or `[ value (, value)* ]`. */
  function ParseArray(u: string): (r: Option<(Json, string)>)
    requires u != []
    ensures r.Some? ==> |r.value.1| < |u|
    decreases |u|, 1
  {
    var v := SkipWs(u[1..]);
    if v != [] && v[0] == ']' then Some((JArray([]), v[1..]))
    else
      match ParseItems(u[1..])
      case Some((items, rest)) => Some((JArray(items), rest))
      case None => None
  }

  /** Reads `{ }` or `{ "key": value (, "key": value)* }`. */
  function ParseObject(u: string): (r: Option<(Json, string)>)
    requires u != []
    ensures r.Some? ==> |r.value.1| < |u|
    decreases |u|, 1
  {
    var v := SkipWs(u[1..]);
    if v != [] && v[0] == '}' then Some((JObject([]), v[1..]))
    else
      match ParseMembers(u[1..])
      case Some((ms, rest)) => Some((JObject(ms), rest))
      case None => None
  }

  /** Reads `value (, value)* ]`. */
  function ParseItems(t: string): (r: Option<(seq<Json>, string)>)
    ensures r.Some? ==> |r.value.1| < |t|
    decreases |t|, 4
  {
    match ParseValue(t)
    case None => None
    case Some((j, rest)) => ItemsAfter(j, rest)
  }

  /** After an array item `j`: either the closing bracket or a comma and more items. */
  function ItemsAfter(j: Json, rest: string): (r: Option<(seq<Json>, string)>)
    ensures r.Some? ==> |r.value.1| < |rest|
    decreases |rest|, 5
  {
    var r := SkipWs(rest);
    if r == [] then None
    else if r[0] == ']' then Some(([j], r[1..]))
    else if r[0] == ',' then
      match ParseItems(r[1..])
      case Some((more, rest')) => Some(([j] + more, rest'))
      case None => None
    else None
  }

  /** Reads `"key": value (, "key": value)* }`. */
  function ParseMembers(t: string): (r: Option<(seq<(string, Json)>, string)>)
    ensures r.Some? ==> |r.value.1| < |t|
    decreases |t|, 4
  {
    var u := SkipWs(t);
    if u == [] || u[0] != '\"' then None
    else
      match ParseStringBody(u[1..])
      case None => None
      case Some((key, afterKey)) => MemberValue(key, afterKey)
  }

  /** After a member's key: the colon, the value, and what follows the member. */
  function MemberValue(key: string, afterKey: string): (r: Option<(seq<(string, Json)>, string)>)
    ensures r.Some? ==> |r.value.1| < |afterKey|
    decreases |afterKey|, 5
  {
    var c := SkipWs(afterKey);
    if c == [] || c[0] != ':' then None
    else
      match ParseValue(c[1..])
      case None => None
      case Some((v, rest)) => MembersAfter(key, v, rest)
  }

  /** After a member: either the closing brace or a comma and more members. */
  function MembersAfter(key: string, v: Json, rest: string): (r: Option<(seq<(string, Json)>, string)>)
    ensures r.Some? ==> |r.value.1| < |rest|
    decreases |rest|, 5
  {
    var r := SkipWs(rest);
    if r == [] then None
    else if r[0] == '}' then Some(([(key, v)], r[1..]))
    else if r[0] == ',' then
      match ParseMembers(r[1..])
      case Some((more, rest')) => Some(([(key, v)] + more, rest'))
      case None => None
    else None
  }

  /** `JSON.parse(t)`: one value and nothing but whitespace after it; `None` where it throws. */
  function Parse(t: string): Option<Json>
  {
    match ParseValue(t)
    case Some((j, rest)) => if SkipWs(rest) == [] then Some(j) else None
    case None => None
  }

  lemma QuoteReads(s: string, rest: string)
    ensures (Quote(s) + rest)[0] == '\"'
    ensures ParseStringBody((Quote(s) + rest)[1..]) == Some((s, rest))
  {
    assert (Quote(s) + rest)[1..] == Escape(s) + "\"" + rest;
    EscapeRoundTrip(s, rest);
  }

  /** Text that starts with a value's first character is read from that character on. */
  lemma ValueAtStart(t: string)
    requires t != [] && StartsValue(t[0])
    ensures ParseValue(t) == ParseValueAt(t)
  {
    assert SkipWs(t) == t;
  }

  lemma LiteralRoundTrip(word: string, v: Json, rest: string)
    requires word != []
    ensures Literal(word + rest, word, v) == Some((v, rest))
  {
    assert (word + rest)[..|word|] == word;
    assert (word + rest)[|word|..] == rest;
  }

  /** A stringified value reads back as itself, whatever text follows it. */
  lemma {:induction false} ValueRoundTrip(j: Json, rest: string)
    ensures ParseValue(Stringify(j) + rest) == Some((j, rest))
    decreases j, 2
  {
    var t := Stringify(j) + rest;
    ValueAtStart(t);
    match j
    case JNull =>
      LiteralRoundTrip("null", JNull, rest);
    case JBool(b) =>
      if b {
        LiteralRoundTrip("true", JBool(true), rest);
      } else {
        LiteralRoundTrip("false", JBool(false), rest);
      }
    case JString(s) =>
      QuoteReads(s, rest);
    case JArray(items) =>
      ArrayRoundTrip(items, rest);
    case JObject(ms) =>
      ObjectRoundTrip(ms, rest);
  }

  lemma {:induction false} ArrayRoundTrip(items: seq<Json>, rest: string)
    ensures ParseArray("[" + StringifyItems(items) + "]" + rest) == Some((JArray(items), rest))
    decreases items, 3
  {
    if items == [] {
      EmptyArrayReads(rest);
    } else {
      ItemsRoundTrip(items, rest);
      ArrayReads(items, rest);
    }
  }

  lemma EmptyArrayReads(rest: string)
    ensures ParseArray("[" + StringifyItems([]) + "]" + rest) == Some((JArray([]), rest))
  {
    var t := "[" + StringifyItems([]) + "]" + rest;
    assert t[1..] == "]" + rest;
    assert SkipWs(t[1..]) == "]" + rest;
    assert ("]" + rest)[1..] == rest;
  }

  lemma ArrayReads(items: seq<Json>, rest: string)
    requires items != [] && ParseItems(StringifyItems(items) + "]" + rest) == Some((items, rest))
    ensures ParseArray("[" + StringifyItems(items) + "]" + rest) == Some((JArray(items), rest))
  {
    var u := StringifyItems(items) + "]" + rest;
    OpenTail('[', StringifyItems(items), "]", rest);
    assert u[0] == StringifyItems(items)[0];
    assert SkipWs(u) == u;
  }

  /** Dropping the opening bracket of a text leaves what follows it. */
  lemma OpenTail(open: char, a: string, b: string, c: string)
    ensures ([open] + a + b + c)[1..] == a + b + c
  {
  }

  lemma {:induction false} ObjectRoundTrip(ms: seq<(string, Json)>, rest: string)
    ensures ParseObject("{" + StringifyMembers(ms) + "}" + rest) == Some((JObject(ms), rest))
    decreases ms, 3
  {
    if ms == [] {
      EmptyObjectReads(rest);
    } else {
      MembersRoundTrip(ms, rest);
      ObjectReads(ms, rest);
    }
  }

  lemma EmptyObjectReads(rest: string)
    ensures ParseObject("{" + StringifyMembers([]) + "}" + rest) == Some((JObject([]), rest))
  {
    var t := "{" + StringifyMembers([]) + "}" + rest;
    assert t[1..] == "}" + rest;
    assert SkipWs(t[1..]) == "}" + rest;
    assert ("}" + rest)[1..] == rest;
  }

  lemma ObjectReads(ms: seq<(string, Json)>, rest: string)
    requires ms != [] && ParseMembers(StringifyMembers(ms) + "}" + rest) == Some((ms, rest))
    ensures ParseObject("{" + StringifyMembers(ms) + "}" + rest) == Some((JObject(ms), rest))
  {
    var u := StringifyMembers(ms) + "}" + rest;
    OpenTail('{', StringifyMembers(ms), "}", rest);
    assert u[0] == StringifyMembers(ms)[0];
    assert SkipWs(u) == u;
  }

  lemma ItemsStep(t: string, j: Json, rest: string)
    requires ParseValue(t) == Some((j, rest))
    ensures ParseItems(t) == ItemsAfter(j, rest)
  {
  }

  lemma ItemsClose(j: Json, rest: string)
    ensures ItemsAfter(j, "]" + rest) == Some(([j], rest))
  {
    assert SkipWs("]" + rest) == "]" + rest;
    assert ("]" + rest)[1..] == rest;
  }

  lemma ItemsComma(j: Json, after: string, more: seq<Json>, rest: string)
    requires ParseItems(after) == Some((more, rest))
    ensures ItemsAfter(j, "," + after) == Some(([j] + more, rest))
  {
    assert SkipWs("," + after) == "," + after;
    assert ("," + after)[1..] == after;
  }

  lemma ItemsOne(item: Json, rest: string)
    ensures ParseItems(Stringify(item) + ("]" + rest)) == Some(([item], rest))
    decreases item, 3
  {
    ValueRoundTrip(item, "]" + rest);
    ItemsStep(Stringify(item) + ("]" + rest), item, "]" + rest);
    ItemsClose(item, rest);
  }

  lemma ItemsCons(item: Json, after: string, more: seq<Json>, rest: string)
    requires ParseItems(after) == Some((more, rest))
    ensures ParseItems(Stringify(item) + ("," + after)) == Some(([item] + more, rest))
    decreases item, 3
  {
    ValueRoundTrip(item, "," + after);
    ItemsStep(Stringify(item) + ("," + after), item, "," + after);
    ItemsComma(item, after, more, rest);
  }

  lemma Regroup(a: string, b: string, c: string, d: string, e: string)
    ensures a + b + c + d + e == a + (b + (c + d + e))
  {
  }

  lemma {:induction false} ItemsRoundTrip(items: seq<Json>, rest: string)
    requires items != []
    ensures ParseItems(StringifyItems(items) + "]" + rest) == Some((items, rest))
    decreases items, 2
  {
    if |items| == 1 {
      ItemsSingle(items, rest);
    } else {
      ItemsRoundTrip(items[1..], rest);
      ItemsFirst(items, rest);
    }
  }

  lemma ItemsSingle(items: seq<Json>, rest: string)
    requires |items| == 1
    ensures ParseItems(StringifyItems(items) + "]" + rest) == Some((items, rest))
    decreases items, 1
  {
    assert StringifyItems(items) + "]" + rest == Stringify(items[0]) + ("]" + rest);
    ItemsOne(items[0], rest);
    assert [items[0]] == items;
  }

  lemma ItemsFirst(items: seq<Json>, rest: string)
    requires |items| >= 2
    requires ParseItems(StringifyItems(items[1..]) + "]" + rest) == Some((items[1..], rest))
    ensures ParseItems(StringifyItems(items) + "]" + rest) == Some((items, rest))
    decreases items, 1
  {
    var after := StringifyItems(items[1..]) + "]" + rest;
    Regroup(Stringify(items[0]), ",", StringifyItems(items[1..]), "]", rest);
    ItemsCons(items[0], after, items[1..], rest);
    assert [items[0]] + items[1..] == items;
  }

  lemma MembersStep(t: string, key: string, afterKey: string)
    requires t != [] && t[0] == '\"' && ParseStringBody(t[1..]) == Some((key, afterKey))
    ensures ParseMembers(t) == MemberValue(key, afterKey)
  {
    assert SkipWs(t) == t;
  }

  lemma MemberValueStep(key: string, c: string, v: Json, rest: string)
    requires ParseValue(c) == Some((v, rest))
    ensures MemberValue(key, ":" + c) == MembersAfter(key, v, rest)
  {
    assert SkipWs(":" + c) == ":" + c;
    assert (":" + c)[1..] == c;
  }

  lemma MembersClose(key: string, v: Json, rest: string)
    ensures MembersAfter(key, v, "}" + rest) == Some(([(key, v)], rest))
  {
    assert SkipWs("}" + rest) == "}" + rest;
    assert ("}" + rest)[1..] == rest;
  }

  lemma MembersComma(key: string, v: Json, after: string, more: seq<(string, Json)>, rest: string)
    requires ParseMembers(after) == Some((more, rest))
    ensures MembersAfter(key, v, "," + after) == Some(([(key, v)] + more, rest))
  {
    assert SkipWs("," + after) == "," + after;
    assert ("," + after)[1..] == after;
  }

  /** A member followed by `tail` reads as the member, then whatever `tail` makes of the rest. */
  lemma MemberReads(key: string, v: Json, tail: string)
    ensures ParseMembers(Quote(key) + ":" + Stringify(v) + tail) == MembersAfter(key, v, tail)
    decreases v, 3
  {
    var c := Stringify(v) + tail;
    assert Quote(key) + ":" + Stringify(v) + tail == Quote(key) + (":" + c);
    KeyReads(key, ":" + c);
    ValueRoundTrip(v, tail);
    MemberValueStep(key, c, v, tail);
  }

  /** A quoted key starts a member: what follows it is read as the member's value. */
  lemma KeyReads(key: string, c: string)
    ensures ParseMembers(Quote(key) + c) == MemberValue(key, c)
  {
    var t := Quote(key) + c;
    QuoteReads(key, c);
    MembersStep(t, key, c);
  }

  lemma MembersOne(ms: seq<(string, Json)>, rest: string)
    requires |ms| == 1
    ensures ParseMembers(StringifyMembers(ms) + "}" + rest) == Some((ms, rest))
    decreases ms, 1
  {
    assert ms[0].1 < ms[0];
    var (key, v) := ms[0];
    var first := Quote(key) + ":" + Stringify(v);
    assert StringifyMembers(ms) + "}" + rest == first + ("}" + rest);
    MemberReads(key, v, "}" + rest);
    MembersClose(key, v, rest);
    assert [(key, v)] == ms;
  }

  lemma MembersCons(ms: seq<(string, Json)>, rest: string)
    requires |ms| >= 2
    requires ParseMembers(StringifyMembers(ms[1..]) + "}" + rest) == Some((ms[1..], rest))
    ensures ParseMembers(StringifyMembers(ms) + "}" + rest) == Some((ms, rest))
    decreases ms, 1
  {
    assert ms[0].1 < ms[0];
    var (key, v) := ms[0];
    var first := Quote(key) + ":" + Stringify(v);
    var after := StringifyMembers(ms[1..]) + "}" + rest;
    Regroup(first, ",", StringifyMembers(ms[1..]), "}", rest);
    MemberReads(key, v, "," + after);
    MembersComma(key, v, after, ms[1..], rest);
    assert [(key, v)] + ms[1..] == ms;
  }

  lemma {:induction false} MembersRoundTrip(ms: seq<(string, Json)>, rest: string)
    requires ms != []
    ensures ParseMembers(StringifyMembers(ms) + "}" + rest) == Some((ms, rest))
    decreases ms, 2
  {
    if |ms| == 1 {
      MembersOne(ms, rest);
    } else {
      MembersRoundTrip(ms[1..], rest);
      MembersCons(ms, rest);
    }
  }

  /** `JSON.parse(JSON.stringify(j))` gives back `j`. */
  lemma ParseStringify(j: Json)
    ensures Parse(Stringify(j)) == Some(j)
  {
    ValueRoundTrip(j, []);
    assert Stringify(j) + [] == Stringify(j);
  }
}
