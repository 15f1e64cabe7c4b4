/**
 * JSON values as JavaScript holds them after `JSON.parse`, and `JSON.stringify`.
 * Objects keep their members in insertion order, as JavaScript objects do.
 */
module Json {
  import opened Wrappers
  import opened Strings

  datatype Json =
    | JNull
    | JBool(b: bool)
    | JNumber(n: int)
    | JString(s: string)
    | JArray(items: seq<Json>)
    | JObject(members: seq<Member>)

  datatype Member = Member(key: string, value: Json)

  /** JavaScript truthiness of a value (`if (v)`, `v || w`). */
  predicate Truthy(j: Json) {
    match j
    case JNull => false
    case JBool(b) => b
    case JNumber(n) => n != 0
    case JString(s) => s != ""
    case _ => true
  }

  /** `typeof v === 'object' && v !== null`: arrays count as objects too. */
  predicate IsObjectLike(j: Json) {
    j.JArray? || j.JObject?
  }

  // ---------------------------------------------------------------------------
  // Object members
  // ---------------------------------------------------------------------------

  /** `Object.keys(obj)` */
  function Keys(ms: seq<Member>): (r: seq<string>)
    ensures |r| == |ms|
  {
    if ms == [] then [] else [ms[0].key] + Keys(ms[1..])
  }

  /** `obj[k]`: the value of the first member named `k`, if any. */
  function Get(ms: seq<Member>, k: string): (r: Option<Json>)
    ensures r.Some? <==> k in Keys(ms)
    ensures r.Some? ==> exists i :: 0 <= i < |ms| && ms[i] == Member(k, r.value)
  {
    if ms == [] then None
    else if ms[0].key == k then Some(ms[0].value)
    else
      var r := Get(ms[1..], k);
      assert Keys(ms) == [ms[0].key] + Keys(ms[1..]);
      assert r.Some? ==> exists i :: 0 <= i < |ms[1..]| && ms[1..][i] == Member(k, r.value);
      r
  }

  lemma GetCons(m: Member, rest: seq<Member>, k: string)
    ensures Get([m] + rest, k) == if m.key == k then Some(m.value) else Get(rest, k)
    ensures Keys([m] + rest) == [m.key] + Keys(rest)
  {
    assert ([m] + rest)[1..] == rest;
  }

  /** `obj[k] = v`: overwrites the first member named `k` in place, or appends one. */
  function Set(ms: seq<Member>, k: string, v: Json): (r: seq<Member>)
    ensures Get(r, k) == Some(v)
    ensures forall k' :: k' != k ==> Get(r, k') == Get(ms, k')
    ensures k in Keys(ms) ==> Keys(r) == Keys(ms)
    ensures k !in Keys(ms) ==> Keys(r) == Keys(ms) + [k]
  {
    if ms == [] then [Member(k, v)]
    else if ms[0].key == k then
      SetFirst(ms, k, v);
      [Member(k, v)] + ms[1..]
    else
      var tail := Set(ms[1..], k, v);
      SetLater(ms, k, v, tail);
      [ms[0]] + tail
  }

  /** Overwriting the first member keeps the order of the keys. */
  lemma SetFirst(ms: seq<Member>, k: string, v: Json)
    requires ms != [] && ms[0].key == k
    ensures var r := [Member(k, v)] + ms[1..];
            && Get(r, k) == Some(v)
            && (forall k' :: k' != k ==> Get(r, k') == Get(ms, k'))
            && Keys(r) == Keys(ms)
  {
    assert ms == [ms[0]] + ms[1..];
    GetCons(ms[0], ms[1..], k);
    GetCons(Member(k, v), ms[1..], k);
    forall k' | k' != k ensures Get([Member(k, v)] + ms[1..], k') == Get(ms, k') {
      GetCons(ms[0], ms[1..], k');
      GetCons(Member(k, v), ms[1..], k');
    }
  }

  /** Setting a key past the first member leaves the first member in front. */
  lemma SetLater(ms: seq<Member>, k: string, v: Json, tail: seq<Member>)
    requires ms != [] && ms[0].key != k
    requires Get(tail, k) == Some(v)
    requires forall k' :: k' != k ==> Get(tail, k') == Get(ms[1..], k')
    requires k in Keys(ms[1..]) ==> Keys(tail) == Keys(ms[1..])
    requires k !in Keys(ms[1..]) ==> Keys(tail) == Keys(ms[1..]) + [k]
    ensures var r := [ms[0]] + tail;
            && Get(r, k) == Some(v)
            && (forall k' :: k' != k ==> Get(r, k') == Get(ms, k'))
            && (k in Keys(ms) ==> Keys(r) == Keys(ms))
            && (k !in Keys(ms) ==> Keys(r) == Keys(ms) + [k])
  {
    assert ms == [ms[0]] + ms[1..];
    GetCons(ms[0], ms[1..], k);
    GetCons(ms[0], tail, k);
    forall k' | k' != k ensures Get([ms[0]] + tail, k') == Get(ms, k') {
      GetCons(ms[0], ms[1..], k');
      GetCons(ms[0], tail, k');
    }
    AppendAssoc([ms[0].key], Keys(ms[1..]), [k]);
  }

  /** Setting a key the first member does not carry leaves that member first. */
  lemma SetCons(ms: seq<Member>, k: string, v: Json)
    requires |ms| > 0 && ms[0].key != k
    ensures Set(ms, k, v) == [ms[0]] + Set(ms[1..], k, v)
  {
  }

  /** `delete obj[k]`: removes every member named `k` and keeps the others in order. */
  function Delete(ms: seq<Member>, k: string): (r: seq<Member>)
    ensures k !in Keys(r)
    ensures forall k' :: k' != k ==> Get(r, k') == Get(ms, k')
    ensures k !in Keys(ms) ==> r == ms
    ensures forall i :: 0 <= i < |r| ==> r[i] in ms
  {
    if ms == [] then []
    else
      var rest := Delete(ms[1..], k);
      assert Keys(ms) == [ms[0].key] + Keys(ms[1..]);
      if ms[0].key == k then rest
      else
        var r := [ms[0]] + rest;
        assert Keys(r) == [ms[0].key] + Keys(rest);
        assert r[1..] == rest;
        r
  }

  // ---------------------------------------------------------------------------
  // JSON.stringify
  // ---------------------------------------------------------------------------

  const Hex := "0123456789abcdef"

  /** The escape `JSON.stringify` writes for one character of a string. */
  function EscapeChar(c: char): string {
    if c == '"' then "\\\""
    else if c == '\\' then "\\\\"
    else if c == '\U{0008}' then "\\b"
    else if c == '\U{000C}' then "\\f"
    else if c == '\n' then "\\n"
    else if c == '\r' then "\\r"
    else if c == '\t' then "\\t"
    else if c < ' ' then
      var v := c as int;
      ['\\', 'u', '0', '0', Hex[v / 16], Hex[v % 16]]
    else [c]
  }

  function Escape(s: string): string {
    if s == [] then "" else EscapeChar(s[0]) + Escape(s[1..])
  }

  /** A JSON string literal. */
  function Quote(s: string): string {
    "\"" + Escape(s) + "\""
  }

  function NumberText(n: int): string {
    if n < 0 then "-" + NatToString(-n) else NatToString(n)
  }

  /** `JSON.stringify(j)`: compact, no white space between tokens. */
  function Stringify(j: Json): string {
    match j
    case JNull => "null"
    case JBool(b) => if b then "true" else "false"
    case JNumber(n) => NumberText(n)
    case JString(s) => Quote(s)
    case JArray(items) =>
      "[" + Join(seq(|items|, i requires 0 <= i < |items| => Stringify(items[i])), ",") + "]"
    case JObject(ms) =>
      "{" + Join(seq(|ms|, i requires 0 <= i < |ms| => Quote(ms[i].key) + ":" + Stringify(ms[i].value)), ",") + "}"
  }

  /** A character `JSON.stringify` copies into a string literal as it is. */
  predicate PlainChar(c: char) {
    c >= ' ' && c != '"' && c != '\\'
  }

  /** Escaping works character by character, so it distributes over concatenation. */
  lemma {:induction false} EscapeAppend(a: string, b: string)
    ensures Escape(a + b) == Escape(a) + Escape(b)
  {
    if a == [] {
      assert a + b == b;
    } else {
      assert (a + b)[0] == a[0];
      assert (a + b)[1..] == a[1..] + b;
      EscapeAppend(a[1..], b);
    }
  }

  /** A string of plain characters is written unchanged. */
  lemma {:induction false} EscapePlain(s: string)
    requires forall i :: 0 <= i < |s| ==> PlainChar(s[i])
    ensures Escape(s) == s
  {
    if s != [] {
      EscapePlain(s[1..]);
    }
  }

  /** A string `JSON.stringify` quotes without escaping anything. */
  predicate PlainString(s: string) {
    forall i :: 0 <= i < |s| ==> PlainChar(s[i])
  }

  lemma QuotePlain(s: string)
    requires PlainString(s)
    ensures Quote(s) == "\"" + s + "\""
  {
    EscapePlain(s);
  }

  lemma StringifySingleMember(k: string, v: Json)
    ensures Stringify(JObject([Member(k, v)])) == "{" + Quote(k) + ":" + Stringify(v) + "}"
  {
    var ms := [Member(k, v)];
    var parts := seq(|ms|, i requires 0 <= i < |ms| => Quote(ms[i].key) + ":" + Stringify(ms[i].value));
    assert parts == [Quote(k) + ":" + Stringify(v)];
  }

  /** A one-member object of plain strings is written `{"k":"v"}`, with no white space. */
  lemma StringifyPlainMember(k: string, v: string)
    requires PlainString(k) && PlainString(v)
    ensures Stringify(JObject([Member(k, JString(v))])) == "{\"" + k + "\":\"" + v + "\"}"
  {
    QuotePlain(k);
    QuotePlain(v);
    StringifySingleMember(k, JString(v));
  }

  /** A newline or tab inside a string is written as the two characters `\n` or `\t`. */
  lemma EscapeLineBreakAndTab(a: string, b: string)
    ensures Escape(a + "\n" + b) == Escape(a) + "\\n" + Escape(b)
    ensures Escape(a + "\t" + b) == Escape(a) + "\\t" + Escape(b)
  {
    EscapeAround(a, '\n', b);
    EscapeAround(a, '\t', b);
  }

  /** One character inside a string is escaped on its own. */
  lemma EscapeAround(a: string, c: char, b: string)
    ensures Escape(a + [c] + b) == Escape(a) + EscapeChar(c) + Escape(b)
  {
    EscapeAppend(a + [c], b);
    EscapeAppend(a, [c]);
    assert Escape([c]) == EscapeChar(c) + Escape([]);
  }

  // ---------------------------------------------------------------------------
  // Reading an escaped string body back
  // ---------------------------------------------------------------------------

  function HexValue(c: char): Option<nat> {
    if '0' <= c <= '9' then Some(c as int - '0' as int)
    else if 'a' <= c <= 'f' then Some(c as int - 'a' as int + 10)
    else if 'A' <= c <= 'F' then Some(c as int - 'A' as int + 10)
    else None
  }

  /** The character a two-character escape `\e` stands for. */
  function ShortEscape(e: char): Option<char> {
    if e == '"' then Some('"') else if e == '\\' then Some('\\') else if e == '/' then Some('/')
    else if e == 'b' then Some('\U{0008}') else if e == 'f' then Some('\U{000C}')
    else if e == 'n' then Some('\n') else if e == 'r' then Some('\r') else if e == 't' then Some('\t')
    else None
  }

  /** The body of a JSON string literal, decoded; `None` when it is not well-formed. */
  function Unescape(t: string): Option<string>
    decreases |t|
  {
    if t == [] then Some("")
    else if t[0] == '"' || t[0] < ' ' then None
    else if t[0] != '\\' then
      match Unescape(t[1..])
      case Some(rest) => Some([t[0]] + rest)
      case None => None
    else if |t| < 2 then None
    else
      var e := t[1];
      var simple := ShortEscape(e);
      if simple.Some? then
        match Unescape(t[2..])
        case Some(rest) => Some([simple.value] + rest)
        case None => None
      else if e == 'u' && |t| >= 6 then
        var h0, h1, h2, h3 := HexValue(t[2]), HexValue(t[3]), HexValue(t[4]), HexValue(t[5]);
        if h0.Some? && h1.Some? && h2.Some? && h3.Some? then
          var v := ((h0.value * 16 + h1.value) * 16 + h2.value) * 16 + h3.value;
          if v < 0xD800 then
            match Unescape(t[6..])
            case Some(rest) => Some([v as char] + rest)
            case None => None
          else None
        else None
      else None
  }

  lemma HexDigits(v: nat)
    requires v < 256
    ensures HexValue(Hex[v / 16]) == Some(v / 16) && HexValue(Hex[v % 16]) == Some(v % 16)
  {
    HexDigit(v / 16);
    HexDigit(v % 16);
  }

  /** Each digit `JSON.stringify` writes reads back as its value. */
  lemma HexDigit(d: nat)
    requires d < 16
    ensures HexValue(Hex[d]) == Some(d)
  {
  }

  /** A `\u` escape of four digits is read as the character they spell. */
  lemma UnescapeUnicode(t: string, v: nat)
    requires v < 256 && |t| >= 6 && t[0] == '\\' && t[1] == 'u'
    requires HexValue(t[2]) == Some(0) && HexValue(t[3]) == Some(0)
    requires HexValue(t[4]) == Some(v / 16) && HexValue(t[5]) == Some(v % 16)
    ensures Unescape(t) == (match Unescape(t[6..]) case Some(r) => Some([v as char] + r) case None => None)
  {
    assert ShortEscape('u') == None;
    assert ((0 * 16 + 0) * 16 + v / 16) * 16 + v % 16 == v;
  }

  /** A control character without a short escape is written `\\u00XX` and read back. */
  lemma UnescapeControl(c: char, rest: string)
    requires c < ' ' && c != '\U{0008}' && c != '\U{000C}' && c != '\n' && c != '\r' && c != '\t'
    ensures Unescape(EscapeChar(c) + rest)
         == (match Unescape(rest) case Some(r) => Some([c] + r) case None => None)
  {
    var v := c as int;
    var t := EscapeChar(c) + rest;
    HexDigits(v);
    assert t[0] == '\\' && t[1] == 'u' && t[2] == '0' && t[3] == '0';
    assert t[4] == Hex[v / 16] && t[5] == Hex[v % 16];
    assert t[6..] == rest;
    UnescapeUnicode(t, v);
  }

  /** A character with a two-character escape is read back from it. */
  lemma UnescapeShort(c: char, rest: string)
    requires |EscapeChar(c)| == 2
    ensures Unescape(EscapeChar(c) + rest)
         == (match Unescape(rest) case Some(r) => Some([c] + r) case None => None)
  {
    var t := EscapeChar(c) + rest;
    ShortEscapeOf(c);
    assert t[0] == '\\' && t[1] == EscapeChar(c)[1];
    assert t[2..] == rest;
  }

  lemma ShortEscapeOf(c: char)
    requires |EscapeChar(c)| == 2
    ensures EscapeChar(c)[0] == '\\' && ShortEscape(EscapeChar(c)[1]) == Some(c)
  {
  }

  lemma UnescapeChar(c: char, rest: string)
    ensures Unescape(EscapeChar(c) + rest)
         == (match Unescape(rest) case Some(r) => Some([c] + r) case None => None)
  {
    var t := EscapeChar(c) + rest;
    if c < ' ' && c != '\U{0008}' && c != '\U{000C}' && c != '\n' && c != '\r' && c != '\t' {
      UnescapeControl(c, rest);
    } else if |EscapeChar(c)| == 2 {
      UnescapeShort(c, rest);
    } else {
      assert t[1..] == rest;
    }
  }

  /** Reading back what `JSON.stringify` wrote for a string gives the string. */
  lemma {:induction false} EscapeRoundTrip(s: string)
    ensures Unescape(Escape(s)) == Some(s)
  {
    if s != [] {
      EscapeRoundTrip(s[1..]);
      UnescapeChar(s[0], Escape(s[1..]));
      assert [s[0]] + s[1..] == s;
    }
  }

  // ---------------------------------------------------------------------------
  // No raw control characters in serialised JSON
  // ---------------------------------------------------------------------------

  /** No character below U+0020, so in particular no raw newline or tab. */
  predicate Printable(s: string) {
    forall k :: 0 <= k < |s| ==> s[k] >= ' '
  }

  lemma PrintableConcat(a: string, b: string)
    requires Printable(a) && Printable(b)
    ensures Printable(a + b)
  {
    forall k | 0 <= k < |a + b| ensures (a + b)[k] >= ' ' {
      if k >= |a| { assert (a + b)[k] == b[k - |a|]; }
    }
  }

  lemma {:induction false} PrintableJoin(parts: seq<string>, sep: string)
    requires forall i :: 0 <= i < |parts| ==> Printable(parts[i])
    requires Printable(sep)
    ensures Printable(Join(parts, sep))
  {
    if |parts| > 1 {
      PrintableJoin(parts[..|parts| - 1], sep);
      PrintableConcat(Join(parts[..|parts| - 1], sep), sep);
      PrintableConcat(Join(parts[..|parts| - 1], sep) + sep, parts[|parts| - 1]);
    }
  }

  /** The escape of one character is printable: control characters become `\\u00XX`. */
  lemma EscapeCharPrintable(c: char)
    ensures Printable(EscapeChar(c))
  {
    var e := EscapeChar(c);
    if c < ' ' && c != '\U{0008}' && c != '\U{000C}' && c != '\n' && c != '\r' && c != '\t' {
      var v := c as int;
      assert Hex[v / 16] >= ' ' && Hex[v % 16] >= ' ';
      assert e == ['\\', 'u', '0', '0', Hex[v / 16], Hex[v % 16]];
    }
  }

  lemma {:induction false} EscapePrintable(s: string)
    ensures Printable(Escape(s))
  {
    if s != [] {
      EscapePrintable(s[1..]);
      EscapeCharPrintable(s[0]);
      PrintableConcat(EscapeChar(s[0]), Escape(s[1..]));
    }
  }

  lemma QuotePrintable(s: string)
    ensures Printable(Quote(s))
  {
    EscapePrintable(s);
    PrintableConcat("\"", Escape(s));
    PrintableConcat("\"" + Escape(s), "\"");
  }

  /** `JSON.stringify` escapes every control character, so its output has no raw newline or tab. */
  lemma {:induction false} StringifyPrintable(j: Json)
    ensures Printable(Stringify(j))
  {
    match j
    case JNull =>
    case JBool(b) =>
    case JNumber(n) =>
      PrintableConcat("-", NatToString(if n < 0 then -n else n));
    case JString(s) =>
      QuotePrintable(s);
    case JArray(items) =>
      var parts := seq(|items|, i requires 0 <= i < |items| => Stringify(items[i]));
      forall i | 0 <= i < |items| ensures Printable(parts[i]) {
        StringifyPrintable(items[i]);
      }
      PrintableJoin(parts, ",");
      PrintableConcat("[", Join(parts, ","));
      PrintableConcat("[" + Join(parts, ","), "]");
    case JObject(ms) =>
      var parts := seq(|ms|, i requires 0 <= i < |ms| => Quote(ms[i].key) + ":" + Stringify(ms[i].value));
      forall i | 0 <= i < |ms| ensures Printable(parts[i]) {
        QuotePrintable(ms[i].key);
        StringifyPrintable(ms[i].value);
        PrintableConcat(Quote(ms[i].key), ":");
        PrintableConcat(Quote(ms[i].key) + ":", Stringify(ms[i].value));
      }
      PrintableJoin(parts, ",");
      PrintableConcat("{", Join(parts, ","));
      PrintableConcat("{" + Join(parts, ","), "}");
  }
}
