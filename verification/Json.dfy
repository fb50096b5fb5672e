/**
 * JSON values and their text form (RFC 8259) as encoding/json reads and writes them:
 * numbers are kept as text, object members are printed in key order, and the characters
 * that encoding/json escapes for HTML are escaped here too.
 */
module Json {
  import opened Wrappers
  import Text

  // ---------- Number tokens (section 6 of RFC 8259) ----------

  predicate IsDigit(c: char) { '0' <= c <= '9' }

  predicate IsNumeralChar(c: char) {
    IsDigit(c) || c == '-' || c == '+' || c == '.' || c == 'e' || c == 'E'
  }

  function SkipDigits(s: string): string {
    if s != "" && IsDigit(s[0]) then SkipDigits(s[1..]) else s
  }

  predicate IsExponent(s: string) {
    s == "" ||
    ((s[0] == 'e' || s[0] == 'E') &&
     var t := if |s| > 1 && (s[1] == '+' || s[1] == '-') then s[2..] else s[1..];
     t != "" && SkipDigits(t) == "")
  }

  predicate IsFraction(s: string) {
    if s != "" && s[0] == '.' then |s| > 1 && IsDigit(s[1]) && IsExponent(SkipDigits(s[1..]))
    else IsExponent(s)
  }

  predicate IsNumeral(s: string) {
    var t := if s != "" && s[0] == '-' then s[1..] else s;
    t != "" && IsDigit(t[0]) && IsFraction(if t[0] == '0' then t[1..] else SkipDigits(t))
  }

  type Numeral = s: string | IsNumeral(s) witness "0"

  // ---------- Values ----------

  datatype Value =
    | Null
    | Bool(bit: bool)
    | Number(token: Numeral)
    | String(text: string)
    | Array(items: seq<Value>)
    | Object(fields: Fields)

  type Fields = map<string, Value>

  /** Reading a Go map: an absent key gives the nil interface value. */
  function Get(fields: Fields, key: string): Value {
    if key in fields then fields[key] else Null
  }

  // ---------- Printing ----------

  function HexDigit(n: nat): char
    requires n < 16
  {
    "0123456789abcdef"[n]
  }

  function Escape(c: char): string {
    var x := c as int;
    if c == '"' then "\\\""
    else if c == '\\' then "\\\\"
    else if x == 8 then "\\b"
    else if x == 12 then "\\f"
    else if x == 10 then "\\n"
    else if x == 13 then "\\r"
    else if x == 9 then "\\t"
    else if x < 0x20 || c == '<' || c == '>' || c == '&' then "\\u00" + [HexDigit(x / 16), HexDigit(x % 16)]
    else if x == 0x2028 then "\\u2028"
    else if x == 0x2029 then "\\u2029"
    else [c]
  }

  function EscapeAll(s: string): string {
    if s == "" then "" else Escape(s[0]) + EscapeAll(s[1..])
  }

  function Quote(s: string): string {
    "\"" + EscapeAll(s) + "\""
  }

  function KeyOrder(fields: Fields): seq<string> {
    Text.Sorted(fields.Keys, (key: string) => 0)
  }

  /** json.Marshal. */
  function Print(v: Value): string
    decreases v, 1, 0
  {
    match v
    case Null => "null"
    case Bool(bit) => if bit then "true" else "false"
    case Number(token) => token
    case String(text) => Quote(text)
    case Array(items) => "[" + PrintItems(v, 0) + "]"
    case Object(fields) => "{" + PrintMembers(v, KeyOrder(fields)) + "}"
  }

  function PrintItems(v: Value, i: nat): string
    requires v.Array? && i <= |v.items|
    decreases v, 0, |v.items| - i
  {
    if i == |v.items| then ""
    else if i + 1 == |v.items| then Print(v.items[i])
    else Print(v.items[i]) + "," + PrintItems(v, i + 1)
  }

  function PrintMember(v: Value, key: string): string
    requires v.Object? && key in v.fields
    decreases v, 0, 0
  {
    Quote(key) + ":" + Print(v.fields[key])
  }

  function PrintMembers(v: Value, keys: seq<string>): string
    requires v.Object? && forall k | k in keys :: k in v.fields
    decreases v, 0, |keys|
  {
    if keys == [] then ""
    else if |keys| == 1 then PrintMember(v, keys[0])
    else PrintMember(v, keys[0]) + "," + PrintMembers(v, keys[1..])
  }

  // ---------- Parsing ----------

  datatype Parsed<+T> = Parsed(value: T, rest: string)

  predicate IsBlank(c: char) { c == ' ' || c == '\t' || c == '\n' || c == '\r' }

  function SkipBlank(s: string): (r: string)
    ensures |r| <= |s|
  {
    if s != "" && IsBlank(s[0]) then SkipBlank(s[1..]) else s
  }

  function HexValue(c: char): (r: Option<nat>)
    ensures r.Some? ==> r.value < 16
  {
    if '0' <= c <= '9' then Some((c as int) - 0x30)
    else if 'a' <= c <= 'f' then Some((c as int) - 0x61 + 10)
    else if 'A' <= c <= 'F' then Some((c as int) - 0x41 + 10)
    else None
  }

  function Hex4(s: string): (r: Option<nat>)
    ensures r.Some? ==> r.value < 0x10000 && |s| >= 4
  {
    if |s| < 4 then None
    else match (HexValue(s[0]), HexValue(s[1]), HexValue(s[2]), HexValue(s[3]))
      case (Some(a), Some(b), Some(c), Some(d)) => Some(a * 4096 + b * 256 + c * 16 + d)
      case _ => None
  }

  const REPLACEMENT: char := 0xFFFD as char

  /** The character after a backslash-u: a lone surrogate reads as U+FFFD, a pair as one character. */
  function ParseUnicode(s: string): (r: Option<Parsed<char>>)
    ensures r.Some? ==> |r.value.rest| < |s|
  {
    match Hex4(s)
    case None => None
    case Some(x) =>
      if x < 0xD800 || 0xE000 <= x then Some(Parsed(x as char, s[4..]))
      else if x < 0xDC00 && |s| >= 10 && s[4] == '\\' && s[5] == 'u' && Hex4(s[6..]).Some? &&
              0xDC00 <= Hex4(s[6..]).value < 0xE000 then
        Some(Parsed((0x10000 + (x - 0xD800) * 0x400 + (Hex4(s[6..]).value - 0xDC00)) as char, s[10..]))
      else Some(Parsed(REPLACEMENT, s[4..]))
  }

  function ParseEscape(s: string): (r: Option<Parsed<char>>)
    ensures r.Some? ==> |r.value.rest| < |s|
  {
    if s == "" then None
    else if s[0] == '"' || s[0] == '\\' || s[0] == '/' then Some(Parsed(s[0], s[1..]))
    else if s[0] == 'b' then Some(Parsed(8 as char, s[1..]))
    else if s[0] == 'f' then Some(Parsed(12 as char, s[1..]))
    else if s[0] == 'n' then Some(Parsed(10 as char, s[1..]))
    else if s[0] == 'r' then Some(Parsed(13 as char, s[1..]))
    else if s[0] == 't' then Some(Parsed(9 as char, s[1..]))
    else if s[0] == 'u' then ParseUnicode(s[1..])
    else None
  }

  /** What follows an opening quote, up to and including the closing one. */
  function ParseString(s: string): (r: Option<Parsed<string>>)
    ensures r.Some? ==> |r.value.rest| < |s|
    decreases |s|
  {
    if s == "" || (s[0] as int) < 0x20 then None
    else if s[0] == '"' then Some(Parsed("", s[1..]))
    else
      var first := if s[0] == '\\' then ParseEscape(s[1..]) else Some(Parsed(s[0], s[1..]));
      match first
      case None => None
      case Some(Parsed(c, rest)) =>
        match ParseString(rest)
        case None => None
        case Some(Parsed(text, after)) => Some(Parsed([c] + text, after))
  }

  function NumeralRun(s: string): (n: nat)
    ensures n <= |s|
  {
    if s != "" && IsNumeralChar(s[0]) then 1 + NumeralRun(s[1..]) else 0
  }

  function ParseNumber(s: string): (r: Option<Parsed<Value>>)
    ensures r.Some? ==> |r.value.rest| < |s|
  {
    var n := NumeralRun(s);
    if IsNumeral(s[..n]) then Some(Parsed(Number(s[..n]), s[n..])) else None
  }

  function ParseValue(s: string): (r: Option<Parsed<Value>>)
    ensures r.Some? ==> |r.value.rest| < |s|
    decreases |s|, 0
  {
    var t := SkipBlank(s);
    if t == "" then None
    else if t[0] == '"' then
      match ParseString(t[1..])
      case None => None
      case Some(Parsed(text, rest)) => Some(Parsed(String(text), rest))
    else if t[0] == '[' then
      var u := SkipBlank(t[1..]);
      if u != "" && u[0] == ']' then Some(Parsed(Array([]), u[1..]))
      else match ParseItems(t[1..])
        case None => None
        case Some(Parsed(items, rest)) => Some(Parsed(Array(items), rest))
    else if t[0] == '{' then
      var u := SkipBlank(t[1..]);
      if u != "" && u[0] == '}' then Some(Parsed(Object(map[]), u[1..]))
      else match ParseMembers(t[1..])
        case None => None
        case Some(Parsed(members, rest)) => Some(Parsed(Object(MembersOf(members)), rest))
    else if "null" <= t then Some(Parsed(Null, t[4..]))
    else if "true" <= t then Some(Parsed(Bool(true), t[4..]))
    else if "false" <= t then Some(Parsed(Bool(false), t[5..]))
    else ParseNumber(t)
  }

  function ParseItems(s: string): (r: Option<Parsed<seq<Value>>>)
    ensures r.Some? ==> |r.value.rest| < |s|
    decreases |s|, 1
  {
    match ParseValue(s)
    case None => None
    case Some(Parsed(item, rest)) =>
      var t := SkipBlank(rest);
      if t == "" then None
      else if t[0] == ']' then Some(Parsed([item], t[1..]))
      else if t[0] == ',' then
        match ParseItems(t[1..])
        case None => None
        case Some(Parsed(items, after)) => Some(Parsed([item] + items, after))
      else None
  }

  function ParseMembers(s: string): (r: Option<Parsed<seq<(string, Value)>>>)
    ensures r.Some? ==> |r.value.rest| < |s|
    decreases |s|, 1
  {
    match ParseMember(s)
    case None => None
    case Some(Parsed(member, rest)) =>
      var t := SkipBlank(rest);
      if t == "" then None
      else if t[0] == '}' then Some(Parsed([member], t[1..]))
      else if t[0] == ',' then
        match ParseMembers(t[1..])
        case None => None
        case Some(Parsed(members, after)) => Some(Parsed([member] + members, after))
      else None
  }

  function ParseMember(s: string): (r: Option<Parsed<(string, Value)>>)
    ensures r.Some? ==> |r.value.rest| < |s|
    decreases |s|, 0
  {
    var t := SkipBlank(s);
    if t == "" || t[0] != '"' then None
    else match ParseString(t[1..])
      case None => None
      case Some(Parsed(key, rest)) =>
        var u := SkipBlank(rest);
        if u == "" || u[0] != ':' then None
        else match ParseValue(u[1..])
          case None => None
          case Some(Parsed(item, after)) => Some(Parsed((key, item), after))
  }

  /** Members in reading order: a repeated key keeps its last value. */
  function MembersOf(members: seq<(string, Value)>): Fields {
    if members == [] then map[]
    else MembersOf(members[..|members| - 1])[members[|members| - 1].0 := members[|members| - 1].1]
  }

  /** decodeJSON with UseNumber: one value, then nothing but white space. */
  function Parse(s: string): Option<Value> {
    match ParseValue(s)
    case Some(Parsed(v, rest)) => if SkipBlank(rest) == "" then Some(v) else None
    case None => None
  }

  /** Decoding into a Go map: JSON null leaves it nil, and any other non-object is an error. */
  function ParseObject(s: string): Option<Fields> {
    match Parse(s)
    case Some(Object(fields)) => Some(fields)
    case _ => None
  }

  // ---------- Round trip ----------

  /** What may follow a number without being read as part of it. */
  predicate Stops(rest: string) { rest == "" || !IsNumeralChar(rest[0]) }

  lemma {:induction false} SkipDigitsSplits(s: string)
    ensures exists k: nat :: k <= |s| && SkipDigits(s) == s[k..] && forall i | 0 <= i < k :: IsDigit(s[i])
  {
    if s != "" && IsDigit(s[0]) {
      SkipDigitsSplits(s[1..]);
      var k: nat :| k <= |s[1..]| && SkipDigits(s[1..]) == s[1..][k..] && forall i | 0 <= i < k :: IsDigit(s[1..][i]);
      assert SkipDigits(s) == s[k + 1..];
      forall i | 0 <= i < k + 1 ensures IsDigit(s[i]) { if i > 0 { assert s[i] == s[1..][i - 1]; } }
    } else {
      assert SkipDigits(s) == s[0..];
    }
  }

  ghost predicate AllNumeral(s: string) { forall i | 0 <= i < |s| :: IsNumeralChar(s[i]) }

  lemma AfterDigits(s: string)
    requires AllNumeral(SkipDigits(s))
    ensures AllNumeral(s)
  {
    SkipDigitsSplits(s);
    var k: nat :| k <= |s| && SkipDigits(s) == s[k..] && forall i | 0 <= i < k :: IsDigit(s[i]);
    forall i | 0 <= i < |s| ensures IsNumeralChar(s[i]) { if i >= k { assert s[i] == s[k..][i - k]; } }
  }

  lemma Prepend(c: char, s: string)
    requires s != "" && IsNumeralChar(s[0]) && AllNumeral(s[1..])
    ensures AllNumeral(s)
  {
    forall i | 0 <= i < |s| ensures IsNumeralChar(s[i]) { if i > 0 { assert s[i] == s[1..][i - 1]; } }
  }

  lemma NumeralChars(s: string)
    requires IsNumeral(s)
    ensures s != "" && (IsDigit(s[0]) || s[0] == '-') && AllNumeral(s)
  {
    var t := if s[0] == '-' then s[1..] else s;
    var f := if t[0] == '0' then t[1..] else SkipDigits(t);
    var e := if f != "" && f[0] == '.' then SkipDigits(f[1..]) else f;
    if e != "" {
      var d := if |e| > 1 && (e[1] == '+' || e[1] == '-') then e[2..] else e[1..];
      AfterDigits(d);
      if |e| > 1 && (e[1] == '+' || e[1] == '-') {
        assert e[1..][1..] == e[2..];
        Prepend(e[1], e[1..]);
      }
      Prepend(e[0], e);
    }
    if f != "" && f[0] == '.' { AfterDigits(f[1..]); Prepend(f[0], f); }
    if t[0] == '0' { Prepend(t[0], t); } else { AfterDigits(t); }
    if s[0] == '-' { Prepend(s[0], s); }
  }

  lemma {:induction false} RunStops(s: string, rest: string)
    requires AllNumeral(s) && Stops(rest)
    ensures NumeralRun(s + rest) == |s|
  {
    if s == "" {
      assert s + rest == rest;
    } else {
      assert (s + rest)[1..] == s[1..] + rest;
      RunStops(s[1..], rest);
    }
  }

  lemma EscapeParses(c: char, rest: string)
    ensures Escape(c) != "" && (Escape(c)[0] as int) >= 0x20 && Escape(c)[0] != '"'
    ensures (if Escape(c)[0] == '\\' then ParseEscape((Escape(c) + rest)[1..])
             else Some(Parsed(Escape(c)[0], (Escape(c) + rest)[1..]))) == Some(Parsed(c, rest))
  {
    var x := c as int;
    var e := Escape(c);
    if |e| == 1 {
      assert (e + rest)[1..] == rest;
    } else if |e| == 2 {
      assert (e + rest)[1..] == [e[1]] + rest;
      assert ([e[1]] + rest)[1..] == rest;
    } else {
      UnicodeParses(c, rest);
    }
  }

  lemma EscapeDigits(c: char) returns (p: char, q: char, m: char, n: char)
    requires |Escape(c)| == 6
    ensures Escape(c) == ['\\', 'u', p, q, m, n]
    ensures HexValue(p).Some? && HexValue(q).Some? && HexValue(m).Some? && HexValue(n).Some?
    ensures HexValue(p).value * 4096 + HexValue(q).value * 256 + HexValue(m).value * 16 + HexValue(n).value == c as int
  {
    var e := Escape(c);
    p, q, m, n := e[2], e[3], e[4], e[5];
    if (c as int) < 0x80 { assert m == HexDigit((c as int) / 16) && n == HexDigit((c as int) % 16); }
  }

  lemma UnicodeParses(c: char, rest: string)
    requires |Escape(c)| == 6
    ensures Escape(c)[0] == '\\' && ParseEscape((Escape(c) + rest)[1..]) == Some(Parsed(c, rest))
  {
    var p, q, m, n := EscapeDigits(c);
    var t := (Escape(c) + rest)[1..];
    FourDigits(p, q, m, n, rest);
    assert t[0] == 'u' && t[1..] == [p, q, m, n] + rest && t[1..][4..] == rest;
  }

  lemma FourDigits(a: char, b: char, c: char, d: char, rest: string)
    requires HexValue(a).Some? && HexValue(b).Some? && HexValue(c).Some? && HexValue(d).Some?
    ensures Hex4([a, b, c, d] + rest)
            == Some(HexValue(a).value * 4096 + HexValue(b).value * 256 + HexValue(c).value * 16 + HexValue(d).value)
  {}

  lemma {:induction false} StringRoundTrip(s: string, rest: string)
    ensures ParseString(EscapeAll(s) + "\"" + rest) == Some(Parsed(s, rest))
  {
    if s == "" {
      assert EscapeAll(s) + "\"" + rest == "\"" + rest;
      assert ("\"" + rest)[1..] == rest;
    } else {
      var tail := EscapeAll(s[1..]) + "\"" + rest;
      var text := EscapeAll(s) + "\"" + rest;
      assert text == Escape(s[0]) + tail;
      EscapeParses(s[0], tail);
      StringRoundTrip(s[1..], rest);
      assert text[1..] == (Escape(s[0]) + tail)[1..];
      assert s == [s[0]] + s[1..];
    }
  }

  lemma QuoteRoundTrip(s: string, rest: string)
    ensures var t := Quote(s) + rest; t[0] == '"' && ParseString(t[1..]) == Some(Parsed(s, rest))
  {
    assert (Quote(s) + rest)[1..] == EscapeAll(s) + "\"" + rest;
    StringRoundTrip(s, rest);
  }

  /** A printed value starts with a character that no bracket or separator can be mistaken for. */
  lemma PrintHead(v: Value)
    ensures var p := Print(v); p != "" && !IsBlank(p[0]) && p[0] != ']' && p[0] != '}'
  {
    if v.Number? { NumeralChars(v.token); }
  }

  lemma PrintTrimmed(v: Value)
    ensures Text.Trimmed(Print(v))
  {
    var p := Print(v);
    if v.Number? {
      NumeralChars(v.token);
      assert IsNumeralChar(p[0]) && IsNumeralChar(p[|p| - 1]);
    }
  }

  lemma ArrayParses(body: string, items: seq<Value>, rest: string)
    requires body != "" && !IsBlank(body[0]) && body[0] != ']'
    requires ParseItems(body) == Some(Parsed(items, rest))
    ensures ParseValue("[" + body) == Some(Parsed(Array(items), rest))
  {
    var s := "[" + body;
    assert s[1..] == body && SkipBlank(s) == s && SkipBlank(body) == body;
  }

  lemma ObjectParses(body: string, members: seq<(string, Value)>, rest: string)
    requires body != "" && body[0] == '"'
    requires ParseMembers(body) == Some(Parsed(members, rest))
    ensures ParseValue("{" + body) == Some(Parsed(Object(MembersOf(members)), rest))
  {
    var s := "{" + body;
    assert s[1..] == body && SkipBlank(s) == s && SkipBlank(body) == body;
  }

  lemma EmptyParses(rest: string)
    ensures ParseValue("[]" + rest) == Some(Parsed(Array([]), rest))
    ensures ParseValue("{}" + rest) == Some(Parsed(Object(map[]), rest))
  {
    assert ("[]" + rest)[1..] == "]" + rest && ("]" + rest)[1..] == rest;
    assert ("{}" + rest)[1..] == "}" + rest && ("}" + rest)[1..] == rest;
  }

  lemma NumberParses(token: Numeral, rest: string)
    requires Stops(rest)
    ensures ParseValue(token + rest) == Some(Parsed(Number(token), rest))
  {
    NumeralChars(token);
    RunStops(token, rest);
    var s := token + rest;
    assert SkipBlank(s) == s && s[..|token|] == token && s[|token|..] == rest;
  }

  lemma StringParses(text: string, rest: string)
    ensures ParseValue(Quote(text) + rest) == Some(Parsed(String(text), rest))
  {
    QuoteRoundTrip(text, rest);
  }

  lemma {:induction false} ValueRoundTrip(v: Value, rest: string)
    requires Stops(rest)
    ensures ParseValue(Print(v) + rest) == Some(Parsed(v, rest))
    decreases v, 1, 1
  {
    match v
    case Null =>
    case Bool(bit) =>
    case Number(token) => NumberParses(token, rest);
    case String(text) => StringParses(text, rest);
    case Array(items) => ArrayRoundTrip(v, rest);
    case Object(fields) => ObjectRoundTrip(v, rest);
  }

  lemma {:induction false} ArrayRoundTrip(v: Value, rest: string)
    requires v.Array?
    ensures ParseValue(Print(v) + rest) == Some(Parsed(v, rest))
    decreases v, 1, 0
  {
    if v.items == [] {
      EmptyParses(rest);
    } else {
      var body := PrintItems(v, 0) + "]" + rest;
      assert Print(v) + rest == "[" + body;
      PrintHead(v.items[0]);
      assert body[0] == Print(v.items[0])[0];
      ItemsRoundTrip(v, 0, rest);
      assert v.items[0..] == v.items;
      ArrayParses(body, v.items, rest);
    }
  }

  lemma ObjectText(v: Value, rest: string) returns (body: string)
    requires v.Object?
    ensures Print(v) + rest == "{" + body
    ensures body == PrintMembers(v, KeyOrder(v.fields)) + "}" + rest
  {
    body := PrintMembers(v, KeyOrder(v.fields)) + "}" + rest;
    Regroup("{", PrintMembers(v, KeyOrder(v.fields)), "}", rest);
  }

  lemma NoKeys(fields: Fields)
    requires KeyOrder(fields) == []
    ensures fields == map[]
  {
    assert fields.Keys == {};
  }

  lemma {:induction false} ObjectRoundTrip(v: Value, rest: string)
    requires v.Object?
    ensures ParseValue(Print(v) + rest) == Some(Parsed(v, rest))
    decreases v, 1, 0
  {
    var keys := KeyOrder(v.fields);
    if keys == [] {
      NoKeys(v.fields);
      EmptyParses(rest);
    } else {
      var body := ObjectText(v, rest);
      MembersRoundTrip(v, keys, rest);
      ObjectParses(body, Pairs(v.fields, keys), rest);
      MembersOfPairs(v.fields, keys);
    }
  }

  lemma LastItem(s: string, item: Value, rest: string)
    requires ParseValue(s) == Some(Parsed(item, "]" + rest))
    ensures ParseItems(s) == Some(Parsed([item], rest))
  {
    assert ("]" + rest)[1..] == rest;
  }

  lemma MoreItems(s: string, item: Value, next: string, items: seq<Value>, rest: string)
    requires ParseValue(s) == Some(Parsed(item, "," + next))
    requires ParseItems(next) == Some(Parsed(items, rest))
    ensures ParseItems(s) == Some(Parsed([item] + items, rest))
  {
    assert ("," + next)[1..] == next;
  }

  lemma Regroup(a: string, m: string, c: string, d: string)
    ensures a + m + c + d == a + (m + c + d)
  {}

  lemma RegroupMore(a: string, b: string, m: string, c: string, d: string)
    ensures a + b + m + c + d == a + (b + (m + c + d))
  {}

  lemma ItemsText(v: Value, i: nat, rest: string)
    requires v.Array? && i < |v.items|
    ensures i + 1 == |v.items| ==> PrintItems(v, i) + "]" + rest == Print(v.items[i]) + ("]" + rest)
    ensures i + 1 < |v.items| ==>
              PrintItems(v, i) + "]" + rest == Print(v.items[i]) + ("," + (PrintItems(v, i + 1) + "]" + rest))
  {
    var item := Print(v.items[i]);
    if i + 1 == |v.items| {
    } else {
      RegroupMore(item, ",", PrintItems(v, i + 1), "]", rest);
    }
  }

  lemma LastOf<T>(xs: seq<T>, i: nat)
    requires i + 1 == |xs|
    ensures xs[i..] == [xs[i]]
  {}

  lemma FirstOf<T>(xs: seq<T>, i: nat)
    requires i < |xs|
    ensures xs[i..] == [xs[i]] + xs[i + 1..]
  {}

  lemma {:induction false} ItemsRoundTrip(v: Value, i: nat, rest: string)
    requires v.Array? && i < |v.items|
    ensures ParseItems(PrintItems(v, i) + "]" + rest) == Some(Parsed(v.items[i..], rest))
    decreases v, 0, |v.items| - i
  {
    var item := v.items[i];
    ItemsText(v, i, rest);
    if i + 1 == |v.items| {
      ValueRoundTrip(item, "]" + rest);
      LastItem(Print(item) + ("]" + rest), item, rest);
      LastOf(v.items, i);
    } else {
      var next := PrintItems(v, i + 1) + "]" + rest;
      ValueRoundTrip(item, "," + next);
      ItemsRoundTrip(v, i + 1, rest);
      MoreItems(Print(item) + ("," + next), item, next, v.items[i + 1..], rest);
      FirstOf(v.items, i);
    }
  }

  lemma {:induction false} MemberRoundTrip(v: Value, key: string, rest: string)
    requires v.Object? && key in v.fields && Stops(rest)
    ensures ParseMember(PrintMember(v, key) + rest) == Some(Parsed((key, v.fields[key]), rest))
    decreases v, 0, 0
  {
    var s := PrintMember(v, key) + rest;
    var after := ":" + (Print(v.fields[key]) + rest);
    assert s == Quote(key) + after;
    assert SkipBlank(s) == s;
    QuoteRoundTrip(key, after);
    assert SkipBlank(after) == after && after[1..] == Print(v.fields[key]) + rest;
    ValueRoundTrip(v.fields[key], rest);
  }

  function Pairs(fields: Fields, keys: seq<string>): seq<(string, Value)>
    requires forall k | k in keys :: k in fields
  {
    seq(|keys|, i requires 0 <= i < |keys| => (keys[i], fields[keys[i]]))
  }

  lemma LastMember(s: string, member: (string, Value), rest: string)
    requires ParseMember(s) == Some(Parsed(member, "}" + rest))
    ensures ParseMembers(s) == Some(Parsed([member], rest))
  {
    assert ("}" + rest)[1..] == rest;
  }

  lemma MoreMembers(s: string, member: (string, Value), next: string, members: seq<(string, Value)>, rest: string)
    requires ParseMember(s) == Some(Parsed(member, "," + next))
    requires ParseMembers(next) == Some(Parsed(members, rest))
    ensures ParseMembers(s) == Some(Parsed([member] + members, rest))
  {
    assert ("," + next)[1..] == next;
  }

  lemma MembersText(v: Value, keys: seq<string>, rest: string)
    requires v.Object? && keys != [] && forall k | k in keys :: k in v.fields
    ensures |keys| == 1 ==> PrintMembers(v, keys) + "}" + rest == PrintMember(v, keys[0]) + ("}" + rest)
    ensures |keys| > 1 ==>
              PrintMembers(v, keys) + "}" + rest == PrintMember(v, keys[0]) + ("," + (PrintMembers(v, keys[1..]) + "}" + rest))
  {
    var member := PrintMember(v, keys[0]);
    if |keys| == 1 {
    } else {
      RegroupMore(member, ",", PrintMembers(v, keys[1..]), "}", rest);
    }
  }

  lemma {:induction false} MembersRoundTrip(v: Value, keys: seq<string>, rest: string)
    requires v.Object? && keys != [] && forall k | k in keys :: k in v.fields
    ensures ParseMembers(PrintMembers(v, keys) + "}" + rest) == Some(Parsed(Pairs(v.fields, keys), rest))
    decreases v, 0, |keys|
  {
    var s := PrintMembers(v, keys) + "}" + rest;
    var member := (keys[0], v.fields[keys[0]]);
    MembersText(v, keys, rest);
    if |keys| == 1 {
      MemberRoundTrip(v, keys[0], "}" + rest);
      LastMember(s, member, rest);
      assert Pairs(v.fields, keys) == [member];
    } else {
      var next := PrintMembers(v, keys[1..]) + "}" + rest;
      MemberRoundTrip(v, keys[0], "," + next);
      MembersRoundTrip(v, keys[1..], rest);
      MoreMembers(s, member, next, Pairs(v.fields, keys[1..]), rest);
      assert Pairs(v.fields, keys) == [member] + Pairs(v.fields, keys[1..]);
    }
  }

  lemma {:induction false} MembersOfPrefix(fields: Fields, keys: seq<string>)
    requires forall k | k in keys :: k in fields
    ensures MembersOf(Pairs(fields, keys)) == map k | k in keys :: fields[k]
  {
    if keys != [] {
      var n := |keys| - 1;
      MembersOfPrefix(fields, keys[..n]);
      assert Pairs(fields, keys)[..n] == Pairs(fields, keys[..n]);
      assert forall k :: k in keys <==> k in keys[..n] || k == keys[n];
    }
  }

  lemma MembersOfPairs(fields: Fields, keys: seq<string>)
    requires forall k :: k in keys <==> k in fields
    ensures MembersOf(Pairs(fields, keys)) == fields
  {
    MembersOfPrefix(fields, keys);
  }

  /** Decoding what was encoded gives the value back: cloneJSONMap is the identity on such values. */
  lemma RoundTrip(v: Value)
    ensures Parse(Print(v)) == Some(v)
  {
    assert Print(v) + "" == Print(v);
    ValueRoundTrip(v, "");
  }

  lemma PrintInjective(v: Value, w: Value)
    requires Print(v) == Print(w)
    ensures v == w
  {
    RoundTrip(v);
    RoundTrip(w);
  }
}
