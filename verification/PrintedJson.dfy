/** What the JSON texts written here look like: no character that needs care in HTML, and keys in ascending order. */
module PrintedJson {
  import opened Json
  import Text

  /** Characters that a text may hold as they are, outside quotes. */
  predicate IsSafe(c: char) {
    (c as int) >= 0x20 && c != '<' && c != '>' && c != '&' && (c as int) != 0x2028 && (c as int) != 0x2029
  }

  ghost predicate AllSafe(s: string) {
    forall c | c in s :: IsSafe(c)
  }

  lemma SafeJoin(a: string, b: string)
    requires AllSafe(a) && AllSafe(b)
    ensures AllSafe(a + b)
  {}

  lemma EscapeSafe(c: char)
    ensures AllSafe(Escape(c)) && (IsSafe(c) && c != '"' && c != '\\' ==> Escape(c) == [c])
  {}

  lemma {:induction false} EscapeAllSafe(s: string)
    ensures AllSafe(EscapeAll(s))
    ensures AllSafe(s) && '"' !in s && '\\' !in s ==> EscapeAll(s) == s
  {
    if s != "" {
      EscapeSafe(s[0]);
      EscapeAllSafe(s[1..]);
      SafeJoin(Escape(s[0]), EscapeAll(s[1..]));
      assert s == [s[0]] + s[1..];
      assert forall c | c in s[1..] :: c in s;
    }
  }

  /** A text without special characters stands in quotes as it is. */
  lemma PlainQuote(s: string)
    ensures AllSafe(Quote(s)) && (AllSafe(s) && '"' !in s && '\\' !in s ==> Quote(s) == "\"" + s + "\"")
  {
    EscapeAllSafe(s);
    SafeJoin("\"", EscapeAll(s));
    SafeJoin("\"" + EscapeAll(s), "\"");
  }

  lemma NumeralSafe(token: Numeral)
    ensures AllSafe(token)
  {
    NumeralChars(token);
    forall c | c in token ensures IsSafe(c) { var i :| 0 <= i < |token| && token[i] == c; }
  }

  lemma {:induction false} PrintSafe(v: Value)
    ensures AllSafe(Print(v))
    decreases v, 1, 0
  {
    match v
    case Null =>
    case Bool(_) =>
    case Number(token) => NumeralSafe(token);
    case String(text) => PlainQuote(text);
    case Array(_) => ItemsSafe(v, 0); SafeJoin("[", PrintItems(v, 0)); SafeJoin("[" + PrintItems(v, 0), "]");
    case Object(fields) =>
      var members := PrintMembers(v, KeyOrder(fields));
      MembersSafe(v, KeyOrder(fields));
      SafeJoin("{", members);
      SafeJoin("{" + members, "}");
  }

  lemma {:induction false} ItemsSafe(v: Value, i: nat)
    requires v.Array? && i <= |v.items|
    ensures AllSafe(PrintItems(v, i))
    decreases v, 0, |v.items| - i
  {
    if i < |v.items| {
      PrintSafe(v.items[i]);
      ItemsSafe(v, i + 1);
      SafeJoin(Print(v.items[i]), ",");
      SafeJoin(Print(v.items[i]) + ",", PrintItems(v, i + 1));
    }
  }

  lemma {:induction false} MembersSafe(v: Value, keys: seq<string>)
    requires v.Object? && forall k | k in keys :: k in v.fields
    ensures AllSafe(PrintMembers(v, keys))
    decreases v, 0, |keys|
  {
    if keys != [] {
      var first := PrintMember(v, keys[0]);
      PlainQuote(keys[0]);
      PrintSafe(v.fields[keys[0]]);
      SafeJoin(Quote(keys[0]), ":");
      SafeJoin(Quote(keys[0]) + ":", Print(v.fields[keys[0]]));
      MembersSafe(v, keys[1..]);
      SafeJoin(first, ",");
      SafeJoin(first + ",", PrintMembers(v, keys[1..]));
    }
  }

  /** The members of an object are written once each, by ascending key. */
  lemma KeysAscend(fields: Fields)
    ensures forall key :: key in KeyOrder(fields) <==> key in fields
    ensures forall i, j | 0 <= i < j < |KeyOrder(fields)| :: Text.Below(KeyOrder(fields)[i], KeyOrder(fields)[j])
  {
    assert Text.SortedBy((key: string) => 0, KeyOrder(fields));
  }
}
