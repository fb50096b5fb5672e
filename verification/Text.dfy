/** Strings as the Go standard library treats them: trimming, UTF-8 length, code point order. */
module Text {

  /** The code points with the Unicode White_Space property. */
  predicate IsSpace(c: char) {
    var x := c as int;
    || 0x09 <= x <= 0x0D
    || x == 0x20 || x == 0x85 || x == 0xA0 || x == 0x1680
    || 0x2000 <= x <= 0x200A
    || x == 0x2028 || x == 0x2029 || x == 0x202F || x == 0x205F || x == 0x3000
  }

  function TrimLeft(s: string): (r: string)
    ensures r == "" || !IsSpace(r[0])
    ensures |r| <= |s|
    ensures s != "" && !IsSpace(s[|s| - 1]) ==> r != "" && r[|r| - 1] == s[|s| - 1]
  {
    if s != "" && IsSpace(s[0]) then TrimLeft(s[1..]) else s
  }

  function TrimRight(s: string): (r: string)
    ensures r == "" || !IsSpace(r[|r| - 1])
    ensures |r| <= |s|
    ensures s != "" && !IsSpace(s[0]) ==> r != "" && r[0] == s[0]
  {
    if s != "" && IsSpace(s[|s| - 1]) then TrimRight(s[..|s| - 1]) else s
  }

  /** strings.TrimSpace: what is left has no white space at either end. */
  function Trim(s: string): (r: string)
    ensures Trimmed(r)
    ensures Trimmed(s) ==> r == s
  {
    TrimRight(TrimLeft(s))
  }

  predicate Trimmed(s: string) {
    s == "" || (!IsSpace(s[0]) && !IsSpace(s[|s| - 1]))
  }

  function Utf8Width(c: char): nat {
    var x := c as int;
    if x < 0x80 then 1 else if x < 0x800 then 2 else if x < 0x10000 then 3 else 4
  }

  /** Go's len of a string: the number of bytes of its UTF-8 form. */
  function Utf8Len(s: string): nat {
    if s == "" then 0 else Utf8Width(s[0]) + Utf8Len(s[1..])
  }

  function TrimPrefix(s: string, prefix: string): string {
    if prefix <= s then s[|prefix|..] else s
  }

  /** Strict code point order, which is also the byte order of the UTF-8 forms. */
  predicate Below(a: string, b: string) {
    if b == "" then false
    else if a == "" then true
    else if a[0] != b[0] then a[0] < b[0]
    else Below(a[1..], b[1..])
  }

  lemma {:induction false} BelowTotal(a: string, b: string)
    ensures a != b ==> Below(a, b) || Below(b, a)
    ensures !(Below(a, b) && Below(b, a))
  {
    if a != "" && b != "" && a[0] == b[0] {
      assert a == [a[0]] + a[1..] && b == [b[0]] + b[1..];
      BelowTotal(a[1..], b[1..]);
    }
  }

  lemma {:induction false} BelowTransitive(a: string, b: string, c: string)
    requires Below(a, b) && Below(b, c)
    ensures Below(a, c)
  {
    if a != "" && a[0] == b[0] && b[0] == c[0] {
      BelowTransitive(a[1..], b[1..], c[1..]);
    }
  }

  /** Order by rank first and by the string itself among equal ranks. */
  predicate Before(rank: string -> int, a: string, b: string) {
    rank(a) < rank(b) || (rank(a) == rank(b) && Below(a, b))
  }

  predicate IsFirst(rank: string -> int, x: string, xs: set<string>) {
    x in xs && forall y | y in xs && y != x :: Before(rank, x, y)
  }

  lemma {:induction false} FirstExists(xs: set<string>, rank: string -> int) returns (x: string)
    requires xs != {}
    ensures IsFirst(rank, x, xs)
  {
    var y :| y in xs;
    if xs == {y} {
      x := y;
    } else {
      var z := FirstExists(xs - {y}, rank);
      BelowTotal(y, z);
      x := if Before(rank, y, z) then y else z;
      forall w | w in xs && w != x ensures Before(rank, x, w) {
        if x == y && w != z {
          assert Before(rank, z, w);
          if rank(y) == rank(z) == rank(w) { BelowTransitive(y, z, w); }
        } else if x == z && w != y {
          assert Before(rank, z, w);
        }
      }
    }
  }

  lemma FirstIsUnique(xs: set<string>, rank: string -> int)
    requires xs != {}
    ensures exists x :: x in xs && IsFirst(rank, x, xs)
    ensures forall x, y | IsFirst(rank, x, xs) && IsFirst(rank, y, xs) :: x == y
  {
    var _ := FirstExists(xs, rank);
    forall x, y | IsFirst(rank, x, xs) && IsFirst(rank, y, xs) ensures x == y {
      BelowTotal(x, y);
    }
  }

  ghost predicate SortedBy(rank: string -> int, xs: seq<string>) {
    forall i, j | 0 <= i < j < |xs| :: Before(rank, xs[i], xs[j])
  }

  ghost predicate Distinct<T>(xs: seq<T>) {
    forall i, j | 0 <= i < j < |xs| :: xs[i] != xs[j]
  }

  lemma SortedCons(x: string, xs: set<string>, rest: seq<string>, rank: string -> int)
    requires IsFirst(rank, x, xs) && Distinct(rest) && SortedBy(rank, rest)
    requires forall y :: y in rest <==> y in xs - {x}
    ensures Distinct([x] + rest) && SortedBy(rank, [x] + rest)
    ensures forall y :: y in [x] + rest <==> y in xs
  {
    var all := [x] + rest;
    forall i, j | 0 <= i < j < |all| ensures all[i] != all[j] && Before(rank, all[i], all[j]) {
      assert all[j] == rest[j - 1] && rest[j - 1] in rest;
      if i > 0 { assert all[i] == rest[i - 1]; }
    }
  }

  /** sort.Slice on distinct strings: the one ascending enumeration of the set. */
  function Sorted(xs: set<string>, rank: string -> int): (r: seq<string>)
    ensures forall x :: x in r <==> x in xs
    ensures Distinct(r) && |r| == |xs|
    ensures SortedBy(rank, r)
    decreases |xs|
  {
    if xs == {} then [] else
      FirstIsUnique(xs, rank);
      var x :| x in xs && IsFirst(rank, x, xs);
      var rest := Sorted(xs - {x}, rank);
      SortedCons(x, xs, rest, rank);
      [x] + rest
  }
}
