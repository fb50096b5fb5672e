/** What trimming, lower case, string order, quoting and the comparison of branches and commits amount to. */
module Spelling {
  import opened Wrappers
  import opened Text
  import Json
  import Workspace
  import CodingService

  // ---------- Trimming ----------

  ghost predicate AllSpace(s: string) {
    forall c | c in s :: IsSpace(c)
  }

  lemma {:induction false} LeftTrimmed(s: string) returns (a: string)
    ensures s == a + TrimLeft(s) && AllSpace(a)
  {
    if s != "" && IsSpace(s[0]) {
      var rest := LeftTrimmed(s[1..]);
      a := [s[0]] + rest;
    } else {
      a := "";
    }
  }

  lemma {:induction false} RightTrimmed(s: string) returns (b: string)
    ensures s == TrimRight(s) + b && AllSpace(b)
  {
    if s != "" && IsSpace(s[|s| - 1]) {
      var rest := RightTrimmed(s[..|s| - 1]);
      b := rest + [s[|s| - 1]];
    } else {
      b := "";
    }
  }

  lemma {:induction false} LeftIgnores(a: string, s: string)
    requires AllSpace(a) && (s == "" || !IsSpace(s[0]))
    ensures TrimLeft(a + s) == s
  {
    if a != "" {
      assert (a + s)[0] == a[0] && (a + s)[1..] == a[1..] + s;
      LeftIgnores(a[1..], s);
    } else {
      assert a + s == s;
    }
  }

  lemma {:induction false} RightIgnores(s: string, b: string)
    requires AllSpace(b) && (s == "" || !IsSpace(s[|s| - 1]))
    ensures TrimRight(s + b) == s
    decreases |b|
  {
    if b != "" {
      var n := |b| - 1;
      assert (s + b)[..|s + b| - 1] == s + b[..n] && (s + b)[|s + b| - 1] == b[n];
      RightIgnores(s, b[..n]);
    } else {
      assert s + b == s;
    }
  }

  lemma {:induction false} SpaceOnly(s: string)
    requires AllSpace(s)
    ensures TrimLeft(s) == ""
  {
    if s != "" { SpaceOnly(s[1..]); }
  }

  /** Trimming takes away white space at both ends and nothing else, and it takes away all of it. */
  lemma TrimIff(s: string, t: string)
    ensures Trim(s) == t <==> Trimmed(t) && exists a, b :: s == a + t + b && AllSpace(a) && AllSpace(b)
  {
    var a := LeftTrimmed(s);
    var b := RightTrimmed(TrimLeft(s));
    assert s == a + Trim(s) + b;
    forall x, y | s == x + t + y && AllSpace(x) && AllSpace(y) && Trimmed(t) ensures Trim(s) == t {
      TrimmedBetween(x, t, y);
    }
  }

  lemma TrimmedBetween(a: string, t: string, b: string)
    requires Trimmed(t) && AllSpace(a) && AllSpace(b)
    ensures Trim(a + t + b) == t
  {
    if t == "" {
      SpaceOnly(a + t + b);
    } else {
      assert a + t + b == a + (t + b) && (t + b)[0] == t[0];
      LeftIgnores(a, t + b);
      RightIgnores(t, b);
    }
  }

  // ---------- Lower case, commits and branches ----------

  function LowerChar(c: char): char {
    if 'A' <= c <= 'Z' then ((c as int) + 32) as char else c
  }

  lemma {:induction false} LowerAt(s: string)
    ensures |Workspace.Lower(s)| == |s| && forall i | 0 <= i < |s| :: Workspace.Lower(s)[i] == LowerChar(s[i])
  {
    if s != "" { LowerAt(s[1..]); }
  }

  /** The same digits, whichever letters are capital. */
  ghost predicate SameIgnoringCase(a: string, b: string) {
    |a| == |b| && forall i | 0 <= i < |a| :: LowerChar(a[i]) == LowerChar(b[i])
  }

  lemma LowerIff(a: string, b: string)
    ensures Workspace.Lower(a) == Workspace.Lower(b) <==> SameIgnoringCase(a, b)
  {
    LowerAt(a);
    LowerAt(b);
  }

  /** The expected commit of a resumed session is met when none is given, or the same one up to case. */
  lemma SameCommitIff(expected: string, commit: string)
    ensures CodingService.SameCommit(expected, commit) <==> Trim(expected) == "" || SameIgnoringCase(Trim(expected), commit)
  {
    LowerIff(Trim(expected), commit);
  }

  /** A full commit name stays one in lower case, which has no capitals left. */
  lemma LowerCommit(s: string)
    requires Workspace.FullCommit(s)
    ensures Workspace.FullCommit(Workspace.Lower(s)) && Workspace.Lower(Workspace.Lower(s)) == Workspace.Lower(s)
    ensures forall c | c in Workspace.Lower(s) :: !('A' <= c <= 'Z')
  {
    var lower := Workspace.Lower(s);
    LowerAt(s);
    LowerAt(lower);
    forall i | 0 <= i < |lower| ensures Workspace.IsHex(lower[i]) && Workspace.Lower(lower)[i] == lower[i] {
      assert Workspace.IsHex(s[i]) by { assert s[i] in s; }
    }
  }

  /** The text names the branch, on its own or in full. */
  ghost predicate Names(s: string, branch: string) {
    Trim(s) == "refs/heads/" + branch || (Trim(s) == branch && !("refs/heads/" <= branch))
  }

  lemma NamesOne(s: string, branch: string)
    ensures Names(s, branch) <==> TrimPrefix(Trim(s), Workspace.HEADS_PREFIX) == branch
                                  && (Trim(s) == branch ==> !("refs/heads/" <= branch))
  {
    if "refs/heads/" <= Trim(s) {
      assert Trim(s) == "refs/heads/" + Trim(s)[|"refs/heads/"|..];
    }
  }

  /** Two targets are the same exactly when they name the same branch. */
  lemma SameTargetIff(left: string, right: string)
    ensures CodingService.SameTargetRef(left, right) <==> exists branch :: Names(left, branch) && Names(right, branch)
  {
    var branch := TrimPrefix(Trim(left), Workspace.HEADS_PREFIX);
    NamesItself(left);
    NamesItself(right);
    forall other | Names(left, other) && Names(right, other) ensures CodingService.SameTargetRef(left, right) {
      NamesOne(left, other);
      NamesOne(right, other);
    }
  }

  lemma NamesItself(s: string)
    ensures Names(s, TrimPrefix(Trim(s), Workspace.HEADS_PREFIX))
  {
    if "refs/heads/" <= Trim(s) {
      assert Trim(s) == "refs/heads/" + Trim(s)[|"refs/heads/"|..];
    }
  }

  // ---------- The order of keys ----------

  /** At the first place where they differ, a has the lower code point or has ended. */
  ghost predicate LowerAtFirst(a: string, b: string, i: nat) {
    && i <= |a| && i < |b| && a[..i] == b[..i]
    && (i == |a| || a[i] < b[i])
  }

  lemma BelowCons(a: string, b: string, i: nat)
    requires a != "" && b != "" && a[0] == b[0]
    ensures i > 0 ==> (LowerAtFirst(a, b, i) <==> LowerAtFirst(a[1..], b[1..], i - 1))
    ensures !LowerAtFirst(a, b, 0)
  {
    if 0 < i <= |a| && i <= |b| {
      assert a[..i] == [a[0]] + a[1..][..i - 1] && b[..i] == [b[0]] + b[1..][..i - 1];
      assert a[1..][..i - 1] == a[..i][1..] && b[1..][..i - 1] == b[..i][1..];
    }
  }

  lemma {:induction false} BelowIff(a: string, b: string)
    ensures Below(a, b) <==> exists i: nat :: LowerAtFirst(a, b, i)
  {
    if a == "" || b == "" || a[0] != b[0] {
      assert b != "" && (a == "" || a[0] < b[0]) ==> LowerAtFirst(a, b, 0);
      forall i: nat | LowerAtFirst(a, b, i) ensures Below(a, b) {
        if i > 0 { assert a[..i][0] == b[..i][0]; }
      }
    } else {
      BelowIff(a[1..], b[1..]);
      forall i: nat | LowerAtFirst(a[1..], b[1..], i) ensures LowerAtFirst(a, b, i + 1) { BelowCons(a, b, i + 1); }
      forall i: nat | LowerAtFirst(a, b, i) ensures i > 0 && LowerAtFirst(a[1..], b[1..], i - 1) { BelowCons(a, b, i); }
    }
  }

  // ---------- UTF-8 (section 3 of RFC 3629) ----------

  /** One byte carries 7 bits, two carry 11, three 16 and four 21; each character takes the fewest that carry it. */
  lemma WidthIff(c: char)
    ensures 1 <= Utf8Width(c) <= 4 && Utf8Len([c]) == Utf8Width(c)
    ensures Utf8Width(c) <= 1 <==> (c as int) < 128
    ensures Utf8Width(c) <= 2 <==> (c as int) < 16 * 128
    ensures Utf8Width(c) <= 3 <==> (c as int) < 16 * 64 * 64
  {}

  lemma {:induction false} LenJoins(a: string, b: string)
    ensures Utf8Len(a + b) == Utf8Len(a) + Utf8Len(b)
  {
    if a == "" {
      assert a + b == b;
    } else {
      assert (a + b)[0] == a[0] && (a + b)[1..] == a[1..] + b;
      LenJoins(a[1..], b);
    }
  }
}
