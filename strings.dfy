/**
 * The Python `str` operations the formatter and the matcher are built from:
 * `in`, `startswith`, `endswith`, `replace`, `split`, `join` and `strip`,
 * each with the semantics CPython gives it.
 */
module Strings {

  predicate StartsWith(s: string, prefix: string) {
    |prefix| <= |s| && s[..|prefix|] == prefix
  }

  predicate EndsWith(s: string, suffix: string) {
    |suffix| <= |s| && s[|s| - |suffix|..] == suffix
  }

  /** Python's `sub in s`. */
  predicate Contains(s: string, sub: string)
    decreases |s|
  {
    StartsWith(s, sub) || (|s| > 0 && Contains(s[1..], sub))
  }

  /** `sub` occurs in `s` starting at index `i`. */
  predicate OccursAt(s: string, sub: string, i: int) {
    0 <= i && i + |sub| <= |s| && s[i..i + |sub|] == sub
  }

  /** `s.replace(pat, rep)`: left-to-right, non-overlapping occurrences. */
  function Replace(s: string, pat: string, rep: string): string
    requires |pat| > 0
    decreases |s|
  {
    if |s| == 0 then ""
    else if StartsWith(s, pat) then rep + Replace(s[|pat|..], pat, rep)
    else [s[0]] + Replace(s[1..], pat, rep)
  }

  /** `s.split(sep)` for a non-empty separator; never an empty list. */
  function Split(s: string, sep: string): (parts: seq<string>)
    requires |sep| > 0
    ensures |parts| >= 1
    decreases |s|
  {
    if |s| == 0 then [""]
    else if StartsWith(s, sep) then [""] + Split(s[|sep|..], sep)
    else
      var rest := Split(s[1..], sep);
      [[s[0]] + rest[0]] + rest[1..]
  }

  /** `sep.join(parts)`. */
  function Join(sep: string, parts: seq<string>): string
    decreases |parts|
  {
    if |parts| == 0 then ""
    else if |parts| == 1 then parts[0]
    else parts[0] + sep + Join(sep, parts[1..])
  }

  /** The characters for which Python's `str.isspace` holds. */
  predicate IsSpace(c: char) {
    ('\t' <= c <= '\r') || ('\U{1c}' <= c <= ' ') || c == '\U{85}' || c == '\U{a0}'
    || c == '\U{1680}' || ('\U{2000}' <= c <= '\U{200a}') || c == '\U{2028}' || c == '\U{2029}'
    || c == '\U{202f}' || c == '\U{205f}' || c == '\U{3000}'
  }

  function StripLeft(s: string): string
    decreases |s|
  {
    if |s| > 0 && IsSpace(s[0]) then StripLeft(s[1..]) else s
  }

  function StripRight(s: string): string
    decreases |s|
  {
    if |s| > 0 && IsSpace(s[|s| - 1]) then StripRight(s[..|s| - 1]) else s
  }

  /** `s.strip()`. */
  function Strip(s: string): string {
    StripRight(StripLeft(s))
  }

  // ---------------------------------------------------------------------------
  // Lemmas
  // ---------------------------------------------------------------------------

  /** `sub in s` holds exactly when `sub` occurs at some index of `s`. */
  lemma {:induction false} ContainsIffOccurs(s: string, sub: string)
    ensures Contains(s, sub) <==> exists i :: OccursAt(s, sub, i)
    decreases |s|
  {
    if StartsWith(s, sub) {
      assert OccursAt(s, sub, 0);
    } else if |s| > 0 {
      ContainsIffOccurs(s[1..], sub);
      if Contains(s[1..], sub) {
        var i :| OccursAt(s[1..], sub, i);
        assert s[i + 1..i + 1 + |sub|] == s[1..][i..i + |sub|];
        assert OccursAt(s, sub, i + 1);
      }
      assert !OccursAt(s, sub, 0);
      forall i | OccursAt(s, sub, i) ensures Contains(s[1..], sub) {
        assert s[1..][i - 1..i - 1 + |sub|] == s[i..i + |sub|];
        assert OccursAt(s[1..], sub, i - 1);
      }
    }
  }

  /** Replacing a substring that does not occur changes nothing. */
  lemma {:induction false} ReplaceAbsent(s: string, pat: string, rep: string)
    requires |pat| > 0 && !Contains(s, pat)
    ensures Replace(s, pat, rep) == s
    decreases |s|
  {
    if |s| > 0 {
      ReplaceAbsent(s[1..], pat, rep);
      assert [s[0]] + s[1..] == s;
    }
  }

  lemma {:induction false} JoinCons(sep: string, head: string, tail: seq<string>)
    requires |tail| >= 1
    ensures Join(sep, [head] + tail) == head + sep + Join(sep, tail)
  {
    assert ([head] + tail)[1..] == tail;
  }

  lemma {:induction false} JoinExtendFirst(sep: string, c: char, parts: seq<string>)
    requires |parts| >= 1
    ensures Join(sep, [[c] + parts[0]] + parts[1..]) == [c] + Join(sep, parts)
  {
    if |parts| > 1 {
      JoinCons(sep, [c] + parts[0], parts[1..]);
      JoinCons(sep, parts[0], parts[1..]);
      assert [parts[0]] + parts[1..] == parts;
    }
  }

  /** Python's identity `s.replace(pat, rep) == rep.join(s.split(pat))`. */
  lemma {:induction false} ReplaceIsJoinOfSplit(s: string, pat: string, rep: string)
    requires |pat| > 0
    ensures Replace(s, pat, rep) == Join(rep, Split(s, pat))
    decreases |s|
  {
    if |s| == 0 {
    } else if StartsWith(s, pat) {
      var rest := s[|pat|..];
      ReplaceIsJoinOfSplit(rest, pat, rep);
      assert Split(s, pat) == [""] + Split(rest, pat);
      assert Replace(s, pat, rep) == rep + Replace(rest, pat, rep);
      JoinCons(rep, "", Split(rest, pat));
      assert "" + rep == rep;
    } else {
      var parts := Split(s[1..], pat);
      ReplaceIsJoinOfSplit(s[1..], pat, rep);
      assert Split(s, pat) == [[s[0]] + parts[0]] + parts[1..];
      assert Replace(s, pat, rep) == [s[0]] + Replace(s[1..], pat, rep);
      JoinExtendFirst(rep, s[0], parts);
    }
  }

  lemma {:induction false} ReplaceBySelf(s: string, pat: string)
    requires |pat| > 0
    ensures Replace(s, pat, pat) == s
    decreases |s|
  {
    if |s| == 0 {
    } else if StartsWith(s, pat) {
      ReplaceBySelf(s[|pat|..], pat);
      assert s[..|pat|] + s[|pat|..] == s;
    } else {
      ReplaceBySelf(s[1..], pat);
      assert [s[0]] + s[1..] == s;
    }
  }

  /** Joining the pieces of a split with the same separator gives the string back. */
  lemma {:induction false} SplitRoundTrip(s: string, sep: string)
    requires |sep| > 0
    ensures Join(sep, Split(s, sep)) == s
  {
    ReplaceIsJoinOfSplit(s, sep, sep);
    ReplaceBySelf(s, sep);
  }

  /** No piece of a split contains the separator. */
  lemma {:induction false} SplitPiecesAvoidSeparator(s: string, sep: string)
    requires |sep| > 0
    ensures forall p | p in Split(s, sep) :: !Contains(p, sep)
    decreases |s|
  {
    if |s| == 0 {
      assert Split(s, sep) == [""];
      assert !StartsWith("", sep);
    } else if StartsWith(s, sep) {
      SplitPiecesAvoidSeparator(s[|sep|..], sep);
      assert !StartsWith("", sep);
    } else {
      var rest := Split(s[1..], sep);
      SplitPiecesAvoidSeparator(s[1..], sep);
      var first := [s[0]] + rest[0];
      assert first[1..] == rest[0];
      SplitFirstPiecePrefix(s[1..], sep);
      assert StartsWith(s, first);
      PrefixAvoids(s, first, sep);
      assert !Contains(first, sep);
    }
  }

  /** A prefix of a string that does not start with `q` does not start with `q` either. */
  lemma {:induction false} PrefixAvoids(s: string, p: string, q: string)
    requires StartsWith(s, p) && !StartsWith(s, q)
    ensures !StartsWith(p, q)
  {
    if |q| <= |p| {
      assert s[..|q|] == p[..|q|];
    }
  }

  /** The first piece of a split is a prefix of the string. */
  lemma {:induction false} SplitFirstPiecePrefix(s: string, sep: string)
    requires |sep| > 0
    ensures StartsWith(s, Split(s, sep)[0])
    decreases |s|
  {
    if |s| > 0 && !StartsWith(s, sep) {
      SplitFirstPiecePrefix(s[1..], sep);
    }
  }

  /** For a one-character separator, splitting a join of separator-free pieces gives the pieces back. */
  lemma {:induction false} SplitOfJoin(parts: seq<string>, c: char)
    requires |parts| >= 1
    requires forall p | p in parts :: c !in p
    ensures Split(Join([c], parts), [c]) == parts
    decreases |parts|
  {
    if |parts| == 1 {
      SplitWithoutSeparator(parts[0], c);
    } else {
      JoinCons([c], parts[0], parts[1..]);
      SplitOfJoin(parts[1..], c);
      SplitPrefixPiece(parts[0], c, Join([c], parts[1..]));
      assert [parts[0]] + parts[1..] == parts;
    }
  }

  lemma {:induction false} SplitWithoutSeparator(s: string, c: char)
    requires c !in s
    ensures Split(s, [c]) == [s]
    decreases |s|
  {
    if |s| > 0 {
      SplitWithoutSeparator(s[1..], c);
      assert [s[0]] + s[1..] == s;
    }
  }

  lemma {:induction false} SplitPrefixPiece(piece: string, c: char, rest: string)
    requires c !in piece
    ensures Split(piece + [c] + rest, [c]) == [piece] + Split(rest, [c])
    decreases |piece|
  {
    if |piece| == 0 {
      assert ([c] + rest)[1..] == rest;
    } else {
      SplitPrefixPiece(piece[1..], c, rest);
      assert (piece + [c] + rest)[1..] == piece[1..] + [c] + rest;
      assert [piece[0]] + piece[1..] == piece;
    }
  }

  lemma {:induction false} SplitAtSeparator(t: string, c: char)
    ensures Split([c] + t, [c]) == [""] + Split(t, [c])
  {
    assert ([c] + t)[1..] == t;
    assert StartsWith([c] + t, [c]);
  }

  lemma {:induction false} SplitAtOther(x: char, t: string, c: char)
    requires x != c
    ensures Split([x] + t, [c]) == [[x] + Split(t, [c])[0]] + Split(t, [c])[1..]
  {
    assert ([x] + t)[1..] == t;
    assert !StartsWith([x] + t, [c]);
  }

  lemma {:induction false} HeadTail(r: seq<string>, q: seq<string>, x: char)
    requires |r| >= 1
    ensures [[x] + (r + q)[0]] + (r + q)[1..] == ([[x] + r[0]] + r[1..]) + q
  {
    assert (r + q)[0] == r[0];
    assert (r + q)[1..] == r[1..] + q;
  }

  lemma {:induction false} SplitConcatAtSeparator(t: string, c: char, b: string, u: string)
    requires Split(u, [c]) == Split(t, [c]) + Split(b, [c])
    ensures Split([c] + u, [c]) == Split([c] + t, [c]) + Split(b, [c])
  {
    SplitAtSeparator(u, c);
    SplitAtSeparator(t, c);
    PartsAssoc([""], Split(t, [c]), Split(b, [c]));
  }

  lemma {:induction false} SplitConcatAtOther(x: char, t: string, c: char, b: string, u: string)
    requires x != c
    requires Split(u, [c]) == Split(t, [c]) + Split(b, [c])
    ensures Split([x] + u, [c]) == Split([x] + t, [c]) + Split(b, [c])
  {
    SplitAtOther(x, u, c);
    SplitAtOther(x, t, c);
    HeadTail(Split(t, [c]), Split(b, [c]), x);
  }

  /** Splitting at a separator occurrence splits the two sides independently. */
  lemma {:induction false} SplitConcat(a: string, c: char, b: string)
    ensures Split(a + [c] + b, [c]) == Split(a, [c]) + Split(b, [c])
    decreases |a|
  {
    if |a| == 0 {
      assert a + [c] + b == [c] + b;
      SplitAtSeparator(b, c);
    } else {
      var u := a[1..] + [c] + b;
      SplitConcat(a[1..], c, b);
      if a[0] == c {
        SplitConcatAtSeparator(a[1..], c, b, u);
      } else {
        SplitConcatAtOther(a[0], a[1..], c, b, u);
      }
      ConsAround(a, c, b);
    }
  }

  lemma PartsAssoc(x: seq<string>, y: seq<string>, z: seq<string>)
    ensures x + (y + z) == (x + y) + z
  {
  }

  lemma ConcatAssoc(a: string, b: string, c: string)
    ensures a + b + c == a + (b + c)
  {
  }

  lemma {:induction false} ConsAround(a: string, c: char, b: string)
    requires |a| > 0
    ensures a + [c] + b == [a[0]] + (a[1..] + [c] + b)
  {
    assert [a[0]] + a[1..] == a;
  }

  /** Deleting a character (`s.replace(c, "")`) leaves no occurrence of it. */
  lemma {:induction false} DeleteCharRemovesAll(s: string, c: char)
    ensures c !in Replace(s, [c], "")
    decreases |s|
  {
    if |s| > 0 {
      DeleteCharRemovesAll(s[1..], c);
    }
  }

  /** Replacing never empties a non-empty string when the replacement is non-empty. */
  lemma {:induction false} ReplaceEmptyIff(s: string, pat: string, rep: string)
    requires |pat| > 0 && |rep| > 0
    ensures Replace(s, pat, rep) == "" <==> s == ""
  {
  }

  /** A replacement no longer than what it replaces never lengthens the string. */
  lemma {:induction false} ReplaceShrinks(s: string, pat: string, rep: string)
    requires |pat| > 0 && |rep| <= |pat|
    ensures |Replace(s, pat, rep)| <= |s|
    decreases |s|
  {
    if |s| > 0 {
      if StartsWith(s, pat) {
        ReplaceShrinks(s[|pat|..], pat, rep);
      } else {
        ReplaceShrinks(s[1..], pat, rep);
      }
    }
  }

  /** A prefix free of the pattern's first character is copied through by `replace`. */
  lemma {:induction false} ReplaceSkipsPrefix(a: string, b: string, pat: string, rep: string)
    requires |pat| > 0 && pat[0] !in a
    ensures Replace(a + b, pat, rep) == a + Replace(b, pat, rep)
    decreases |a|
  {
    if |a| > 0 {
      assert (a + b)[0] == a[0] && (a + b)[1..] == a[1..] + b;
      assert !StartsWith(a + b, pat);
      ReplaceSkipsPrefix(a[1..], b, pat, rep);
      assert [a[0]] + a[1..] == a;
    } else {
      assert a + b == b;
    }
  }

  /** An occurrence in `a + b` of a pattern whose first character is not in `a` lies in `b`. */
  lemma {:induction false} ContainsSkipsPrefix(a: string, b: string, sub: string)
    requires |sub| > 0 && sub[0] !in a
    ensures Contains(a + b, sub) <==> Contains(b, sub)
    decreases |a|
  {
    if |a| > 0 {
      assert (a + b)[0] == a[0] && (a + b)[1..] == a[1..] + b;
      assert !StartsWith(a + b, sub);
      ContainsSkipsPrefix(a[1..], b, sub);
    } else {
      assert a + b == b;
    }
  }

  /** A string without the pattern's first character does not contain the pattern. */
  lemma {:induction false} NotContainsWithoutFirst(s: string, sub: string)
    requires |sub| > 0 && sub[0] !in s
    ensures !Contains(s, sub)
    decreases |s|
  {
    if |s| > 0 {
      NotContainsWithoutFirst(s[1..], sub);
    }
  }

  /** `strip` returns a contiguous slice with no leading or trailing whitespace. */
  lemma {:induction false} StripIsTrimmedSlice(s: string)
    ensures exists i, j :: 0 <= i <= j <= |s| && Strip(s) == s[i..j]
    ensures |Strip(s)| > 0 ==> !IsSpace(Strip(s)[0]) && !IsSpace(Strip(s)[|Strip(s)| - 1])
  {
    var i := StripLeftSlice(s);
    var j := StripRightSlice(s[i..]);
    assert Strip(s) == s[i..][..j] == s[i..i + j];
  }

  lemma {:induction false} StripLeftSlice(s: string) returns (i: nat)
    ensures i <= |s| && StripLeft(s) == s[i..]
    ensures |StripLeft(s)| > 0 ==> !IsSpace(StripLeft(s)[0])
    ensures forall k | 0 <= k < i :: IsSpace(s[k])
    decreases |s|
  {
    if |s| > 0 && IsSpace(s[0]) {
      var i' := StripLeftSlice(s[1..]);
      i := i' + 1;
      assert s[1..][i'..] == s[i..];
      forall k | 0 <= k < i ensures IsSpace(s[k]) {
        if k > 0 { assert s[k] == s[1..][k - 1]; }
      }
    } else {
      i := 0;
    }
  }

  lemma {:induction false} StripRightSlice(s: string) returns (j: nat)
    ensures j <= |s| && StripRight(s) == s[..j]
    ensures |StripRight(s)| > 0 ==> !IsSpace(StripRight(s)[|StripRight(s)| - 1])
    ensures forall k | j <= k < |s| :: IsSpace(s[k])
    decreases |s|
  {
    if |s| > 0 && IsSpace(s[|s| - 1]) {
      j := StripRightSlice(s[..|s| - 1]);
      assert s[..|s| - 1][..j] == s[..j];
    } else {
      j := |s|;
    }
  }
}
