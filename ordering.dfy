/**
 * Ordering and sorting of string lists as Python does it: `a <= b` on `str`,
 * `list.sort()`, `sorted(..., key=...)` and `list.reverse()`.
 */
module Ordering {

  /** Python's `a <= b` on `str`: code point by code point; a proper prefix comes first. */
  predicate LexLe(a: string, b: string)
    decreases |a|
  {
    |a| == 0 || (|b| > 0 && (a[0] < b[0] || (a[0] == b[0] && LexLe(a[1..], b[1..]))))
  }

  /** `le` is a total order: antisymmetric, transitive and total (hence reflexive). */
  ghost predicate IsTotalOrder(le: (string, string) -> bool) {
    (forall a, b :: le(a, b) && le(b, a) ==> a == b)
    && (forall a, b, c :: le(a, b) && le(b, c) ==> le(a, c))
    && (forall a, b :: le(a, b) || le(b, a))
  }

  predicate Sorted(s: seq<string>, le: (string, string) -> bool) {
    forall i, j | 0 <= i < j < |s| :: le(s[i], s[j])
  }

  function Insert(x: string, s: seq<string>, le: (string, string) -> bool): seq<string>
    decreases |s|
  {
    if |s| == 0 then [x]
    else if le(x, s[0]) then [x] + s
    else [s[0]] + Insert(x, s[1..], le)
  }

  /** The list in ascending `le` order: the value of `sorted(s)` (insertion sort as the reference). */
  function SortSeq(s: seq<string>, le: (string, string) -> bool): seq<string>
    decreases |s|
  {
    if |s| == 0 then [] else Insert(s[0], SortSeq(s[1..], le), le)
  }

  /** `list(reversed(s))`. */
  function Reversed(s: seq<string>): (r: seq<string>)
    ensures |r| == |s|
  {
    seq(|s|, i requires 0 <= i < |s| => s[|s| - 1 - i])
  }

  // ---------------------------------------------------------------------------
  // Lemmas
  // ---------------------------------------------------------------------------

  lemma {:induction false} LexLeIsTotalOrder()
    ensures IsTotalOrder(LexLe)
  {
    forall a, b | LexLe(a, b) && LexLe(b, a) ensures a == b {
      LexAntisymmetric(a, b);
    }
    forall a, b, c | LexLe(a, b) && LexLe(b, c) ensures LexLe(a, c) {
      LexTransitive(a, b, c);
    }
    forall a, b ensures LexLe(a, b) || LexLe(b, a) {
      LexTotal(a, b);
    }
  }

  lemma {:induction false} LexAntisymmetric(a: string, b: string)
    requires LexLe(a, b) && LexLe(b, a)
    ensures a == b
    decreases |a|
  {
    if |a| > 0 && |b| > 0 {
      LexAntisymmetric(a[1..], b[1..]);
      assert a == [a[0]] + a[1..] && b == [b[0]] + b[1..];
    }
  }

  lemma {:induction false} LexTransitive(a: string, b: string, c: string)
    requires LexLe(a, b) && LexLe(b, c)
    ensures LexLe(a, c)
    decreases |a|
  {
    if |a| > 0 && a[0] == b[0] && b[0] == c[0] {
      LexTransitive(a[1..], b[1..], c[1..]);
    }
  }

  lemma {:induction false} LexTotal(a: string, b: string)
    ensures LexLe(a, b) || LexLe(b, a)
    decreases |a|
  {
    if |a| > 0 && |b| > 0 && a[0] == b[0] {
      LexTotal(a[1..], b[1..]);
    }
  }

  lemma {:induction false} InsertPermutes(x: string, s: seq<string>, le: (string, string) -> bool)
    ensures multiset(Insert(x, s, le)) == multiset(s) + multiset{x}
    decreases |s|
  {
    if |s| > 0 && !le(x, s[0]) {
      InsertPermutes(x, s[1..], le);
      assert s == [s[0]] + s[1..];
    }
  }

  lemma {:induction false} InsertSorted(x: string, s: seq<string>, le: (string, string) -> bool)
    requires IsTotalOrder(le) && Sorted(s, le)
    ensures Sorted(Insert(x, s, le), le)
    decreases |s|
  {
    if |s| > 0 && !le(x, s[0]) {
      InsertSorted(x, s[1..], le);
      InsertPermutes(x, s[1..], le);
      var r := Insert(x, s[1..], le);
      forall k | 0 <= k < |r| ensures le(s[0], r[k]) {
        assert r[k] in multiset(r);
        assert r[k] == x || r[k] in s[1..];
      }
    }
  }

  /** `SortSeq` is sorted and a permutation of its input. */
  lemma {:induction false} SortSeqSortsAndPermutes(s: seq<string>, le: (string, string) -> bool)
    requires IsTotalOrder(le)
    ensures Sorted(SortSeq(s, le), le)
    ensures multiset(SortSeq(s, le)) == multiset(s)
    decreases |s|
  {
    if |s| > 0 {
      SortSeqSortsAndPermutes(s[1..], le);
      InsertSorted(s[0], SortSeq(s[1..], le), le);
      InsertPermutes(s[0], SortSeq(s[1..], le), le);
      MultisetHead(s);
    }
  }

  /** Inserting adds exactly one element. */
  lemma {:induction false} InsertLength(x: string, s: seq<string>, le: (string, string) -> bool)
    ensures |Insert(x, s, le)| == |s| + 1
    decreases |s|
  {
    if |s| > 0 && !le(x, s[0]) {
      InsertLength(x, s[1..], le);
    }
  }

  /** `SortSeq` keeps the length of its input. */
  lemma {:induction false} SortSeqLength(s: seq<string>, le: (string, string) -> bool)
    ensures |SortSeq(s, le)| == |s|
    decreases |s|
  {
    if |s| > 0 {
      SortSeqLength(s[1..], le);
      InsertLength(s[0], SortSeq(s[1..], le), le);
    }
  }

  lemma {:induction false} MultisetHead(s: seq<string>)
    requires |s| > 0
    ensures multiset(s) == multiset{s[0]} + multiset(s[1..])
  {
    assert s == [s[0]] + s[1..];
  }

  lemma {:induction false} MultisetTail(s: seq<string>)
    requires |s| > 0
    ensures multiset(s[1..]) == multiset(s) - multiset{s[0]}
  {
    assert s == [s[0]] + s[1..];
  }

  /** The head of a sorted list is below every element of it. */
  lemma {:induction false} SortedHeadIsLeast(s: seq<string>, x: string, le: (string, string) -> bool)
    requires IsTotalOrder(le) && Sorted(s, le) && x in multiset(s)
    ensures le(s[0], x)
  {
    var j :| 0 <= j < |s| && s[j] == x;
    if j == 0 {
      assert le(x, x) || le(x, x);
    }
  }

  /** Two sorted permutations of each other start with the same element. */
  lemma {:induction false} SortedHeadsEqual(a: seq<string>, b: seq<string>, le: (string, string) -> bool)
    requires IsTotalOrder(le) && Sorted(a, le) && Sorted(b, le)
    requires multiset(a) == multiset(b) && |a| > 0 && |b| > 0
    ensures a[0] == b[0]
  {
    assert a[0] in multiset(b) && b[0] in multiset(a);
    SortedHeadIsLeast(b, a[0], le);
    SortedHeadIsLeast(a, b[0], le);
  }

  lemma {:induction false} SortedTailsAgree(a: seq<string>, b: seq<string>, le: (string, string) -> bool)
    requires IsTotalOrder(le) && Sorted(a, le) && Sorted(b, le)
    requires multiset(a) == multiset(b) && |a| > 0 && |b| > 0
    ensures a[0] == b[0] && multiset(a[1..]) == multiset(b[1..])
    ensures Sorted(a[1..], le) && Sorted(b[1..], le)
  {
    SortedHeadsEqual(a, b, le);
    MultisetTail(a);
    MultisetTail(b);
  }

  /** Under a total order, a sorted permutation is unique. */
  lemma {:induction false} SortedPermutationUnique(a: seq<string>, b: seq<string>, le: (string, string) -> bool)
    requires IsTotalOrder(le) && Sorted(a, le) && Sorted(b, le)
    requires multiset(a) == multiset(b)
    ensures a == b
    decreases |a|
  {
    assert |a| == |multiset(a)| == |multiset(b)| == |b|;
    if |a| > 0 {
      SortedTailsAgree(a, b, le);
      SortedPermutationUnique(a[1..], b[1..], le);
      assert a == [a[0]] + a[1..] && b == [b[0]] + b[1..];
    }
  }

  /** Any sorted permutation of `s` is `SortSeq(s)`. */
  lemma {:induction false} SortedPermutationIsSortSeq(t: seq<string>, s: seq<string>, le: (string, string) -> bool)
    requires IsTotalOrder(le) && Sorted(t, le) && multiset(t) == multiset(s)
    ensures t == SortSeq(s, le)
  {
    SortSeqSortsAndPermutes(s, le);
    SortedPermutationUnique(t, SortSeq(s, le), le);
  }

  /** A list sorted ascending, reversed, is sorted descending. */
  lemma {:induction false} ReversedSortedDescends(s: seq<string>, le: (string, string) -> bool)
    requires Sorted(s, le)
    ensures forall i, j | 0 <= i < j < |s| :: le(Reversed(s)[j], Reversed(s)[i])
  {
  }

  // ---------------------------------------------------------------------------
  // In-place operations
  // ---------------------------------------------------------------------------

  /**
   * The state of insertion sort while `s[j]` moves left into `s[..i+1]`:
   * every pair in `s[..i+1]` not involving position `j` is in order, and
   * `s[j]` is in order with everything to its right.
   */
  ghost predicate Inserting(s: seq<string>, i: int, j: int, le: (string, string) -> bool) {
    0 <= j <= i < |s|
    && (forall k, l | 0 <= k < l <= i && l != j && k != j :: le(s[k], s[l]))
    && (forall k | 0 <= k < j :: j + 1 <= i ==> le(s[k], s[j + 1]))
    && (forall l | j < l <= i :: le(s[j], s[l]))
  }

  lemma {:induction false} InsertingStarts(s: seq<string>, i: int, le: (string, string) -> bool)
    requires 0 <= i < |s| && Sorted(s[..i], le)
    ensures Inserting(s, i, i, le)
  {
    assert forall k | 0 <= k < i :: s[..i][k] == s[k];
  }

  lemma {:induction false} InsertingSwaps(s: seq<string>, i: int, j: int, le: (string, string) -> bool)
    requires IsTotalOrder(le) && Inserting(s, i, j, le) && j > 0 && !le(s[j - 1], s[j])
    ensures Inserting(s[j - 1 := s[j]][j := s[j - 1]], i, j - 1, le)
  {
    var t := s[j - 1 := s[j]][j := s[j - 1]];
    assert le(s[j], s[j - 1]);
    forall l | j - 1 < l <= i ensures le(t[j - 1], t[l]) {
      if l > j { assert le(s[j], s[l]); }
    }
    forall k | 0 <= k < j - 1 ensures le(t[k], t[j]) {
      assert le(s[k], s[j - 1]);
    }
  }

  lemma {:induction false} InsertingEnds(s: seq<string>, i: int, j: int, le: (string, string) -> bool)
    requires IsTotalOrder(le) && Inserting(s, i, j, le) && (j == 0 || le(s[j - 1], s[j]))
    ensures Sorted(s[..i + 1], le)
  {
    forall k, l | 0 <= k < l <= i ensures le(s[k], s[l]) {
      if k < j && l == j {
        if k < j - 1 {
          assert le(s[k], s[j - 1]);
        }
      } else if k < j && l > j {
        if j + 1 <= i {
          assert le(s[k], s[j + 1]);
          if l > j + 1 { assert le(s[j + 1], s[l]); }
        }
      }
    }
  }

  /** `a.sort()` with the order `le`: insertion sort by adjacent swaps. */
  method SortInPlace(a: array<string>, le: (string, string) -> bool)
    requires IsTotalOrder(le)
    modifies a
    ensures a[..] == SortSeq(old(a[..]), le)
  {
    var i := 0;
    while i < a.Length
      invariant 0 <= i <= a.Length
      invariant Sorted(a[..i], le)
      invariant multiset(a[..]) == multiset(old(a[..]))
    {
      InsertInto(a, i, le);
      i := i + 1;
    }
    assert a[..a.Length] == a[..];
    SortedPermutationIsSortSeq(a[..], old(a[..]), le);
  }

  /** Moves `a[i]` left into the sorted prefix `a[..i]`. */
  method InsertInto(a: array<string>, i: int, le: (string, string) -> bool)
    requires IsTotalOrder(le) && 0 <= i < a.Length && Sorted(a[..i], le)
    modifies a
    ensures Sorted(a[..i + 1], le)
    ensures multiset(a[..]) == multiset(old(a[..]))
  {
    InsertingStarts(a[..], i, le);
    var j := i;
    while j > 0 && !le(a[j - 1], a[j])
      invariant Inserting(a[..], i, j, le)
      invariant multiset(a[..]) == multiset(old(a[..]))
    {
      InsertingSwaps(a[..], i, j, le);
      SwapPermutes(a[..], j);
      a[j - 1], a[j] := a[j], a[j - 1];
      j := j - 1;
    }
    InsertingEnds(a[..], i, j, le);
    assert a[..i + 1] == a[..][..i + 1];
  }

  lemma {:induction false} SwapPermutes(s: seq<string>, j: int)
    requires 0 < j < |s|
    ensures multiset(s[j - 1 := s[j]][j := s[j - 1]]) == multiset(s)
  {
  }

  /** `a.reverse()`. */
  method ReverseInPlace(a: array<string>)
    modifies a
    ensures a[..] == Reversed(old(a[..]))
  {
    var lo, hi := 0, a.Length - 1;
    while lo < hi
      invariant 0 <= lo && hi == a.Length - 1 - lo && lo <= a.Length / 2 + 1
      invariant forall k | 0 <= k < a.Length && (k < lo || k > hi) :: a[k] == old(a[a.Length - 1 - k])
      invariant forall k | lo <= k <= hi :: a[k] == old(a[k])
    {
      a[lo], a[hi] := a[hi], a[lo];
      lo, hi := lo + 1, hi - 1;
    }
  }
}
