/**
 * The string side of result matching: `fill_string`, `create_clean_string`,
 * `sort_string`, `based_sort`, `check_common_word`, `create_match_strings`
 * and `get_best_matches`.
 */
module Matching {
  import opened Wrappers
  import opened Strings
  import opened Ordering
  import opened Foreign
  import opened Formatter

  /** `slugify(s).replace("-", "")`: the slug with its hyphens removed. */
  function Key(slug: Slugify, s: string): (r: string)
    ensures '-' !in r
  {
    DeleteCharRemovesAll(slug(s), '-');
    Replace(slug(s), "-", "")
  }

  lemma {:induction false} ContainsExtended(a: string, b: string, p: string)
    requires Contains(a, p)
    ensures Contains(a + b, p)
  {
    ContainsIffOccurs(a, p);
    var i :| OccursAt(a, p, i);
    assert (a + b)[i..i + |p|] == a[i..i + |p|];
    assert OccursAt(a + b, p, i);
    ContainsIffOccurs(a + b, p);
  }

  lemma {:induction false} ContainsAppended(a: string, p: string)
    ensures Contains(a + p, p)
  {
    assert (a + p)[|a|..|a| + |p|] == p;
    assert OccursAt(a + p, p, |a|);
    ContainsIffOccurs(a + p, p);
  }

  // ---------------------------------------------------------------------------
  // fill_string
  // ---------------------------------------------------------------------------

  /**
   * The loop of `fill_string` from a given state: each string's key is
   * appended (after a "-") when it occurs in `simple` and not yet in `test`.
   * The pair holds the final string and the test string.
   */
  function FillFrom(strings: seq<string>, slug: Slugify, simple: string, final: string, test: string)
    : (string, string)
    decreases |strings|
  {
    if |strings| == 0 then (final, test)
    else
      var p := Key(slug, strings[0]);
      if Contains(simple, p) && !Contains(test, p) then
        FillFrom(strings[1..], slug, simple, final + "-" + p, test + p)
      else
        FillFrom(strings[1..], slug, simple, final, test)
  }

  /** `fill_string(strings, main_string, string_to_check)`. */
  function Fill(strings: seq<string>, main: string, check: string, slug: Slugify): string {
    FillFrom(strings, slug, Replace(check, "-", ""), main, Replace(main, "-", "")).0
  }

  method FillString(strings: seq<string>, main: string, check: string, slug: Slugify) returns (r: string)
    ensures r == Fill(strings, main, check, slug)
  {
    var final := main;
    var test := Replace(main, "-", "");
    var simple := Replace(check, "-", "");
    for i := 0 to |strings|
      invariant FillFrom(strings[i..], slug, simple, final, test)
             == FillFrom(strings, slug, simple, main, Replace(main, "-", ""))
    {
      assert strings[i..][1..] == strings[i + 1..];
      var p := Key(slug, strings[i]);
      if Contains(simple, p) && !Contains(test, p) {
        final := final + "-" + p;
        test := test + p;
      }
    }
    assert strings[|strings|..] == [];
    r := final;
  }

  /** Each piece preceded by "-". */
  function Dashed(pieces: seq<string>): string
    decreases |pieces|
  {
    if |pieces| == 0 then "" else "-" + pieces[0] + Dashed(pieces[1..])
  }

  function Concat(pieces: seq<string>): string
    decreases |pieces|
  {
    if |pieces| == 0 then "" else pieces[0] + Concat(pieces[1..])
  }

  /**
   * What the loop appends: a list of hyphen-free keys, each occurring in
   * `simple`, added after "-" to the final string and as they are to the
   * test string.
   */
  lemma {:induction false} FillFromAppends(strings: seq<string>, slug: Slugify, simple: string, final: string, test: string)
    returns (added: seq<string>)
    ensures FillFrom(strings, slug, simple, final, test) == (final + Dashed(added), test + Concat(added))
    ensures forall a | a in added :: Contains(simple, a) && '-' !in a
    decreases |strings|
  {
    if |strings| == 0 {
      added := [];
      assert final + "" == final && test + "" == test;
    } else {
      var p := Key(slug, strings[0]);
      if Contains(simple, p) && !Contains(test, p) {
        var rest := FillFromAppends(strings[1..], slug, simple, final + "-" + p, test + p);
        added := [p] + rest;
        assert added[1..] == rest;
        assert final + "-" + p + Dashed(rest) == final + Dashed(added);
        assert test + p + Concat(rest) == test + Concat(added);
      } else {
        added := FillFromAppends(strings[1..], slug, simple, final, test);
      }
    }
  }

  /** Every string whose key occurs in `simple` ends up in the test string. */
  lemma {:induction false} FillFromCovers(strings: seq<string>, slug: Slugify, simple: string, final: string, test: string)
    ensures forall s | s in strings && Contains(simple, Key(slug, s)) ::
      Contains(FillFrom(strings, slug, simple, final, test).1, Key(slug, s))
    ensures forall p | Contains(test, p) :: Contains(FillFrom(strings, slug, simple, final, test).1, p)
    decreases |strings|
  {
    if |strings| > 0 {
      var p := Key(slug, strings[0]);
      var test' := if Contains(simple, p) && !Contains(test, p) then test + p else test;
      var final' := if Contains(simple, p) && !Contains(test, p) then final + "-" + p else final;
      FillFromCovers(strings[1..], slug, simple, final', test');
      var out := FillFrom(strings, slug, simple, final, test).1;
      assert out == FillFrom(strings[1..], slug, simple, final', test').1;
      forall q | Contains(test, q) ensures Contains(out, q) {
        if test' != test {
          ContainsExtended(test, p, q);
        }
      }
      if Contains(simple, p) {
        if test' != test {
          ContainsAppended(test, p);
        }
        assert Contains(test', p);
      }
      forall s | s in strings && Contains(simple, Key(slug, s)) ensures Contains(out, Key(slug, s)) {
        if s != strings[0] {
          assert s in strings[1..];
        }
      }
    }
  }

  /**
   * `fill_string` keeps `main_string` as a prefix and appends only "-" +
   * hyphen-free slugs occurring in `string_to_check` without hyphens; every
   * string whose slug occurs there is then present in the test string.
   */
  lemma {:induction false} FillShape(strings: seq<string>, main: string, check: string, slug: Slugify) returns (added: seq<string>)
    ensures Fill(strings, main, check, slug) == main + Dashed(added)
    ensures forall a | a in added :: Contains(Replace(check, "-", ""), a) && '-' !in a
    ensures forall s | s in strings && Contains(Replace(check, "-", ""), Key(slug, s)) ::
      Contains(Replace(main, "-", "") + Concat(added), Key(slug, s))
  {
    added := FillFromAppends(strings, slug, Replace(check, "-", ""), main, Replace(main, "-", ""));
    FillFromCovers(strings, slug, Replace(check, "-", ""), main, Replace(main, "-", ""));
  }

  // ---------------------------------------------------------------------------
  // create_clean_string and sort_string
  // ---------------------------------------------------------------------------

  /** The word keys that do not occur in `target`, in input order. */
  function CleanWords(words: seq<string>, target: string, slug: Slugify): (r: seq<string>)
    ensures forall w :: w in r <==> exists i | 0 <= i < |words| :: w == Key(slug, words[i]) && !Contains(target, w)
    decreases |words|
  {
    if |words| == 0 then []
    else
      var n := |words| - 1;
      var w := Key(slug, words[n]);
      var front := CleanWords(words[..n], target, slug);
      assert forall i | 0 <= i < n :: words[..n][i] == words[i];
      if Contains(target, w) then front else front + [w]
  }

  /** `create_clean_string(words, string, sort, join_str)`. */
  function CleanString(words: seq<string>, s: string, sort: bool, joinStr: string, slug: Slugify): string {
    var kept := CleanWords(words, Key(slug, s), slug);
    if sort then Join(joinStr, SortSeq(kept, LexLe)) else Join(joinStr, kept)
  }

  /** `sort_string`: sorts the list in place and joins it. */
  method SortString(strings: array<string>, joinStr: string) returns (r: string)
    modifies strings
    ensures strings[..] == SortSeq(old(strings[..]), LexLe)
    ensures r == Join(joinStr, strings[..])
  {
    LexLeIsTotalOrder();
    SortInPlace(strings, LexLe);
    r := Join(joinStr, strings[..]);
  }

  method CreateCleanString(words: seq<string>, s: string, sort: bool, joinStr: string, slug: Slugify)
    returns (r: string)
    ensures r == CleanString(words, s, sort, joinStr, slug)
  {
    var target := Key(slug, s);
    var final: seq<string> := [];
    for i := 0 to |words|
      invariant final == CleanWords(words[..i], target, slug)
    {
      assert words[..i + 1][..i] == words[..i];
      var word := Key(slug, words[i]);
      if Contains(target, word) {
        continue;
      }
      final := final + [word];
    }
    assert words[..|words|] == words;
    if sort {
      var a := new string[|final|](i requires 0 <= i < |final| => final[i]);
      assert a[..] == final;
      r := SortString(a, joinStr);
      return;
    }
    r := Join(joinStr, final);
  }

  /** With `sort`, the kept words are joined in ascending order and none is lost or added. */
  lemma {:induction false} CleanStringSorted(words: seq<string>, s: string, slug: Slugify)
    ensures var kept := CleanWords(words, Key(slug, s), slug);
      Sorted(SortSeq(kept, LexLe), LexLe) && multiset(SortSeq(kept, LexLe)) == multiset(kept)
  {
    LexLeIsTotalOrder();
    SortSeqSortsAndPermutes(CleanWords(words, Key(slug, s), slug), LexLe);
  }

  // ---------------------------------------------------------------------------
  // based_sort
  // ---------------------------------------------------------------------------

  /** `{value: index for index, value in enumerate(m)}.get(x, -1)`: the last index of `x`, or -1. */
  function Rank(m: seq<string>, x: string): (r: int)
    ensures -1 <= r < |m|
    ensures r >= 0 ==> m[r] == x && forall j | r < j < |m| :: m[j] != x
    ensures r == -1 <==> x !in m
    decreases |m|
  {
    if |m| == 0 then -1
    else if m[|m| - 1] == x then |m| - 1
    else
      var r := Rank(m[..|m| - 1], x);
      assert forall j | 0 <= j < |m| - 1 :: m[..|m| - 1][j] == m[j];
      r
  }

  /**
   * The order of `sorted(strings, key=rank, reverse=True)` applied to a list
   * already in ascending order: higher rank first, and ascending among equal
   * ranks (the sort is stable).
   */
  function RankLe(m: seq<string>): (string, string) -> bool {
    (a: string, b: string) => Rank(m, a) > Rank(m, b) || (Rank(m, a) == Rank(m, b) && LexLe(a, b))
  }

  lemma {:induction false} RankLeIsTotalOrder(m: seq<string>)
    ensures IsTotalOrder(RankLe(m))
  {
    var le := RankLe(m);
    forall a, b | le(a, b) && le(b, a) ensures a == b {
      LexAntisymmetric(a, b);
    }
    forall a, b, c | le(a, b) && le(b, c) ensures le(a, c) {
      if Rank(m, a) == Rank(m, b) == Rank(m, c) {
        LexTransitive(a, b, c);
      }
    }
    forall a, b ensures le(a, b) || le(b, a) {
      LexTotal(a, b);
    }
  }

  /** The first list `based_sort` returns. */
  function BasedSorted(strings: seq<string>, basedOn: seq<string>): seq<string> {
    SortSeq(strings, RankLe(SortSeq(basedOn, LexLe)))
  }

  /** The second list `based_sort` returns: `based_on` in descending order. */
  function BasedOnSorted(basedOn: seq<string>): seq<string> {
    Reversed(SortSeq(basedOn, LexLe))
  }

  /**
   * `based_sort`: `strings` is sorted in place, `based_on` ends up sorted
   * descending in place, and the result is `strings` by descending index in
   * the sorted `based_on`.
   */
  method BasedSort(strings: array<string>, basedOn: array<string>) returns (r: seq<string>)
    requires strings != basedOn
    modifies strings, basedOn
    ensures strings[..] == SortSeq(old(strings[..]), LexLe)
    ensures basedOn[..] == BasedOnSorted(old(basedOn[..]))
    ensures r == BasedSorted(old(strings[..]), old(basedOn[..]))
  {
    LexLeIsTotalOrder();
    SortInPlace(strings, LexLe);
    SortInPlace(basedOn, LexLe);
    var m := basedOn[..];
    var copy := CopyOf(strings);
    RankLeIsTotalOrder(m);
    SortInPlace(copy, RankLe(m));
    r := copy[..];
    ResortIsSort(old(strings[..]), m);
    ReverseInPlace(basedOn);
  }

  /** A fresh array holding the elements of `a`: the new list `sorted` builds. */
  method CopyOf(a: array<string>) returns (c: array<string>)
    ensures fresh(c) && c[..] == a[..]
  {
    c := new string[a.Length];
    forall i | 0 <= i < a.Length {
      c[i] := a[i];
    }
  }

  /** Sorting the already sorted list by rank gives the rank order of the original list. */
  lemma {:induction false} ResortIsSort(s: seq<string>, m: seq<string>)
    ensures SortSeq(SortSeq(s, LexLe), RankLe(m)) == SortSeq(s, RankLe(m))
  {
    LexLeIsTotalOrder();
    RankLeIsTotalOrder(m);
    var t := SortSeq(s, LexLe);
    SortSeqSortsAndPermutes(t, RankLe(m));
    SortSeqSortsAndPermutes(s, LexLe);
    SortedPermutationIsSortSeq(SortSeq(t, RankLe(m)), s, RankLe(m));
  }

  /**
   * The first list of `based_sort` is a permutation of `strings` with higher
   * ranks first, strings missing from `based_on` (rank -1) last, and
   * ascending order among equal ranks; the second is `based_on` descending.
   */
  lemma {:induction false} BasedSortOrder(strings: seq<string>, basedOn: seq<string>)
    ensures var r, m := BasedSorted(strings, basedOn), SortSeq(basedOn, LexLe);
      && multiset(r) == multiset(strings)
      && (forall i, j | 0 <= i < j < |r| ::
            Rank(m, r[i]) > Rank(m, r[j]) || (Rank(m, r[i]) == Rank(m, r[j]) && LexLe(r[i], r[j])))
      && (forall i, j | 0 <= i < j < |r| && r[i] !in basedOn :: r[j] !in basedOn)
    ensures var b := BasedOnSorted(basedOn);
      multiset(b) == multiset(basedOn) && forall i, j | 0 <= i < j < |b| :: LexLe(b[j], b[i])
  {
    var m := SortSeq(basedOn, LexLe);
    RankLeIsTotalOrder(m);
    SortSeqSortsAndPermutes(strings, RankLe(m));
    LexLeIsTotalOrder();
    SortSeqSortsAndPermutes(basedOn, LexLe);
    var r := BasedSorted(strings, basedOn);
    forall i, j | 0 <= i < j < |r| && r[i] !in basedOn ensures r[j] !in basedOn {
      assert RankLe(m)(r[i], r[j]);
      assert multiset(m)[r[i]] == multiset(basedOn)[r[i]] == 0;
      assert Rank(m, r[i]) == -1;
      assert Rank(m, r[j]) == -1;
      assert multiset(m)[r[j]] == 0;
    }
    ReversedSortedDescends(m, LexLe);
    ReversedPermutes(m);
  }

  lemma {:induction false} ReversedPermutes(s: seq<string>)
    ensures multiset(Reversed(s)) == multiset(s)
    decreases |s|
  {
    if |s| > 0 {
      var t := s[1..];
      ReversedPermutes(t);
      assert Reversed(s) == Reversed(t) + [s[0]];
      assert s == [s[0]] + t;
    }
  }

  // ---------------------------------------------------------------------------
  // check_common_word
  // ---------------------------------------------------------------------------

  /** Some non-empty "-"-word of the song name's slug occurs in the result name's key. */
  predicate HasCommonWord(name: string, resultName: string, slug: Slugify) {
    var words := Split(slug(name), "-");
    exists i | 0 <= i < |words| :: words[i] != "" && Contains(Key(slug, resultName), words[i])
  }

  /** `check_common_word`: the loop returns at the first shared word. */
  method CheckCommonWord(name: string, resultName: string, slug: Slugify) returns (b: bool)
    ensures b == HasCommonWord(name, resultName, slug)
  {
    var words := Split(slug(name), "-");
    var toCheck := Key(slug, resultName);
    for i := 0 to |words|
      invariant forall k | 0 <= k < i :: !(words[k] != "" && Contains(toCheck, words[k]))
    {
      if words[i] != "" && Contains(toCheck, words[i]) {
        return true;
      }
    }
    return false;
  }

  /** A result with the same name as the song shares a word, unless the slug is empty or starts with "-". */
  lemma {:induction false} SameNameShares(name: string, slug: Slugify)
    requires |slug(name)| > 0 && slug(name)[0] != '-'
    ensures HasCommonWord(name, name, slug)
  {
    var s := slug(name);
    var words := Split(s, "-");
    var p := words[0];
    SplitFirstPiecePrefix(s, "-");
    SplitPiecesAvoidSeparator(s, "-");
    assert !Contains(p, "-");
    assert '-' !in p by {
      forall k | 0 <= k < |p| ensures p[k] != '-' {
        if p[k] == '-' {
          assert OccursAt(p, "-", k);
          ContainsIffOccurs(p, "-");
        }
      }
    }
    var rest := s[|p|..];
    assert s == p + rest;
    ReplaceSkipsPrefix(p, rest, "-", "");
    ContainsAppendedFront(p, Replace(rest, "-", ""));
    FirstPieceNonEmpty(s);
  }

  lemma {:induction false} ContainsAppendedFront(p: string, b: string)
    ensures Contains(p + b, p)
  {
    assert (p + b)[..|p|] == p;
  }

  lemma {:induction false} FirstPieceNonEmpty(s: string)
    requires |s| > 0 && s[0] != '-'
    ensures Split(s, "-")[0] != ""
  {
    assert !StartsWith(s, "-");
    var rest := Split(s[1..], "-");
    assert Split(s, "-")[0] == [s[0]] + rest[0];
  }

  // ---------------------------------------------------------------------------
  // create_match_strings
  // ---------------------------------------------------------------------------

  /** The fields of a search result the matcher reads. */
  datatype SearchResult = SearchResult(
    name: string,
    artists: seq<string>,           // empty when the result has none
    album: Option<string>,
    author: string,
    duration: real,                 // seconds
    verified: bool,
    isrcSearch: bool,
    resultId: string)

  /** The song title the matcher compares with: the plain title, or the search query when one is given. */
  function MatchTitle(name: string, meta: SongMeta, query: Option<string>, slug: Slugify): (r: Outcome<string>)
    requires |meta.artists| > 0
    ensures r.Err? <==> query.Some? && query.value != "" && Contains(query.value, "{output-ext}")
  {
    if query.None? || query.value == "" then Ok(CreateSongTitle(name, meta.artists))
    else CreateSearchQuery(name, meta, query.value, false, None, true, slug)
  }

  /**
   * `create_match_strings`: the result's name and the song's name (verified
   * results) or title, each filled with the song artists missing from it,
   * then ordered by `based_sort` on their "-" words.
   */
  function MatchStrings(name: string, meta: SongMeta, result: SearchResult, query: Option<string>, slug: Slugify)
    : (r: Outcome<(string, string)>)
    requires |meta.artists| > 0
    ensures r.Err? <==> MatchTitle(name, meta, query, slug).Err?
  {
    var title := MatchTitle(name, meta, query, slug);
    if title.Err? then Err(title.error)
    else
      var t1 := slug(result.name);
      var t2 := if result.verified then slug(name) else slug(title.value);
      var f1 := Fill(meta.artists, t1, t2, slug);
      var f2 := Fill(meta.artists, t2, f1, slug);
      Ok((Join("-", BasedSorted(Split(f1, "-"), Split(f2, "-"))), Join("-", BasedOnSorted(Split(f2, "-")))))
  }

  /** The filled strings before ordering, for stating what ordering keeps. */
  function FilledStrings(name: string, meta: SongMeta, result: SearchResult, title: string, slug: Slugify)
    : (string, string)
  {
    var t1 := slug(result.name);
    var t2 := if result.verified then slug(name) else slug(title);
    var f1 := Fill(meta.artists, t1, t2, slug);
    (f1, Fill(meta.artists, t2, f1, slug))
  }

  lemma {:induction false} NoDashInPieces(s: string)
    ensures forall p | p in Split(s, "-") :: '-' !in p
  {
    SplitPiecesAvoidSeparator(s, "-");
    forall p | p in Split(s, "-") ensures '-' !in p {
      assert !Contains(p, "-");
      forall k | 0 <= k < |p| ensures p[k] != '-' {
        if p[k] == '-' {
          assert OccursAt(p, "-", k);
          ContainsIffOccurs(p, "-");
        }
      }
    }
  }

  /** Joining a reordering of the "-" words of `s` and splitting again gives that reordering back. */
  lemma {:induction false} ReorderedWords(s: string, r: seq<string>)
    requires multiset(r) == multiset(Split(s, "-"))
    ensures Split(Join("-", r), "-") == r
  {
    NoDashInPieces(s);
    assert |r| == |Split(s, "-")|;
    forall p | p in r ensures '-' !in p {
      assert p in multiset(Split(s, "-"));
    }
    SplitOfJoin(r, '-');
  }

  /** The two match strings are reorderings of the "-" words of the filled strings. */
  lemma {:induction false} MatchStringsReorder(name: string, meta: SongMeta, result: SearchResult, query: Option<string>, slug: Slugify)
    requires |meta.artists| > 0
    requires MatchStrings(name, meta, result, query, slug).Ok?
    ensures var r := MatchStrings(name, meta, result, query, slug).value;
      var f := FilledStrings(name, meta, result, MatchTitle(name, meta, query, slug).value, slug);
      multiset(Split(r.0, "-")) == multiset(Split(f.0, "-"))
      && multiset(Split(r.1, "-")) == multiset(Split(f.1, "-"))
  {
    var f := FilledStrings(name, meta, result, MatchTitle(name, meta, query, slug).value, slug);
    var w1, w2 := Split(f.0, "-"), Split(f.1, "-");
    BasedSortOrder(w1, w2);
    ReorderedWords(f.0, BasedSorted(w1, w2));
    ReorderedWords(f.1, BasedOnSorted(w2));
  }

  // ---------------------------------------------------------------------------
  // get_best_matches
  // ---------------------------------------------------------------------------

  /** Placing `x` before the first entry it is not below keeps the order descending and stable. */
  function InsertByScore<T>(x: (T, real), s: seq<(T, real)>): seq<(T, real)>
    decreases |s|
  {
    if |s| == 0 then [x]
    else if x.1 >= s[0].1 then [x] + s
    else [s[0]] + InsertByScore(x, s[1..])
  }

  /** `sorted(items, key=score, reverse=True)`. */
  function SortByScore<T>(s: seq<(T, real)>): seq<(T, real)>
    decreases |s|
  {
    if |s| == 0 then [] else InsertByScore(s[0], SortByScore(s[1..]))
  }

  predicate Descending<T>(s: seq<(T, real)>) {
    forall i, j | 0 <= i < j < |s| :: s[i].1 >= s[j].1
  }

  /** The highest score: the independent reference for the best match. */
  function MaxScore<T>(s: seq<(T, real)>): (r: real)
    requires |s| > 0
    ensures forall x | x in s :: x.1 <= r
    ensures exists i | 0 <= i < |s| :: s[i].1 == r
    decreases |s|
  {
    if |s| == 1 then s[0].1
    else
      var m := MaxScore(s[1..]);
      assert forall x | x in s[1..] :: x in s;
      assert forall i | 0 <= i < |s| - 1 :: s[1..][i] == s[i + 1];
      if s[0].1 >= m then s[0].1 else m
  }

  lemma {:induction false} InsertByScoreMembers<T>(x: (T, real), s: seq<(T, real)>)
    ensures forall y | y in InsertByScore(x, s) :: y == x || y in s
    ensures multiset(InsertByScore(x, s)) == multiset(s) + multiset{x}
    decreases |s|
  {
    if |s| > 0 && x.1 < s[0].1 {
      InsertByScoreMembers(x, s[1..]);
      assert s == [s[0]] + s[1..];
    }
  }

  lemma {:induction false} InsertByScoreProps<T>(x: (T, real), s: seq<(T, real)>)
    requires Descending(s)
    ensures Descending(InsertByScore(x, s))
    ensures multiset(InsertByScore(x, s)) == multiset(s) + multiset{x}
    decreases |s|
  {
    InsertByScoreMembers(x, s);
    if |s| > 0 && x.1 < s[0].1 {
      InsertByScoreProps(x, s[1..]);
      var t := InsertByScore(x, s[1..]);
      InsertByScoreMembers(x, s[1..]);
      HeadDominates(s);
      ConsDescending(s[0], t);
    }
  }

  lemma {:induction false} ConsDescending<T>(h: (T, real), t: seq<(T, real)>)
    requires Descending(t) && forall y | y in t :: y.1 <= h.1
    ensures Descending([h] + t)
  {
    var u := [h] + t;
    forall i, j | 0 <= i < j < |u| ensures u[i].1 >= u[j].1 {
      assert u[j] == t[j - 1];
      if i > 0 {
        assert u[i] == t[i - 1];
      } else {
        assert t[j - 1] in t;
      }
    }
  }

  lemma {:induction false} HeadDominates<T>(s: seq<(T, real)>)
    requires |s| > 0 && Descending(s)
    ensures forall y | y in s[1..] :: y.1 <= s[0].1
  {
    forall y | y in s[1..] ensures y.1 <= s[0].1 {
      var j :| 0 <= j < |s[1..]| && s[1..][j] == y;
      assert s[j + 1] == y;
    }
  }

  lemma {:induction false} SortByScoreProps<T>(s: seq<(T, real)>)
    ensures Descending(SortByScore(s))
    ensures multiset(SortByScore(s)) == multiset(s)
    decreases |s|
  {
    if |s| > 0 {
      SortByScoreProps(s[1..]);
      InsertByScoreProps(s[0], SortByScore(s[1..]));
      assert s == [s[0]] + s[1..];
    }
  }

  /** The entries within `threshold` of `best`, in order. */
  function WithinThreshold<T>(s: seq<(T, real)>, best: real, threshold: real): (r: seq<(T, real)>)
    decreases |s|
  {
    if |s| == 0 then []
    else (if best - s[0].1 <= threshold then [s[0]] else []) + WithinThreshold(s[1..], best, threshold)
  }

  /** `get_best_matches`: the results by descending score, keeping those within `threshold` of the first. */
  function BestMatches<T>(items: seq<(T, real)>, threshold: real): seq<(T, real)>
    requires |items| > 0
  {
    var sorted := SortByScore(items);
    assert |sorted| > 0 by {
      if |sorted| == 0 { SortByScoreLength(items); }
    }
    WithinThreshold(sorted, sorted[0].1, threshold)
  }

  lemma {:induction false} SortByScoreLength<T>(s: seq<(T, real)>)
    ensures |SortByScore(s)| == |s|
    decreases |s|
  {
    if |s| > 0 {
      SortByScoreLength(s[1..]);
      InsertByScoreLength(s[0], SortByScore(s[1..]));
    }
  }

  lemma {:induction false} InsertByScoreLength<T>(x: (T, real), s: seq<(T, real)>)
    ensures |InsertByScore(x, s)| == |s| + 1
    decreases |s|
  {
    if |s| > 0 && x.1 < s[0].1 {
      InsertByScoreLength(x, s[1..]);
    }
  }

  lemma {:induction false} WithinThresholdProps<T>(s: seq<(T, real)>, best: real, threshold: real)
    ensures forall x | x in WithinThreshold(s, best, threshold) :: x in s && best - x.1 <= threshold
    ensures forall x | x in s && best - x.1 <= threshold :: x in WithinThreshold(s, best, threshold)
    ensures Descending(s) ==> Descending(WithinThreshold(s, best, threshold))
  {
    WithinThresholdMembers(s, best, threshold);
    if Descending(s) {
      WithinThresholdDescends(s, best, threshold);
    }
  }

  lemma {:induction false} WithinThresholdMembers<T>(s: seq<(T, real)>, best: real, threshold: real)
    ensures forall x | x in WithinThreshold(s, best, threshold) :: x in s && best - x.1 <= threshold
    ensures forall x | x in s && best - x.1 <= threshold :: x in WithinThreshold(s, best, threshold)
    decreases |s|
  {
    if |s| > 0 {
      WithinThresholdMembers(s[1..], best, threshold);
      assert s == [s[0]] + s[1..];
    }
  }

  lemma {:induction false} WithinThresholdDescends<T>(s: seq<(T, real)>, best: real, threshold: real)
    requires Descending(s)
    ensures Descending(WithinThreshold(s, best, threshold))
    decreases |s|
  {
    if |s| > 0 {
      var tail := s[1..];
      var rest := WithinThreshold(tail, best, threshold);
      assert Descending(tail);
      WithinThresholdDescends(tail, best, threshold);
      WithinThresholdBounded(tail, best, threshold, s[0].1);
      ConsDescending(s[0], rest);
    }
  }

  /** Keeping only some entries keeps every score under a bound. */
  lemma {:induction false} WithinThresholdBounded<T>(s: seq<(T, real)>, best: real, threshold: real, bound: real)
    requires forall i | 0 <= i < |s| :: s[i].1 <= bound
    ensures forall k | 0 <= k < |WithinThreshold(s, best, threshold)| :: WithinThreshold(s, best, threshold)[k].1 <= bound
    decreases |s|
  {
    if |s| > 0 {
      WithinThresholdBounded(s[1..], best, threshold, bound);
    }
  }

  /**
   * The best matches are in descending score order and are exactly the
   * results whose score is within `threshold` of the highest score.
   */
  lemma {:induction false} BestMatchesSpec<T>(items: seq<(T, real)>, threshold: real)
    requires |items| > 0
    ensures Descending(BestMatches(items, threshold))
    ensures forall x :: x in BestMatches(items, threshold) <==> x in items && MaxScore(items) - x.1 <= threshold
  {
    var sorted := SortByScore(items);
    SortByScoreProps(items);
    SortByScoreLength(items);
    FirstIsMax(sorted, items);
    WithinThresholdProps(sorted, sorted[0].1, threshold);
    forall x ensures x in sorted <==> x in items {
      assert x in sorted <==> x in multiset(sorted);
      assert x in items <==> x in multiset(items);
    }
  }

  lemma {:induction false} FirstIsMax<T>(sorted: seq<(T, real)>, items: seq<(T, real)>)
    requires |items| > 0 && |sorted| > 0
    requires Descending(sorted) && multiset(sorted) == multiset(items)
    ensures sorted[0].1 == MaxScore(items)
  {
    var i :| 0 <= i < |items| && items[i].1 == MaxScore(items);
    var x := items[i];
    assert x in multiset(items);
    var j :| 0 <= j < |sorted| && sorted[j] == x;
    assert sorted[0] in multiset(items);
  }

  /** With a non-negative threshold the top-scoring result is always kept, first. */
  lemma {:induction false} BestMatchKept<T>(items: seq<(T, real)>, threshold: real)
    requires |items| > 0 && threshold >= 0.0
    ensures |BestMatches(items, threshold)| > 0 && BestMatches(items, threshold)[0].1 == MaxScore(items)
  {
    var sorted := SortByScore(items);
    SortByScoreProps(items);
    SortByScoreLength(items);
    FirstIsMax(sorted, items);
    assert BestMatches(items, threshold) == [sorted[0]] + WithinThreshold(sorted[1..], sorted[0].1, threshold);
  }
}
