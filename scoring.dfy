/**
 * The scores of result matching: `calc_main_artist_match`,
 * `calc_artists_match`, the three artist fixups, `calc_name_match`,
 * `calc_time_match`, `calc_album_match` and `order_results`.
 * Every song passed to them has at least one artist: the source indexes
 * `song.artists[0]` and divides by `len(song.artists)` unguarded.
 */
module Scoring {
  import opened Wrappers
  import opened Strings
  import opened Ordering
  import opened Foreign
  import opened Formatter
  import opened Matching

  /** `list(map(slugify, xs))`. */
  function Slugs(xs: seq<string>, slug: Slugify): (r: seq<string>)
    ensures |r| == |xs| && forall i | 0 <= i < |xs| :: r[i] == slug(xs[i])
  {
    seq(|xs|, i requires 0 <= i < |xs| => slug(xs[i]))
  }

  /** A fresh list holding `xs`. */
  method ArrayOf(xs: seq<string>) returns (a: array<string>)
    ensures fresh(a) && a[..] == xs
  {
    a := new string[|xs|](i requires 0 <= i < |xs| => xs[i]);
  }

  /** `sort_string(s.split("-"), "-")`: the "-" words of `s` in ascending order. */
  function SortedWords(s: string): string {
    Join("-", SortSeq(Split(s, "-"), LexLe))
  }

  /** Which of `xs` have `f(x)` occurring in `target`. */
  function Hits(xs: seq<string>, target: string, f: string -> string): (r: seq<bool>)
    ensures |r| == |xs| && forall i | 0 <= i < |xs| :: r[i] == Contains(target, f(xs[i]))
  {
    seq(|xs|, i requires 0 <= i < |xs| => Contains(target, f(xs[i])))
  }

  /** The number of `true` entries, counted from the front as the source's loops do. */
  function CountTrue(bs: seq<bool>): (n: nat)
    ensures n <= |bs|
  {
    if |bs| == 0 then 0 else CountTrue(bs[..|bs| - 1]) + (if bs[|bs| - 1] then 1 else 0)
  }

  /** `share` added once per `true` entry, from the front. */
  function SumShares(bs: seq<bool>, share: real): real {
    if |bs| == 0 then 0.0 else SumShares(bs[..|bs| - 1], share) + (if bs[|bs| - 1] then share else 0.0)
  }

  /** Adding a share per hit comes to the number of hits times the share. */
  lemma {:induction false} SumSharesCount(bs: seq<bool>, share: real)
    ensures SumShares(bs, share) == CountTrue(bs) as real * share
  {
    if |bs| > 0 {
      SumSharesCount(bs[..|bs| - 1], share);
    }
  }

  lemma {:induction false} PrefixStep(bs: seq<bool>, i: nat)
    requires i < |bs|
    ensures bs[..i + 1][..i] == bs[..i] && bs[..i + 1][i] == bs[i]
  {
  }

  /** `sort_string(s.split("-"), "-")` run on a fresh list. */
  method WordsSorted(s: string) returns (r: string)
    ensures r == SortedWords(s)
  {
    var words := ArrayOf(Split(s, "-"));
    r := SortString(words, "-");
  }

  /** `slugify(x).replace("-", "")`. */
  function KeyOf(slug: Slugify): string -> string {
    x => Key(slug, x)
  }

  /** `sort_string(slugify(slugify(x)).split("-"), "-")`: an artist as the single-result branch compares it. */
  function ArtistWords(slug: Slugify): string -> string {
    x => SortedWords(slug(slug(x)))
  }

  // ---------------------------------------------------------------------------
  // calc_main_artist_match
  // ---------------------------------------------------------------------------

  /** `m` raised to the best `ratio` over the pairs of `xs` and `ys`, visited as `product` does. */
  function GridMax(m: real, xs: seq<string>, ys: seq<string>, ratio: Ratio): real
    decreases |xs|
  {
    if |xs| == 0 then m else RowMax(GridMax(m, xs[..|xs| - 1], ys, ratio), xs[|xs| - 1], ys, ratio)
  }

  function RowMax(m: real, x: string, ys: seq<string>, ratio: Ratio): real
    decreases |ys|
  {
    if |ys| == 0 then m
    else
      var before := RowMax(m, x, ys[..|ys| - 1], ratio);
      if ratio(x, ys[|ys| - 1]) > before then ratio(x, ys[|ys| - 1]) else before
  }

  lemma {:induction false} RowMaxIsMax(m: real, x: string, ys: seq<string>, ratio: Ratio)
    ensures var r := RowMax(m, x, ys, ratio);
      m <= r && (forall y | y in ys :: ratio(x, y) <= r) && (r == m || exists y | y in ys :: r == ratio(x, y))
    decreases |ys|
  {
    if |ys| > 0 {
      var front := ys[..|ys| - 1];
      RowMaxIsMax(m, x, front, ratio);
      assert forall y | y in ys :: y in front || y == ys[|ys| - 1];
      assert forall y | y in front :: y in ys;
    }
  }

  /** The best pair score is the maximum of `m` and the ratios of all pairs. */
  lemma {:induction false} GridMaxIsMax(m: real, xs: seq<string>, ys: seq<string>, ratio: Ratio)
    ensures var r := GridMax(m, xs, ys, ratio);
      m <= r && (forall x, y | x in xs && y in ys :: ratio(x, y) <= r)
      && (r == m || exists x, y | x in xs && y in ys :: r == ratio(x, y))
    decreases |xs|
  {
    if |xs| > 0 {
      var front := xs[..|xs| - 1];
      var last := xs[|xs| - 1];
      GridMaxIsMax(m, front, ys, ratio);
      RowMaxIsMax(GridMax(m, front, ys, ratio), last, ys, ratio);
      assert forall x | x in xs :: x in front || x == last;
      assert forall x | x in front :: x in xs;
    }
  }

  /** Python's `xs[:k]`. */
  function Take(xs: seq<string>, k: nat): seq<string> {
    if |xs| <= k then xs else xs[..k]
  }

  /** One share of 100 over `n` per hit: with fewer hits than `n` the sum stays within 0..100. */
  function ShareScore(hits: seq<bool>, n: nat): (r: real)
    requires |hits| < n
    ensures 0.0 <= r <= 100.0
    ensures r == CountTrue(hits) as real * (100.0 / n as real)
  {
    ShareBound(CountTrue(hits), n);
    SumSharesCount(hits, 100.0 / n as real);
    SumShares(hits, 100.0 / n as real)
  }

  lemma {:induction false} ShareBound(c: nat, n: nat)
    requires 0 < n && c <= n
    ensures 0.0 <= c as real * (100.0 / n as real) <= 100.0
  {
    var share := 100.0 / n as real;
    assert share * n as real == 100.0;
    assert c as real * share <= n as real * share;
  }

  /** The main-artist ratio, raised to the best pair when below 50 and the song has several artists. */
  function PairScore(first: real, songArtists: seq<string>, resultArtists: seq<string>, n: nat, ratio: Ratio): (r: real)
    ensures first <= r
    ensures 0.0 <= first <= 100.0 ==> r <= 100.0
  {
    if first < 50.0 && n > 1 then
      GridMaxIsMax(first, Take(songArtists, 2), Take(resultArtists, 2), ratio);
      GridMax(first, Take(songArtists, 2), Take(resultArtists, 2), ratio)
    else first
  }

  /**
   * `calc_main_artist_match`: a percentage, 0 for a result without artists,
   * never below the ratio of the two main artists outside the single-result branch.
   */
  function MainArtistScore(meta: SongMeta, result: SearchResult, slug: Slugify, ratio: Ratio): (r: real)
    requires |meta.artists| > 0
    ensures 0.0 <= r <= 100.0
    ensures |result.artists| == 0 ==> r == 0.0
    ensures |result.artists| > 0 && !(|meta.artists| > 1 && |result.artists| == 1) ==>
      ratio(slug(meta.artists[0]), BasedOnSorted(Slugs(result.artists, slug))[0]) <= r
  {
    if |result.artists| == 0 then 0.0
    else
      var resultArtists := BasedOnSorted(Slugs(result.artists, slug));
      SortSeqLength(Slugs(result.artists, slug), LexLe);
      if |meta.artists| > 1 && |result.artists| == 1 then
        ShareScore(Hits(meta.artists[1..], SortedWords(resultArtists[0]), ArtistWords(slug)), |meta.artists|)
      else
        var songArtists := SortSeq(Slugs(meta.artists, slug), LexLe);
        PairScore(ratio(slug(meta.artists[0]), resultArtists[0]), songArtists, resultArtists, |meta.artists|, ratio)
  }

  /** The single-result branch: each other song artist found in the result's main artist adds a share. */
  method SharedArtists(artists: seq<string>, mainResult: string, slug: Slugify, share: real) returns (total: real)
    ensures total == SumShares(Hits(artists, SortedWords(mainResult), ArtistWords(slug)), share)
  {
    ghost var hits := Hits(artists, SortedWords(mainResult), ArtistWords(slug));
    total := 0.0;
    for i := 0 to |artists|
      invariant total == SumShares(hits[..i], share)
    {
      PrefixStep(hits, i);
      var artist := WordsSorted(slug(slug(artists[i])));
      var resMainArtist := WordsSorted(mainResult);
      assert artist == ArtistWords(slug)(artists[i]);
      if Contains(resMainArtist, artist) {
        total := total + share;
      }
    }
    assert hits[..|artists|] == hits;
  }

  /** The product loop over the first two song artists and the first two result artists. */
  method BestPair(first: real, xs: seq<string>, ys: seq<string>, ratio: Ratio) returns (m: real)
    ensures m == GridMax(first, xs, ys, ratio)
  {
    m := first;
    for i := 0 to |xs|
      invariant m == GridMax(first, xs[..i], ys, ratio)
    {
      assert xs[..i + 1][..i] == xs[..i];
      ghost var start := m;
      for j := 0 to |ys|
        invariant m == RowMax(start, xs[i], ys[..j], ratio)
      {
        assert ys[..j + 1][..j] == ys[..j];
        var candidate := ratio(xs[i], ys[j]);
        if candidate > m {
          m := candidate;
        }
      }
      assert ys[..|ys|] == ys;
    }
    assert xs[..|xs|] == xs;
  }

  method MainArtistMatch(meta: SongMeta, result: SearchResult, slug: Slugify, ratio: Ratio) returns (r: real)
    requires |meta.artists| > 0
    ensures r == MainArtistScore(meta, result, slug, ratio)
  {
    if |result.artists| == 0 {
      return 0.0;
    }
    var songArtists := ArrayOf(Slugs(meta.artists, slug));
    var resultArtists := ArrayOf(Slugs(result.artists, slug));
    var _ := BasedSort(songArtists, resultArtists);
    SortSeqLength(Slugs(result.artists, slug), LexLe);
    SortSeqLength(Slugs(meta.artists, slug), LexLe);
    var mainResult := resultArtists[0];
    if |meta.artists| > 1 && |result.artists| == 1 {
      r := SharedArtists(meta.artists[1..], mainResult, slug, 100.0 / |meta.artists| as real);
      return;
    }
    r := ratio(slug(meta.artists[0]), mainResult);
    if r < 50.0 && songArtists.Length > 1 {
      r := BestPair(r, Take(songArtists[..], 2), Take(resultArtists[..], 2), ratio);
    }
  }

  // ---------------------------------------------------------------------------
  // calc_artists_match
  // ---------------------------------------------------------------------------

  /** The `i`-th entry of `zip_longest`'s column: `None` past the end. */
  function At(s: seq<string>, i: nat): Option<string> {
    if i < |s| then Some(s[i]) else None
  }

  /** The sum of the first `n` pair scores of `zip_longest(a, b)`. */
  function ZipSum(a: seq<string>, b: seq<string>, n: nat, ratio: Ratio): real {
    if n == 0 then 0.0 else ZipSum(a, b, n - 1, ratio) + RatioOpt(ratio, At(a, n - 1), At(b, n - 1))
  }

  lemma {:induction false} ZipSumBounds(a: seq<string>, b: seq<string>, n: nat, ratio: Ratio)
    ensures 0.0 <= ZipSum(a, b, n, ratio) <= 100.0 * (if n <= |a| then n else |a|) as real
  {
    if n > 0 {
      ZipSumBounds(a, b, n - 1, ratio);
    }
  }

  /** The sum of `zip_longest`'s pair scores over the length of `l1`: a percentage. */
  function MeanPairScore(l1: seq<string>, l2: seq<string>, ratio: Ratio): (r: real)
    requires |l1| > 0
    ensures 0.0 <= r <= 100.0
  {
    var n := if |l1| >= |l2| then |l1| else |l2|;
    ZipSumBounds(l1, l2, n, ratio);
    MeanBound(ZipSum(l1, l2, n, ratio), |l1|);
    ZipSum(l1, l2, n, ratio) / |l1| as real
  }

  lemma {:induction false} MeanBound(z: real, n: nat)
    requires 0 < n && 0.0 <= z <= 100.0 * n as real
    ensures 0.0 <= z / n as real <= 100.0
  {
  }

  /**
   * `calc_artists_match`: the mean pair score over the song's artists, a
   * percentage; 0 for a single-artist song or a result without artists.
   */
  function ArtistsScore(meta: SongMeta, result: SearchResult, slug: Slugify, ratio: Ratio): (r: real)
    requires |meta.artists| > 0
    ensures 0.0 <= r <= 100.0
    ensures |meta.artists| == 1 || |result.artists| == 0 ==> r == 0.0
  {
    if |meta.artists| == 1 || |result.artists| == 0 then 0.0
    else
      var l1 := BasedSorted(Slugs(meta.artists, slug), Slugs(result.artists, slug));
      var l2 := BasedOnSorted(Slugs(result.artists, slug));
      SortSeqLength(Slugs(meta.artists, slug), RankLe(SortSeq(Slugs(result.artists, slug), LexLe)));
      MeanPairScore(l1, l2, ratio)
  }

  method ArtistsMatch(meta: SongMeta, result: SearchResult, slug: Slugify, ratio: Ratio) returns (r: real)
    requires |meta.artists| > 0
    ensures r == ArtistsScore(meta, result, slug, ratio)
  {
    if |meta.artists| == 1 || |result.artists| == 0 {
      return 0.0;
    }
    var songArtists := ArrayOf(Slugs(meta.artists, slug));
    var resultArtists := ArrayOf(Slugs(result.artists, slug));
    var l1 := BasedSort(songArtists, resultArtists);
    var l2 := resultArtists[..];
    SortSeqLength(Slugs(meta.artists, slug), RankLe(SortSeq(Slugs(result.artists, slug), LexLe)));
    var total := ZipLongestSum(l1, l2, ratio);
    r := total / |l1| as real;
  }

  /** The loop over `zip_longest(l1, l2)` adding up the pair scores. */
  method ZipLongestSum(l1: seq<string>, l2: seq<string>, ratio: Ratio) returns (total: real)
    ensures total == ZipSum(l1, l2, if |l1| >= |l2| then |l1| else |l2|, ratio)
  {
    var n := if |l1| >= |l2| then |l1| else |l2|;
    total := 0.0;
    for i := 0 to n
      invariant total == ZipSum(l1, l2, i, ratio)
    {
      total := total + RatioOpt(ratio, At(l1, i), At(l2, i));
    }
  }

  /** A score counting one per hit, as a percentage of `n`. */
  function TitleShare(hits: seq<bool>, n: nat): (r: real)
    requires |hits| == n > 0
    ensures 0.0 <= r <= 100.0
    ensures r == CountTrue(hits) as real / n as real * 100.0
  {
    SumSharesCount(hits, 1.0);
    FractionBound(CountTrue(hits), n);
    SumShares(hits, 1.0) / n as real * 100.0
  }

  lemma {:induction false} FractionBound(c: nat, n: nat)
    requires 0 < c <= n || (c == 0 < n)
    ensures 0.0 <= c as real / n as real * 100.0 <= 100.0
  {
    assert c as real / n as real <= 1.0;
  }

  /** `share` added for every `x` of `xs` with `f(x)` in `target`. */
  method AddShares(xs: seq<string>, target: string, f: string -> string, share: real) returns (total: real)
    ensures total == SumShares(Hits(xs, target, f), share)
  {
    ghost var hits := Hits(xs, target, f);
    total := 0.0;
    for i := 0 to |xs|
      invariant total == SumShares(hits[..i], share)
    {
      PrefixStep(hits, i);
      if Contains(target, f(xs[i])) {
        total := total + share;
      }
    }
    assert hits[..|xs|] == hits;
  }

  // ---------------------------------------------------------------------------
  // artists_match_fixup1
  // ---------------------------------------------------------------------------

  /** `slugify(", ".join(artists)) if artists else ""`. */
  function JoinedArtists(artists: seq<string>, slug: Slugify): string {
    if |artists| > 0 then slug(Join(", ", artists)) else ""
  }

  /**
   * `artists_match_fixup1`: an unverified result with a score of at most 50
   * is raised to the channel-name ratio and then to the share of song
   * artists named in the result's title; the fixup never lowers a score
   * and never raises one above 100.
   */
  function Fixup1Score(meta: SongMeta, result: SearchResult, score: real, slug: Slugify, ratio: Ratio): (r: real)
    requires |meta.artists| > 0
    ensures result.verified || score > 50.0 ==> r == score
    ensures score <= r
    ensures !(result.verified || score > 50.0) ==> r <= 100.0
    ensures !(result.verified || score > 50.0) ==> ratio(slug(meta.artist), JoinedArtists(result.artists, slug)) <= r
  {
    if result.verified || score > 50.0 then score
    else
      var channel := ratio(slug(meta.artist), JoinedArtists(result.artists, slug));
      var s1 := if channel > score then channel else score;
      if s1 <= 50.0 then
        var t := TitleShare(Hits(meta.artists, Key(slug, result.name), KeyOf(slug)), |meta.artists|);
        if t > s1 then t else s1
      else s1
  }

  method ArtistsFixup1(meta: SongMeta, result: SearchResult, score: real, slug: Slugify, ratio: Ratio) returns (r: real)
    requires |meta.artists| > 0
    ensures r == Fixup1Score(meta, result, score, slug, ratio)
  {
    if result.verified || score > 50.0 {
      return score;
    }
    var channel := ratio(slug(meta.artist), JoinedArtists(result.artists, slug));
    r := score;
    if channel > r {
      r := channel;
    }
    if r <= 50.0 {
      var found := AddShares(meta.artists, Key(slug, result.name), KeyOf(slug), 1.0);
      var titleMatch := found / |meta.artists| as real * 100.0;
      if titleMatch > r {
        r := titleMatch;
      }
    }
  }

  // ---------------------------------------------------------------------------
  // artists_match_fixup2
  // ---------------------------------------------------------------------------

  /** 25 when the result has fewer artists than the song and names the song's main artist. */
  function MainArtistBonus(meta: SongMeta, result: SearchResult, slug: Slugify): (r: real)
    requires |meta.artists| > 0
    ensures r == 0.0 || r == 25.0
    ensures r == 25.0 ==> 0 < |result.artists| < |meta.artists|
  {
    var songArtist := Key(slug, meta.artists[0]);
    if |result.artists| > 0 && |result.artists| < |meta.artists|
       && (songArtist == Replace(JoinedArtists(result.artists, slug), "-", "") || songArtist == Key(slug, result.name))
    then 25.0 else 0.0
  }

  /** `result.album` is a non-empty string. */
  predicate HasAlbum(result: SearchResult) {
    result.album.Some? && result.album.value != ""
  }

  /** 10 when the result's album is very close to the song's. */
  function AlbumBonus(meta: SongMeta, result: SearchResult, slug: Slugify, ratio: Ratio): (r: real)
    ensures r == 0.0 || r == 10.0
    ensures r == 10.0 ==> HasAlbum(result)
  {
    if HasAlbum(result) && ratio(slug(result.album.value), slug(meta.albumName)) >= 85.0 then 10.0 else 0.0
  }

  /** The fallback of fixup2: the song's and the result's artists with the names' words removed. */
  function CleanArtistsRatio(name: string, meta: SongMeta, result: SearchResult, slug: Slugify, ratio: Ratio): real {
    var list1 := CleanString(meta.artists, slug(name), true, "-", slug);
    var list2 := CleanString(if |result.artists| > 0 then result.artists else [result.author], slug(result.name), true, "-", slug);
    ratio(list1, list2)
  }

  /** The song artists fixup2 looks for in the result: all but the main one when that one already matched. */
  function ArtistsToCheck(meta: SongMeta, score: real): seq<string>
    requires |meta.artists| > 0
  {
    var hasMain := score / (if |meta.artists| > 1 then 2.0 else 1.0) > 50.0;
    meta.artists[(if hasMain then 1 else 0)..]
  }

  /** The score after the bonuses of fixup2, before its fallback. */
  function Fixup2Bonuses(meta: SongMeta, result: SearchResult, score: real, m1: string, m2: string, slug: Slugify, ratio: Ratio): (r: real)
    requires |meta.artists| > 0
    ensures score <= r
  {
    score + (if ratio(m1, m2) >= 75.0 then 10.0 else 0.0)
      + MainArtistBonus(meta, result, slug) + AlbumBonus(meta, result, slug, ratio)
      + FiveEach(Hits(ArtistsToCheck(meta, score), Replace(m2, "-", ""), KeyOf(slug)))
  }

  /** 5 for every hit. */
  function FiveEach(hits: seq<bool>): (r: real)
    ensures r == 5.0 * CountTrue(hits) as real
  {
    SumSharesCount(hits, 5.0);
    SumShares(hits, 5.0)
  }

  /**
   * `artists_match_fixup2`: applies only to a verified result scoring at
   * most 70; fails only where `create_match_strings` does; never lowers the
   * score.
   */
  function Fixup2Score(name: string, meta: SongMeta, result: SearchResult, query: Option<string>, score: real,
                       slug: Slugify, ratio: Ratio): (r: Outcome<real>)
    requires |meta.artists| > 0
    ensures score > 70.0 || !result.verified ==> r == Ok(score)
    ensures r.Err? <==> !(score > 70.0 || !result.verified) && MatchTitle(name, meta, query, slug).Err?
    ensures r.Ok? ==> score <= r.value
  {
    if score > 70.0 || !result.verified then Ok(score)
    else
      var ms := MatchStrings(name, meta, result, query, slug);
      if ms.Err? then Err(ms.error)
      else
        Ok(WithFallback(name, meta, result, Fixup2Bonuses(meta, result, score, ms.value.0, ms.value.1, slug, ratio),
                        slug, ratio))
  }

  /** A score of at most 70 is raised to the clean artists ratio when that is higher. */
  function WithFallback(name: string, meta: SongMeta, result: SearchResult, s: real, slug: Slugify, ratio: Ratio): (r: real)
    ensures s <= r
    ensures s > 70.0 ==> r == s
  {
    if s <= 70.0 then
      var fallback := CleanArtistsRatio(name, meta, result, slug, ratio);
      if fallback > s then fallback else s
    else s
  }

  method ArtistsFixup2(name: string, meta: SongMeta, result: SearchResult, query: Option<string>, score: real,
                       slug: Slugify, ratio: Ratio) returns (r: Outcome<real>)
    requires |meta.artists| > 0
    ensures r == Fixup2Score(name, meta, result, query, score, slug, ratio)
  {
    if score > 70.0 || !result.verified {
      return Ok(score);
    }
    var ms := MatchStrings(name, meta, result, query, slug);
    if ms.Err? {
      return Err(ms.error);
    }
    var s := AddBonuses(meta, result, score, ms.value.0, ms.value.1, slug, ratio);
    s := ApplyFallback(name, meta, result, s, slug, ratio);
    r := Ok(s);
  }

  method AddBonuses(meta: SongMeta, result: SearchResult, score: real, m1: string, m2: string, slug: Slugify, ratio: Ratio)
    returns (s: real)
    requires |meta.artists| > 0
    ensures s == Fixup2Bonuses(meta, result, score, m1, m2, slug, ratio)
  {
    s := score;
    if ratio(m1, m2) >= 75.0 {
      s := s + 10.0;
    }
    s := s + MainArtistBonus(meta, result, slug);
    s := s + AlbumBonus(meta, result, slug, ratio);
    var extra := AddShares(ArtistsToCheck(meta, score), Replace(m2, "-", ""), KeyOf(slug), 5.0);
    s := s + extra;
    assert extra == FiveEach(Hits(ArtistsToCheck(meta, score), Replace(m2, "-", ""), KeyOf(slug)));
  }

  method ApplyFallback(name: string, meta: SongMeta, result: SearchResult, score: real, slug: Slugify, ratio: Ratio)
    returns (s: real)
    ensures s == WithFallback(name, meta, result, score, slug, ratio)
  {
    s := score;
    if s <= 70.0 {
      var fallback := CleanArtistsMatch(name, meta, result, slug, ratio);
      if fallback > s {
        s := fallback;
      }
    }
  }

  method CleanArtistsMatch(name: string, meta: SongMeta, result: SearchResult, slug: Slugify, ratio: Ratio) returns (r: real)
    ensures r == CleanArtistsRatio(name, meta, result, slug, ratio)
  {
    var list1 := CreateCleanString(meta.artists, slug(name), true, "-", slug);
    var list2 := CreateCleanString(if |result.artists| > 0 then result.artists else [result.author], slug(result.name), true, "-", slug);
    r := ratio(list1, list2);
  }

  // ---------------------------------------------------------------------------
  // artists_match_fixup3
  // ---------------------------------------------------------------------------

  /**
   * `artists_match_fixup3`: for a single-artist result of a multi-artist
   * song scoring at most 70, a close title averages in the title ratio; the
   * fixup never lowers the score and caps it at 100.
   */
  function Fixup3Score(name: string, meta: SongMeta, result: SearchResult, score: real, slug: Slugify, ratio: Ratio): (r: real)
    requires |meta.artists| > 0
    ensures score > 70.0 || |result.artists| != 1 || |meta.artists| == 1 ==> r == score
    ensures score <= r
    ensures !(score > 70.0 || |result.artists| != 1 || |meta.artists| == 1) ==> r <= 100.0
  {
    if score > 70.0 || |result.artists| == 0 || |result.artists| > 1 || |meta.artists| == 1 then score
    else
      var fixup := ratio(slug(result.name), slug(CreateSongTitle(name, [meta.artist])));
      var s1 := if fixup >= 80.0 then (score + fixup) / 2.0 else score;
      if s1 <= 100.0 then s1 else 100.0
  }

  // ---------------------------------------------------------------------------
  // calc_name_match, calc_time_match, calc_album_match
  // ---------------------------------------------------------------------------

  /** The first name ratio: the result's name words ordered by the song's, against the song's in descending order. */
  function SlugNameRatio(name: string, result: SearchResult, slug: Slugify, ratio: Ratio): real {
    var resultWords := Split(slug(result.name), "-");
    var songWords := Split(slug(name), "-");
    ratio(Join("-", BasedSorted(resultWords, songWords)), Join("-", BasedOnSorted(songWords)))
  }

  /**
   * `calc_name_match`: a percentage, never below the slug-name ratio, raised
   * to the match-string ratio when that is at most 75; fails only where
   * `create_match_strings` does.
   */
  function NameScore(name: string, meta: SongMeta, result: SearchResult, query: Option<string>, slug: Slugify, ratio: Ratio)
    : (r: Outcome<real>)
    requires |meta.artists| > 0
    ensures r.Err? <==> MatchTitle(name, meta, query, slug).Err?
    ensures r.Ok? ==> 0.0 <= r.value <= 100.0 && SlugNameRatio(name, result, slug, ratio) <= r.value
    ensures r.Ok? && SlugNameRatio(name, result, slug, ratio) <= 75.0 ==>
      ratio(MatchStrings(name, meta, result, query, slug).value.0, MatchStrings(name, meta, result, query, slug).value.1) <= r.value
    ensures r.Ok? ==>
      (r.value == SlugNameRatio(name, result, slug, ratio)
       || r.value == ratio(MatchStrings(name, meta, result, query, slug).value.0, MatchStrings(name, meta, result, query, slug).value.1))
    ensures r.Ok? && SlugNameRatio(name, result, slug, ratio) > 75.0 ==> r.value == SlugNameRatio(name, result, slug, ratio)
  {
    var ms := MatchStrings(name, meta, result, query, slug);
    if ms.Err? then Err(ms.error)
    else
      var first := SlugNameRatio(name, result, slug, ratio);
      if first <= 75.0 then
        var second := ratio(ms.value.0, ms.value.1);
        Ok(if second > first then second else first)
      else Ok(first)
  }

  function Abs(x: real): real {
    if x < 0.0 then -x else x
  }

  /** `calc_time_match`: 100 less the distance between the durations, whichever is longer. */
  function TimeScore(songDuration: int, resultDuration: real): (r: real)
    ensures r == 100.0 - Abs(resultDuration - songDuration as real)
    ensures r <= 100.0
    ensures r == 100.0 <==> resultDuration == songDuration as real
  {
    if resultDuration > songDuration as real then 100.0 - (resultDuration - songDuration as real)
    else 100.0 - (songDuration as real - resultDuration)
  }

  /** `calc_album_match`: 0 without an album, else the album ratio. */
  function AlbumScore(meta: SongMeta, result: SearchResult, slug: Slugify, ratio: Ratio): (r: real)
    ensures 0.0 <= r <= 100.0
    ensures !HasAlbum(result) ==> r == 0.0
  {
    if !HasAlbum(result) then 0.0 else ratio(slug(meta.albumName), slug(result.album.value))
  }

  // ---------------------------------------------------------------------------
  // order_results
  // ---------------------------------------------------------------------------

  /** The artists score before the fixups: the mean of the main-artist and artists scores when there are several artists. */
  function InitialArtists(meta: SongMeta, result: SearchResult, slug: Slugify, ratio: Ratio): (r: real)
    requires |meta.artists| > 0
    ensures 0.0 <= r <= 100.0
  {
    var main := MainArtistScore(meta, result, slug, ratio);
    (main + ArtistsScore(meta, result, slug, ratio)) / (if |meta.artists| > 1 then 2.0 else 1.0)
  }

  /**
   * The artists score after the three fixups, none of which lowers it.
   * `order_results` calls the second fixup without the search query, so its
   * match strings are built from the song's own title and cannot fail.
   */
  function FinalArtists(name: string, meta: SongMeta, result: SearchResult, slug: Slugify, ratio: Ratio): (r: real)
    requires |meta.artists| > 0
    ensures InitialArtists(meta, result, slug, ratio) <= r
  {
    var a1 := Fixup1Score(meta, result, InitialArtists(meta, result, slug, ratio), slug, ratio);
    var a2 := Fixup2Score(name, meta, result, None, a1, slug, ratio);
    Fixup3Score(name, meta, result, a2.value, slug, ratio)
  }

  /** The average of the artists and name scores, averaged with the album score for a verified, non-ISRC result with a weak album match. */
  function Averaged(result: SearchResult, artists: real, nameScore: real, album: real): real {
    var avg := (artists + nameScore) / 2.0;
    if result.verified && !result.isrcSearch && HasAlbum(result) && album <= 80.0 then (avg + album) / 2.0 else avg
  }

  /**
   * The filters of `order_results`: a result is kept when its name score
   * is above 50, its artists score at least 70 and its time score at least
   * 50 unless the average is at least 75; the stored value is capped at 100.
   */
  function Decide(result: SearchResult, artists: real, nameScore: real, album: real, time: real): (r: Option<real>)
    ensures r.Some? <==> nameScore > 50.0 && artists >= 70.0 && !(time < 50.0 && Averaged(result, artists, nameScore, album) < 75.0)
    ensures r.Some? ==> r.value <= 100.0
  {
    if nameScore <= 50.0 || artists < 70.0 then None
    else
      var avg := Averaged(result, artists, nameScore, album);
      if time < 50.0 && avg < 75.0 then None
      else
        var avg2 := if !result.isrcSearch && avg <= 85.0 && time <= 85.0 then (avg + time) / 2.0 else avg;
        Some(if avg2 <= 100.0 then avg2 else 100.0)
  }

  /** One iteration of `order_results`: `None` for a result that is skipped. */
  function Evaluate(name: string, meta: SongMeta, result: SearchResult, query: Option<string>, slug: Slugify, ratio: Ratio)
    : (r: Outcome<Option<real>>)
    requires |meta.artists| > 0
    ensures r.Err? <==> HasCommonWord(name, result.name, slug) && MatchTitle(name, meta, query, slug).Err?
    ensures !HasCommonWord(name, result.name, slug) ==> r == Ok(None)
    ensures r.Ok? && r.value.Some? ==> r.value.value <= 100.0
    ensures r.Ok? && r.value.Some? ==>
      NameScore(name, meta, result, query, slug, ratio).value > 50.0
      && FinalArtists(name, meta, result, slug, ratio) >= 70.0
  {
    if !HasCommonWord(name, result.name, slug) then Ok(None)
    else
      var artists := FinalArtists(name, meta, result, slug, ratio);
      var nameScore := NameScore(name, meta, result, query, slug, ratio);
      if nameScore.Err? then Err(nameScore.error)
      else Ok(Decide(result, artists, nameScore.value, AlbumScore(meta, result, slug, ratio),
                     TimeScore(meta.duration, result.duration)))
  }

  method EvaluateResult(name: string, meta: SongMeta, result: SearchResult, query: Option<string>, slug: Slugify, ratio: Ratio)
    returns (r: Outcome<Option<real>>)
    requires |meta.artists| > 0
    ensures r == Evaluate(name, meta, result, query, slug, ratio)
  {
    var common := CheckCommonWord(name, result.name, slug);
    if !common {
      return Ok(None);
    }
    var main := MainArtistMatch(meta, result, slug, ratio);
    var other := ArtistsMatch(meta, result, slug, ratio);
    var artists := (main + other) / (if |meta.artists| > 1 then 2.0 else 1.0);
    assert artists == InitialArtists(meta, result, slug, ratio);
    artists := ArtistsFixup1(meta, result, artists, slug, ratio);
    var fixed := ArtistsFixup2(name, meta, result, None, artists, slug, ratio);
    artists := Fixup3Score(name, meta, result, fixed.value, slug, ratio);
    assert FinalArtists(name, meta, result, slug, ratio) == artists;
    var nameScore := NameScore(name, meta, result, query, slug, ratio);
    if nameScore.Err? {
      return Err(nameScore.error);
    }
    r := Ok(Decide(result, artists, nameScore.value, AlbumScore(meta, result, slug, ratio),
                   TimeScore(meta.duration, result.duration)));
  }

  /** Evaluation of every result against one song and query. */
  function Evaluator(name: string, meta: SongMeta, query: Option<string>, slug: Slugify, ratio: Ratio)
    : SearchResult -> Outcome<Option<real>>
    requires |meta.artists| > 0
  {
    k => Evaluate(name, meta, k, query, slug, ratio)
  }

  /** `order_results` from `acc` on: the kept results with their values, or the first failure. */
  function OrderFrom(results: seq<SearchResult>, acc: map<SearchResult, real>, eval: SearchResult -> Outcome<Option<real>>)
    : Outcome<map<SearchResult, real>>
    decreases |results|
  {
    if |results| == 0 then Ok(acc)
    else
      var e := eval(results[0]);
      if e.Err? then Err(e.error)
      else if e.value.None? then OrderFrom(results[1..], acc, eval)
      else OrderFrom(results[1..], acc[results[0] := e.value.value], eval)
  }

  /** Every entry of the map is the value its result evaluates to. */
  predicate AllEvaluated(m: map<SearchResult, real>, eval: SearchResult -> Outcome<Option<real>>) {
    forall k | k in m :: eval(k) == Ok(Some(m[k]))
  }

  lemma {:induction false} OrderFromProps(results: seq<SearchResult>, acc: map<SearchResult, real>,
                                          eval: SearchResult -> Outcome<Option<real>>)
    requires AllEvaluated(acc, eval)
    ensures var o := OrderFrom(results, acc, eval);
      (o.Err? <==> exists i | 0 <= i < |results| :: eval(results[i]).Err?)
      && (o.Ok? ==> AllEvaluated(o.value, eval)
                    && (forall k | k in o.value :: k in acc || k in results)
                    && (forall k | k in acc :: k in o.value)
                    && (forall k | k in results :: eval(k).value.Some? ==> k in o.value))
  {
    OrderFromFails(results, acc, eval);
    OrderFromKeeps(results, acc, eval);
  }

  /** The loop fails exactly when some result's evaluation fails. */
  lemma {:induction false} OrderFromFails(results: seq<SearchResult>, acc: map<SearchResult, real>,
                                          eval: SearchResult -> Outcome<Option<real>>)
    ensures OrderFrom(results, acc, eval).Err? <==> exists i | 0 <= i < |results| :: eval(results[i]).Err?
    decreases |results|
  {
    if |results| > 0 {
      var e := eval(results[0]);
      var rest := results[1..];
      assert forall i | 1 <= i < |results| :: results[i] == rest[i - 1];
      if e.Ok? {
        var acc' := if e.value.None? then acc else acc[results[0] := e.value.value];
        assert OrderFrom(results, acc, eval) == OrderFrom(rest, acc', eval);
        OrderFromFails(rest, acc', eval);
      }
    }
  }

  /** When the loop succeeds, its map holds every passing result and only evaluated ones. */
  lemma {:induction false} OrderFromKeeps(results: seq<SearchResult>, acc: map<SearchResult, real>,
                                          eval: SearchResult -> Outcome<Option<real>>)
    requires AllEvaluated(acc, eval)
    ensures var o := OrderFrom(results, acc, eval);
      o.Ok? ==> AllEvaluated(o.value, eval)
                && (forall k | k in o.value :: k in acc || k in results)
                && (forall k | k in acc :: k in o.value)
                && (forall k | k in results :: eval(k).Ok? && eval(k).value.Some? ==> k in o.value)
    decreases |results|
  {
    if |results| > 0 {
      var e := eval(results[0]);
      var rest := results[1..];
      assert forall k | k in results :: k == results[0] || k in rest;
      if e.Ok? {
        var acc' := if e.value.None? then acc else acc[results[0] := e.value.value];
        assert OrderFrom(results, acc, eval) == OrderFrom(rest, acc', eval);
        OrderFromKeeps(rest, acc', eval);
      }
    }
  }

  /**
   * `order_results`: fails exactly when some result's evaluation fails;
   * otherwise the map holds exactly the results that pass every filter,
   * each with its value, and every value is at most 100.
   */
  lemma {:induction false} OrderResultsSpec(results: seq<SearchResult>, name: string, meta: SongMeta, query: Option<string>, slug: Slugify, ratio: Ratio)
    requires |meta.artists| > 0
    ensures var o := OrderFrom(results, map[], Evaluator(name, meta, query, slug, ratio));
      (o.Err? <==> exists i | 0 <= i < |results| :: Evaluate(name, meta, results[i], query, slug, ratio).Err?)
      && (o.Ok? ==> (forall k | k in o.value :: k in results && Evaluate(name, meta, k, query, slug, ratio) == Ok(Some(o.value[k])))
                    && (forall k | k in results && Evaluate(name, meta, k, query, slug, ratio).value.Some? :: k in o.value)
                    && (forall k | k in o.value :: o.value[k] <= 100.0))
  {
    var eval := Evaluator(name, meta, query, slug, ratio);
    OrderFromProps(results, map[], eval);
    var o := OrderFrom(results, map[], eval);
    if o.Ok? {
      forall k | k in o.value ensures o.value[k] <= 100.0 {
        assert eval(k) == Ok(Some(o.value[k]));
      }
    }
  }

  method OrderResults(results: seq<SearchResult>, name: string, meta: SongMeta, query: Option<string>, slug: Slugify, ratio: Ratio)
    returns (r: Outcome<map<SearchResult, real>>)
    requires |meta.artists| > 0
    ensures r == OrderFrom(results, map[], Evaluator(name, meta, query, slug, ratio))
  {
    ghost var eval := Evaluator(name, meta, query, slug, ratio);
    var links: map<SearchResult, real> := map[];
    for i := 0 to |results|
      invariant OrderFrom(results[i..], links, eval) == OrderFrom(results, map[], eval)
    {
      assert results[i..][1..] == results[i + 1..];
      var e := EvaluateResult(name, meta, results[i], query, slug, ratio);
      assert e == eval(results[i]);
      if e.Err? {
        return Err(e.error);
      }
      if e.value.Some? {
        links := links[results[i] := e.value.value];
      }
    }
    r := Ok(links);
  }
}
