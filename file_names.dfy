/**
 * `create_file_name` and `restrict_filename`: from a template to a path
 * whose file name is shorter than 255 characters.
 */
module FileNames {
  import opened Wrappers
  import opened Strings
  import opened Foreign
  import opened Formatter

  const ArtistTitleTemplate := SearchPrefix + ExtSuffix
  const TitleTemplate := "{title}" + ExtSuffix

  // ---------------------------------------------------------------------------
  // Template normalisation
  // ---------------------------------------------------------------------------

  /**
   * The template `create_file_name` formats: a template without
   * placeholders becomes a folder for the default file name, a template
   * ending in a separator gets the default file name, and every template
   * ends with ".{output-ext}".
   */
  function NormalizeTemplate(template: string): (r: string)
    ensures EndsWith(r, ExtSuffix)
    ensures template == "" ==> r == DefaultTemplate
  {
    var t1 := if !HasVar(template) && template != "" then template + "/" + DefaultTemplate else template;
    var t2 := if t1 == "" then DefaultTemplate else t1;
    var t3 := if EndsWith(t2, "/") || EndsWith(t2, "\\\\") then t2 + "/" + DefaultTemplate else t2;
    DefaultEnding();
    SuffixOfConcat(t3, ExtSuffix);
    if EndsWith(t3, ExtSuffix) then t3 else t3 + ExtSuffix
  }

  /** The default template ends in ".{output-ext}" and so in no separator. */
  lemma {:induction false} DefaultEnding()
    ensures EndsWith(DefaultTemplate, ExtSuffix)
    ensures !EndsWith(DefaultTemplate, "/") && !EndsWith(DefaultTemplate, "\\\\")
  {
    var d := DefaultTemplate;
    SuffixOfConcat("{artists}" + " - " + "{title}", ExtSuffix);
    assert d[|d| - 1] == ExtSuffix[12] == '}';
    assert !EndsWith(d, "/") by { assert d[|d| - 1..][0] == '}'; }
    assert !EndsWith(d, "\\\\") by { assert d[|d| - 2..][1] == '}'; }
  }

  lemma {:induction false} SuffixOfConcat(s: string, suffix: string)
    ensures EndsWith(s + suffix, suffix)
  {
    assert (s + suffix)[|s|..] == suffix;
  }

  lemma {:induction false} HasExtVar(t: string)
    requires EndsWith(t, ExtSuffix)
    ensures HasVar(t)
  {
    var k := |t| - 12;
    assert t[|t| - 13..] == ExtSuffix;
    assert t[k..k + 12] == t[|t| - 13..][1..];
    assert t[k..k + 12] == "{output-ext}";
    assert OccursAt(t, Vars[19], k);
    ContainsIffOccurs(t, Vars[19]);
  }

  /** Normalising a normalised template changes nothing. */
  lemma {:induction false} NormalizeIdempotent(template: string)
    ensures NormalizeTemplate(NormalizeTemplate(template)) == NormalizeTemplate(template)
  {
    var r := NormalizeTemplate(template);
    HasExtVar(r);
    assert r[|r| - 1] == '}';
    assert !EndsWith(r, "/") && !EndsWith(r, "\\\\");
  }

  /** The stage of the file-name fallback a template stands for. */
  function Stage(t: string): nat {
    if t == TitleTemplate then 0 else if t == ArtistTitleTemplate then 1 else 2
  }

  /** The two fallback templates are already normal. */
  lemma {:induction false} FallbacksNormal()
    ensures NormalizeTemplate(TitleTemplate) == TitleTemplate
    ensures NormalizeTemplate(ArtistTitleTemplate) == ArtistTitleTemplate
  {
    ExtEndedIsNormal("{title}");
    ExtEndedIsNormal(SearchPrefix);
  }

  /** A template with a placeholder before ".{output-ext}" is left as it is. */
  lemma {:induction false} ExtEndedIsNormal(stem: string)
    ensures NormalizeTemplate(stem + ExtSuffix) == stem + ExtSuffix
  {
    var t := stem + ExtSuffix;
    SuffixOfConcat(stem, ExtSuffix);
    HasExtVar(t);
    assert t[|t| - 1] == ExtSuffix[12] == '}';
    assert !EndsWith(t, "/") by {
      assert t[|t| - 1..][0] == '}';
    }
    assert !EndsWith(t, "\\\\") by {
      assert t[|t| - 2..][1] == '}';
    }
  }

  // ---------------------------------------------------------------------------
  // Paths
  // ---------------------------------------------------------------------------

  /** A POSIX path: whether it starts at the root, and its components after the root. */
  datatype PathVal = PathVal(absolute: bool, parts: seq<string>)

  /** The components `Path(text)` keeps: empty and "." pieces between separators go. */
  function Components(pieces: seq<string>): (r: seq<string>)
    ensures forall p | p in r :: p in pieces && p != "" && p != "."
    decreases |pieces|
  {
    if |pieces| == 0 then []
    else (if pieces[0] == "" || pieces[0] == "." then [] else [pieces[0]]) + Components(pieces[1..])
  }

  /** `Path(text)`. */
  function ParsePath(text: string): PathVal {
    PathVal(|text| > 0 && text[0] == '/', Components(Split(text, "/")))
  }

  /** `path.name`: the last component, or "" when there is none. */
  function Name(p: PathVal): string {
    if |p.parts| == 0 then "" else p.parts[|p.parts| - 1]
  }

  // ---------------------------------------------------------------------------
  // Stripping each path segment: re.search(r"[^\.*](.*)[^\.*$]", part)
  // ---------------------------------------------------------------------------

  /** A character the first class `[^\.*]` matches. */
  predicate IsStartChar(c: char) {
    c != '.' && c != '*'
  }

  /** A character the last class `[^\.*$]` matches. */
  predicate IsEndChar(c: char) {
    c != '.' && c != '*' && c != '$'
  }

  /** The first newline at or after `k`, or `|s|`. */
  function FirstNewline(s: string, k: nat): (r: nat)
    ensures k <= r <= |s| || (k > |s| && r == |s|)
    decreases |s| - k
  {
    if k >= |s| then |s| else if s[k] == '\n' then k else FirstNewline(s, k + 1)
  }

  /** The greatest `j` with `lo < j <= hi` and `s[j]` an end character. */
  function LastEndIn(s: string, lo: nat, hi: int): (r: Option<nat>)
    requires -1 <= hi < |s|
    ensures r.Some? ==> lo < r.value <= hi && IsEndChar(s[r.value])
    decreases hi - lo
  {
    if hi <= lo then None
    else if IsEndChar(s[hi]) then Some(hi)
    else LastEndIn(s, lo, hi - 1)
  }

  /**
   * Where a match starting at `i` ends: `(.*)` is greedy but stops at a
   * newline, and the last class may match the newline itself.
   */
  function MatchEnd(s: string, i: nat): Option<nat>
    requires i < |s|
  {
    var e := FirstNewline(s, i + 1);
    LastEndIn(s, i, if e < |s| then e else |s| - 1)
  }

  /** The leftmost match starting at or after `k`, as (first, last) indices. */
  function MatchFrom(s: string, k: nat): (r: Option<(nat, nat)>)
    ensures r.Some? ==> k <= r.value.0 < r.value.1 < |s|
    decreases |s| - k
  {
    if k >= |s| then None
    else if IsStartChar(s[k]) && MatchEnd(s, k).Some? then Some((k, MatchEnd(s, k).value))
    else MatchFrom(s, k + 1)
  }

  /** A segment after stripping: the regex match, or the segment itself for ".spotdl" or no match. */
  function StripSegment(part: string): (r: string)
    ensures exists i, j | 0 <= i <= j <= |part| :: r == part[i..j]
  {
    var m := MatchFrom(part, 0);
    if m.Some? && part != ".spotdl" then part[m.value.0..m.value.1 + 1]
    else
      assert part == part[0..|part|];
      part
  }

  /** The loop over `file.parts`. */
  method StripParts(parts: seq<string>) returns (out: seq<string>)
    ensures |out| == |parts| && forall i | 0 <= i < |parts| :: out[i] == StripSegment(parts[i])
  {
    out := [];
    for i := 0 to |parts|
      invariant |out| == i && forall k | 0 <= k < i :: out[k] == StripSegment(parts[k])
    {
      var stripped := StripSegment(parts[i]);
      out := out + [stripped];
      assert out[i] == stripped;
    }
  }

  function StripPath(p: PathVal): (q: PathVal)
    ensures q.absolute == p.absolute && |q.parts| == |p.parts|
    ensures forall i | 0 <= i < |p.parts| :: q.parts[i] == StripSegment(p.parts[i])
  {
    PathVal(p.absolute, seq(|p.parts|, i requires 0 <= i < |p.parts| => StripSegment(p.parts[i])))
  }

  // Reference reading of the regex for segments without a newline.

  /** The first index at or after `k` holding a start character, or `|s|`. */
  function FirstStartFrom(s: string, k: nat): (r: nat)
    ensures k <= r <= |s| || (k > |s| && r == k)
    ensures r < |s| ==> IsStartChar(s[r])
    ensures forall m | k <= m < r && m < |s| :: !IsStartChar(s[m])
    decreases |s| - k
  {
    if k >= |s| then (if k > |s| then k else |s|)
    else if IsStartChar(s[k]) then k else FirstStartFrom(s, k + 1)
  }

  /** The last index at or below `h` holding an end character, or -1. */
  function LastEndFrom(s: string, h: int): (r: int)
    requires -1 <= h < |s|
    ensures -1 <= r <= h
    ensures r >= 0 ==> IsEndChar(s[r])
    ensures forall m | r < m <= h && 0 <= m :: !IsEndChar(s[m])
    decreases h + 1
  {
    if h < 0 then -1 else if IsEndChar(s[h]) then h else LastEndFrom(s, h - 1)
  }

  /**
   * What stripping does to a segment without newlines: leading `.` and `*`
   * and trailing `.`, `*` and `$` are removed, provided at least two
   * characters would remain; ".spotdl" is kept.
   */
  function Trimmed(s: string): (r: string)
  {
    var a := FirstStartFrom(s, 0);
    var b := LastEndFrom(s, |s| - 1);
    if s != ".spotdl" && a < b then s[a..b + 1] else s
  }

  lemma {:induction false} LastEndInIsLastEnd(s: string, lo: nat, hi: int)
    requires -1 <= hi < |s|
    ensures LastEndIn(s, lo, hi) == (if LastEndFrom(s, hi) > lo then Some(LastEndFrom(s, hi) as nat) else None)
    decreases hi - lo
  {
    if hi > lo && !IsEndChar(s[hi]) {
      LastEndInIsLastEnd(s, lo, hi - 1);
    }
  }

  lemma {:induction false} NoNewlineFrom(s: string, k: nat)
    requires '\n' !in s
    ensures FirstNewline(s, k) == |s|
    decreases |s| - k
  {
    if k < |s| {
      assert s[k] != '\n';
      NoNewlineFrom(s, k + 1);
    }
  }

  lemma {:induction false} MatchFromNoNewline(s: string, k: nat)
    requires '\n' !in s && k <= |s|
    ensures var a, b := FirstStartFrom(s, k), LastEndFrom(s, |s| - 1);
      MatchFrom(s, k) == if a < b then Some((a, b as nat)) else None
    decreases |s| - k
  {
    if k < |s| {
      var b := LastEndFrom(s, |s| - 1);
      MatchEndNoNewline(s, k);
      if !(IsStartChar(s[k]) && b > k) {
        MatchFromNoNewline(s, k + 1);
        assert MatchFrom(s, k) == MatchFrom(s, k + 1);
        if IsStartChar(s[k]) {
          assert FirstStartFrom(s, k + 1) > b;
        } else {
          assert FirstStartFrom(s, k) == FirstStartFrom(s, k + 1);
        }
      }
    }
  }

  /** Without newlines a match from `k` ends at the last end character after `k`, if any. */
  lemma {:induction false} MatchEndNoNewline(s: string, k: nat)
    requires '\n' !in s && k < |s|
    ensures var b := LastEndFrom(s, |s| - 1);
      MatchEnd(s, k) == (if b > k then Some(b as nat) else None)
  {
    NoNewlineFrom(s, k + 1);
    LastEndInIsLastEnd(s, k, |s| - 1);
  }

  /** For a segment without newlines, the regex strips exactly the leading and trailing dots. */
  lemma {:induction false} StripSegmentNoNewline(part: string)
    requires '\n' !in part
    ensures StripSegment(part) == Trimmed(part)
  {
    MatchFromNoNewline(part, 0);
  }

  /** A segment changed by stripping loses only `.`/`*` in front and `.`/`*`/`$` behind. */
  lemma {:induction false} TrimmedShape(s: string)
    ensures var r, a, b := Trimmed(s), FirstStartFrom(s, 0), LastEndFrom(s, |s| - 1);
      r == s || (0 <= a < b < |s| && r == s[a..b + 1] && IsStartChar(r[0]) && IsEndChar(r[|r| - 1])
                 && (forall m | 0 <= m < a :: !IsStartChar(s[m]))
                 && (forall m | b < m < |s| :: !IsEndChar(s[m])))
  {
    var a := FirstStartFrom(s, 0);
    var b := LastEndFrom(s, |s| - 1);
    if s != ".spotdl" && a < b {
      var r := s[a..b + 1];
      assert r[0] == s[a] && r[|r| - 1] == s[b];
    }
  }

  // ---------------------------------------------------------------------------
  // restrict_filename
  // ---------------------------------------------------------------------------

  /** The new file name: yt-dlp's sanitized name with "_-_" turned into "-", and "_" for an empty one. */
  function RestrictedName(name: string, sf: SanitizeFilename): (r: string)
    ensures r != ""
    ensures r == "_" <== sf(name) == ""
  {
    var s := Replace(sf(name), "_-_", "-");
    if s == "" then "_" else s
  }

  /** `restrict_filename`: `path.with_name` applied to the restricted name. */
  function RestrictFilename(p: PathVal, sf: SanitizeFilename): (r: Outcome<PathVal>)
    ensures r.Ok? ==>
      && |p.parts| > 0 && r.value.absolute == p.absolute && |r.value.parts| == |p.parts|
      && r.value.parts[..|p.parts| - 1] == p.parts[..|p.parts| - 1]
      && Name(r.value) == RestrictedName(Name(p), sf) && Name(r.value) != ""
    ensures r.Err? <==> Name(p) == "" || '/' in RestrictedName(Name(p), sf) || RestrictedName(Name(p), sf) == "."
  {
    var n := RestrictedName(Name(p), sf);
    if Name(p) == "" then Err(EmptyName)
    else if '/' in n || n == "." then Err(InvalidName)
    else Ok(PathVal(p.absolute, p.parts[..|p.parts| - 1] + [n]))
  }

  // ---------------------------------------------------------------------------
  // Shortening an overlong title
  // ---------------------------------------------------------------------------

  const TitleBudget := 240

  /** The words of `words` taken while the running text stays under the budget, each followed by a space. */
  function Greedy(words: seq<string>, acc: string): string
    decreases |words|
  {
    if |words| == 0 then acc
    else if |acc| + |words[0]| < TitleBudget then Greedy(words[1..], acc + words[0] + " ")
    else acc
  }

  /** The title kept when the file name is too long even with "{title}" alone. */
  function TruncatedTitle(name: string): string {
    Strip(Greedy(Split(name, " "), ""))
  }

  /** The loop over `song.name.split(" ")` that stops at the first word that does not fit. */
  method TruncateTitle(name: string) returns (r: string)
    ensures r == TruncatedTitle(name)
  {
    var parts := Split(name, " ");
    var newName := "";
    var i := 0;
    while i < |parts|
      invariant 0 <= i <= |parts|
      invariant Greedy(parts[i..], newName) == Greedy(parts, "")
    {
      if |newName| + |parts[i]| < TitleBudget {
        assert parts[i..][1..] == parts[i + 1..];
        newName := newName + parts[i] + " ";
        i := i + 1;
      } else {
        break;
      }
    }
    r := Strip(newName);
  }

  /** Each word followed by a space. */
  function Spaced(words: seq<string>): string
    decreases |words|
  {
    if |words| == 0 then "" else words[0] + " " + Spaced(words[1..])
  }

  lemma {:induction false} SpacedIsJoin(words: seq<string>)
    requires |words| > 0
    ensures Spaced(words) == Join(" ", words) + " "
    decreases |words|
  {
    if |words| > 1 {
      SpacedIsJoin(words[1..]);
    }
  }

  /** Greedy takes a prefix of the words, stops only at a word that does not fit, and stays within the budget. */
  lemma {:induction false} GreedyTakes(words: seq<string>, acc: string) returns (k: nat)
    requires |acc| <= TitleBudget
    ensures k <= |words| && Greedy(words, acc) == acc + Spaced(words[..k])
    ensures k < |words| ==> |acc + Spaced(words[..k])| + |words[k]| >= TitleBudget
    ensures |Greedy(words, acc)| <= TitleBudget
    ensures k > 0 ==> Greedy(words, acc)[|Greedy(words, acc)| - 1] == ' '
    decreases |words|
  {
    if |words| == 0 || |acc| + |words[0]| >= TitleBudget {
      k := 0;
      assert words[..0] == [];
    } else {
      var acc' := acc + words[0] + " ";
      var k' := GreedyTakes(words[1..], acc');
      k := k' + 1;
      assert words[..k][1..] == words[1..][..k'];
      assert words[..k][0] == words[0];
      assert k < |words| ==> words[k] == words[1..][k'];
    }
  }

  lemma {:induction false} StripLeftAppend(x: string, y: string)
    ensures StripLeft(x) != "" ==> StripLeft(x + y) == StripLeft(x) + y
    ensures StripLeft(x) == "" ==> StripLeft(x + y) == StripLeft(y)
    decreases |x|
  {
    if |x| == 0 {
      assert x + y == y;
    } else {
      assert (x + y)[1..] == x[1..] + y;
      StripLeftAppend(x[1..], y);
    }
  }

  /** A trailing space makes no difference to `strip()`. */
  lemma {:induction false} StripTrailingSpace(x: string)
    ensures Strip(x + " ") == Strip(x)
  {
    StripLeftAppend(x, " ");
    if StripLeft(x) != "" {
      var z := StripLeft(x);
      assert (z + " ")[..|z|] == z;
    }
  }

  lemma {:induction false} JoinPrefix(words: seq<string>, k: nat)
    requires k <= |words|
    ensures StartsWith(Join(" ", words), Join(" ", words[..k]))
    decreases k
  {
    if k == 0 {
      assert words[..0] == [];
    } else if k == 1 {
      assert words[..1] == [words[0]];
      if |words| > 1 {
        JoinCons(" ", words[0], words[1..]);
        assert [words[0]] + words[1..] == words;
      }
    } else {
      JoinPrefix(words[1..], k - 1);
      assert words[..k] == [words[0]] + words[1..][..k - 1];
      assert words == [words[0]] + words[1..];
      JoinCons(" ", words[0], words[1..][..k - 1]);
      JoinCons(" ", words[0], words[1..]);
    }
  }

  /**
   * The shortened title is the stripped text of the title's first `k`
   * space-separated words, where the next word would have reached 240
   * characters; those words are a prefix of the title.
   */
  lemma {:induction false} TruncatedTitleShape(name: string) returns (k: nat)
    ensures var words := Split(name, " ");
      && k <= |words|
      && TruncatedTitle(name) == Strip(Join(" ", words[..k]))
      && StartsWith(name, Join(" ", words[..k]))
      && (k < |words| ==> (if k == 0 then |words[0]| else |Join(" ", words[..k])| + 1 + |words[k]|) >= TitleBudget)
  {
    var words := Split(name, " ");
    k := GreedyTakes(words, "");
    assert "" + Spaced(words[..k]) == Spaced(words[..k]);
    SplitRoundTrip(name, " ");
    JoinPrefix(words, k);
    if k == 0 {
      assert words[..0] == [];
    } else {
      SpacedIsJoin(words[..k]);
      StripTrailingSpace(Join(" ", words[..k]));
    }
  }

  /** The shortened title is under 240 characters. */
  lemma {:induction false} TruncatedTitleShort(name: string)
    ensures |TruncatedTitle(name)| < TitleBudget
  {
    var words := Split(name, " ");
    var k := GreedyTakes(words, "");
    var g := Greedy(words, "");
    if k == 0 {
      assert words[..0] == [];
      assert g == "" + Spaced([]) == "";
    } else {
      StripBelowTrailingSpace(g);
    }
  }

  /** Stripping a text that ends in a space makes it strictly shorter. */
  lemma {:induction false} StripBelowTrailingSpace(g: string)
    requires |g| > 0 && IsSpace(g[|g| - 1])
    ensures |Strip(g)| < |g|
  {
    var i := StripLeftSlice(g);
    var l := StripLeft(g);
    var j := StripRightSlice(l);
    if i == 0 {
      assert l == g;
    }
  }

  /** A first word of 240 characters or more leaves nothing of the title. */
  lemma {:induction false} LongFirstWordEmpties(name: string)
    requires |Split(name, " ")[0]| >= TitleBudget
    ensures TruncatedTitle(name) == ""
  {
  }

  // ---------------------------------------------------------------------------
  // create_file_name
  // ---------------------------------------------------------------------------

  /**
   * The outcome of `create_file_name`, with what it leaves behind: the song's
   * title afterwards, how many calls were made, and the template and
   * `short` flag of the last call.
   */
  datatype Naming = Naming(outcome: Outcome<PathVal>, title: string, calls: nat,
                           lastTemplate: string, lastShort: bool)

  /** The path `format_query` produces for a template, with each segment stripped. */
  function FormattedPath(name: string, meta: SongMeta, t: string, ext: string, short: bool, slug: Slugify): PathVal
    requires |meta.artists| > 0
  {
    StripPath(ParsePath(Formatted(name, meta, t, true, Some(ext), short, slug).value))
  }

  /** How a title, a normalised template and the `short` flag become the path of a file. */
  type PathBuilder = (string, string, bool) -> PathVal

  /** The builder `create_file_name` uses: `format_query` on the song's metadata, then `FormattedPath`. */
  function Builder(meta: SongMeta, ext: string, slug: Slugify): PathBuilder
    requires |meta.artists| > 0
  {
    (name, t, short) => FormattedPath(name, meta, t, ext, short, slug)
  }

  /** A file name that fits: the path itself, or its restricted form. */
  function Leaf(file: PathVal, name: string, t: string, restrict: bool, short: bool, sf: SanitizeFilename): (r: Naming)
    requires |Name(file)| < 255
    ensures r.calls == 1 && r.title == name && r.lastTemplate == t && r.lastShort == short
    ensures r.outcome.Ok? && !restrict ==> |Name(r.outcome.value)| < 255
    ensures r.outcome.Err? ==> restrict && r.outcome.error != TooLong
  {
    Naming(if restrict then RestrictFilename(file, sf) else Ok(file), name, 1, t, short)
  }

  /**
   * `create_file_name`: the first of the template, the short template,
   * "{artist} - {title}" and "{title}" whose file name is shorter than 255
   * characters, restricted when asked; the title is shortened on the way
   * when it is over 240 characters.
   */
  function FileNameFor(name: string, template: string, restrict: bool, short: bool, build: PathBuilder,
                       sf: SanitizeFilename): (r: Naming)
    decreases (if short then 0 else 1), Stage(NormalizeTemplate(template))
  {
    var t := NormalizeTemplate(template);
    var file := build(name, t, short);
    FallbacksNormal();
    if |Name(file)| < 255 then Leaf(file, name, t, restrict, short, sf)
    else if short then
      if t == ArtistTitleTemplate then
        var title := if |name| > TitleBudget then TruncatedTitle(name) else name;
        var n := FileNameFor(title, TitleTemplate, restrict, short, build, sf);
        n.(calls := n.calls + 1)
      else if t == TitleTemplate then
        Naming(Err(TooLong), name, 1, t, short)
      else
        var n := FileNameFor(name, ArtistTitleTemplate, restrict, short, build, sf);
        n.(calls := n.calls + 1)
    else
      var n := FileNameFor(name, template, restrict, true, build, sf);
      n.(calls := n.calls + 1)
  }

  /**
   * A name that is returned unrestricted is under 255 characters; the only
   * failure besides those of restriction is "too long", reported once the
   * short "{title}" template has been tried.
   */
  lemma {:induction false} FileNameOutcome(name: string, template: string, restrict: bool, short: bool, build: PathBuilder,
                                         sf: SanitizeFilename)
    ensures var r := FileNameFor(name, template, restrict, short, build, sf);
      && (r.outcome.Ok? && !restrict ==> |Name(r.outcome.value)| < 255)
      && (r.outcome == Err(TooLong) ==> r.lastShort && r.lastTemplate == TitleTemplate)
      && (r.outcome.Err? && r.outcome.error != TooLong ==> restrict)
    decreases (if short then 0 else 1), Stage(NormalizeTemplate(template))
  {
    var t := NormalizeTemplate(template);
    var file := build(name, t, short);
    FallbacksNormal();
    if |Name(file)| < 255 {
    } else if short {
      if t == ArtistTitleTemplate {
        var title := if |name| > TitleBudget then TruncatedTitle(name) else name;
        FileNameOutcome(title, TitleTemplate, restrict, short, build, sf);
      } else if t != TitleTemplate {
        FileNameOutcome(name, ArtistTitleTemplate, restrict, short, build, sf);
      }
    } else {
      FileNameOutcome(name, template, restrict, true, build, sf);
    }
  }

  /**
   * Each call either settles or moves on to the short form or to the next
   * fallback template, so there are at most four calls.
   */
  lemma {:induction false} FileNameCallsBounded(name: string, template: string, restrict: bool, short: bool, build: PathBuilder,
                                         sf: SanitizeFilename)
    ensures var r := FileNameFor(name, template, restrict, short, build, sf);
      1 <= r.calls <= (if short then 1 else 2) + Stage(NormalizeTemplate(template)) <= 4
    decreases (if short then 0 else 1), Stage(NormalizeTemplate(template))
  {
    var t := NormalizeTemplate(template);
    var file := build(name, t, short);
    FallbacksNormal();
    if |Name(file)| < 255 {
    } else if short {
      if t == ArtistTitleTemplate {
        var title := if |name| > TitleBudget then TruncatedTitle(name) else name;
        FileNameCallsBounded(title, TitleTemplate, restrict, short, build, sf);
      } else if t != TitleTemplate {
        FileNameCallsBounded(name, ArtistTitleTemplate, restrict, short, build, sf);
      }
    } else {
      FileNameCallsBounded(name, template, restrict, true, build, sf);
    }
  }

  /** The song's title is left alone, or shortened when it is over 240 characters. */
  lemma {:induction false} FileNameTitle(name: string, template: string, restrict: bool, short: bool, build: PathBuilder,
                                         sf: SanitizeFilename)
    ensures var r := FileNameFor(name, template, restrict, short, build, sf);
      r.title == name || (|name| > TitleBudget && r.title == TruncatedTitle(name))
    decreases (if short then 0 else 1), Stage(NormalizeTemplate(template))
  {
    var t := NormalizeTemplate(template);
    var file := build(name, t, short);
    FallbacksNormal();
    if |Name(file)| < 255 {
    } else if short {
      if t == ArtistTitleTemplate {
        var title := if |name| > TitleBudget then TruncatedTitle(name) else name;
        FileNameTitle(title, TitleTemplate, restrict, short, build, sf);
      } else if t != TitleTemplate {
        FileNameTitle(name, ArtistTitleTemplate, restrict, short, build, sf);
      }
    } else {
      FileNameTitle(name, template, restrict, true, build, sf);
    }
  }

  /** The template rewriting at the head of `create_file_name`, step by step. */
  method NormalizeSteps(template: string) returns (t: string)
    ensures t == NormalizeTemplate(template)
  {
    t := template;
    if !HasVar(t) && t != "" {
      t := t + "/" + DefaultTemplate;
    }
    if t == "" {
      t := DefaultTemplate;
    }
    if EndsWith(t, "/") || EndsWith(t, "\\\\") {
      t := t + "/" + DefaultTemplate;
    }
    if !EndsWith(t, ExtSuffix) {
      t := t + ExtSuffix;
    }
  }

  /** Formatting, parsing the result as a path and stripping its segments. */
  method BuildPath(name: string, meta: SongMeta, t: string, ext: string, short: bool, slug: Slugify)
    returns (file: PathVal)
    requires |meta.artists| > 0
    ensures file == FormattedPath(name, meta, t, ext, short, slug)
    ensures file == Builder(meta, ext, slug)(name, t, short)
  {
    var formatted := FormatQuery(name, meta, t, true, Some(ext), short, slug);
    var parsed := ParsePath(formatted.value);
    var parts := StripParts(parsed.parts);
    file := PathVal(parsed.absolute, parts);
  }

  /**
   * `create_file_name` on a song object: the title it may shorten is
   * written back to `song.name`; `build` stands for the `format_query` call
   * on the song (`Builder`, which `BuildPath` computes).
   */
  method CreateFileName(song: Song, template: string, restrict: bool, short: bool, build: PathBuilder,
                        sf: SanitizeFilename) returns (r: Outcome<PathVal>)
    modifies song
    ensures var n := FileNameFor(old(song.name), template, restrict, short, build, sf);
      r == n.outcome && song.name == n.title
    decreases (if short then 0 else 1), Stage(NormalizeTemplate(template))
  {
    var t := NormalizeSteps(template);
    var file := build(song.name, t, short);
    FallbacksNormal();
    if |Name(file)| < 255 {
      if restrict {
        return RestrictFilename(file, sf);
      }
      return Ok(file);
    }
    if short {
      if t == ArtistTitleTemplate {
        if |song.name| > TitleBudget {
          var newName := TruncateTitle(song.name);
          song.name := newName;
        }
        r := CreateFileName(song, TitleTemplate, restrict, short, build, sf);
        return;
      }
      if t == TitleTemplate {
        return Err(TooLong);
      }
      r := CreateFileName(song, ArtistTitleTemplate, restrict, short, build, sf);
      return;
    }
    r := CreateFileName(song, template, restrict, true, build, sf);
  }
}
