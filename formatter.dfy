/**
 * The template engine: song titles, the file-name character filter, and the
 * substitution of `{placeholder}` tokens by a song's metadata.
 */
module Formatter {
  import opened Wrappers
  import opened Strings
  import opened Numbers
  import opened Foreign

  /** The placeholder tokens a template may use. */
  const Vars: seq<string> := [
    "{title}", "{artists}", "{artist}", "{album}", "{album-artist}", "{genre}",
    "{disc-number}", "{disc-count}", "{duration}", "{year}", "{original-date}",
    "{track-number}", "{tracks-count}", "{isrc}", "{track-id}", "{publisher}",
    "{list-length}", "{list-position}", "{list-name}", "{output-ext}"]

  /** The same tokens in the order the formatter substitutes them. */
  const FormatKeys: seq<string> := [
    "{title}", "{artists}", "{artist}", "{album}", "{album-artist}", "{genre}",
    "{disc-number}", "{disc-count}", "{duration}", "{year}", "{original-date}",
    "{track-number}", "{tracks-count}", "{isrc}", "{track-id}", "{publisher}",
    "{output-ext}", "{list-name}", "{list-position}", "{list-length}"]

  /** ".{output-ext}": the ending of every file-name template. */
  const ExtSuffix := "." + "{output-ext}"

  /** "{artists} - {title}.{output-ext}". */
  const DefaultTemplate := "{artists}" + " - " + "{title}" + ExtSuffix

  /** "{artist} - {title}": what a search template without placeholders is prefixed with. */
  const SearchPrefix := "{artist}" + " - " + "{title}"

  /** The metadata of a song that the formatter and the matcher read; none of it changes. */
  datatype SongMeta = SongMeta(
    artists: seq<string>,          // the primary artist first
    artist: string,                // the primary artist
    albumName: string,
    albumArtist: string,
    genres: seq<string>,
    discNumber: int,
    discCount: int,
    duration: int,                 // seconds
    year: int,
    date: string,
    trackNumber: int,
    tracksCount: int,
    isrc: string,
    songId: string,
    publisher: string,
    listLength: Option<int>,       // the playlist context, absent outside a playlist
    listPosition: Option<int>,
    listName: Option<string>)

  /** A song: its title is the one field the file-name builder rewrites. */
  class Song {
    var name: string
    const meta: SongMeta

    constructor (name: string, meta: SongMeta)
      ensures this.name == name && this.meta == meta
    {
      this.name := name;
      this.meta := meta;
    }
  }

  // ---------------------------------------------------------------------------
  // create_song_title
  // ---------------------------------------------------------------------------

  /** "Artist1, Artist2 - Song Name", or the bare name when there are no artists. */
  function CreateSongTitle(name: string, artists: seq<string>): (r: string)
    ensures |artists| == 0 ==> r == name
    ensures |artists| > 0 ==> r == Join(", ", artists) + " - " + name
    ensures EndsWith(r, name)
  {
    if |artists| >= 1 then Join(", ", artists) + " - " + name else name
  }

  // ---------------------------------------------------------------------------
  // sanitize_string
  // ---------------------------------------------------------------------------

  /** The characters `sanitize_string` deletes: / ? \ * | < > */
  predicate Dropped(c: char) {
    c == '/' || c == '?' || c == '\\' || c == '*' || c == '|' || c == '<' || c == '>'
  }

  /** A character that cannot survive `sanitize_string`. */
  predicate Unsafe(c: char) {
    Dropped(c) || c == '"' || c == ':'
  }

  /** A string `sanitize_string` leaves as it is. */
  predicate Safe(s: string) {
    forall i | 0 <= i < |s| :: !Unsafe(s[i])
  }

  /** The characters of `s` that are not dropped, in order. */
  function KeepAllowed(s: string): string
    decreases |s|
  {
    if |s| == 0 then "" else (if Dropped(s[0]) then "" else [s[0]]) + KeepAllowed(s[1..])
  }

  /** `sanitize_string`: drop the forbidden characters, then `"` becomes `'` and `:` becomes `-`. */
  function SanitizeString(s: string): string {
    Replace(Replace(KeepAllowed(s), "\"", "'"), ":", "-")
  }

  /** What `sanitize_string` makes of a single character. */
  function SanitizedChar(c: char): (r: string)
    ensures |r| <= 1 && Safe(r)
  {
    if Dropped(c) then "" else if c == '"' then "'" else if c == ':' then "-" else [c]
  }

  lemma {:induction false} ReplaceCharStep(s: string, c: char, rep: string)
    requires |s| > 0
    ensures Replace(s, [c], rep) == (if s[0] == c then rep else [s[0]]) + Replace(s[1..], [c], rep)
  {
    assert StartsWith(s, [c]) <==> s[0] == c;
  }

  /** `sanitize_string` works character by character. */
  lemma {:induction false} SanitizeStep(s: string)
    requires |s| > 0
    ensures SanitizeString(s) == SanitizedChar(s[0]) + SanitizeString(s[1..])
  {
    var k := KeepAllowed(s[1..]);
    if !Dropped(s[0]) {
      assert KeepAllowed(s) == [s[0]] + k;
      ReplaceCharStep([s[0]] + k, '"', "'");
      assert ([s[0]] + k)[1..] == k;
      var q := if s[0] == '"' then '\'' else s[0];
      var r1 := Replace(k, "\"", "'");
      assert Replace([s[0]] + k, "\"", "'") == [q] + r1;
      ReplaceCharStep([q] + r1, ':', "-");
      assert ([q] + r1)[1..] == r1;
      assert SanitizeString(s) == SanitizedChar(s[0]) + Replace(r1, ":", "-");
    } else {
      assert KeepAllowed(s) == k;
    }
  }

  /** The output holds none of / ? \ * | < > " : and is no longer than the input. */
  lemma {:induction false} SanitizeIsSafe(s: string)
    ensures Safe(SanitizeString(s))
    ensures |SanitizeString(s)| <= |s|
    decreases |s|
  {
    if |s| > 0 {
      SanitizeStep(s);
      SanitizeIsSafe(s[1..]);
    }
  }

  /** Characters other than / ? \ * | < > " : pass through unchanged, so sanitizing twice is sanitizing once. */
  lemma {:induction false} SanitizeKeepsSafe(s: string)
    requires Safe(s)
    ensures SanitizeString(s) == s
    decreases |s|
  {
    if |s| > 0 {
      SanitizeStep(s);
      SanitizeKeepsSafe(s[1..]);
      assert [s[0]] + s[1..] == s;
    }
  }

  lemma {:induction false} SanitizeIdempotent(s: string)
    ensures SanitizeString(SanitizeString(s)) == SanitizeString(s)
  {
    SanitizeIsSafe(s);
    SanitizeKeepsSafe(SanitizeString(s));
  }

  // ---------------------------------------------------------------------------
  // format_query
  // ---------------------------------------------------------------------------

  /** A placeholder token: `{`, a body without braces, `}`. */
  predicate Braced(t: string) {
    |t| >= 2 && t[0] == '{' && t[|t| - 1] == '}'
    && forall k | 0 < k < |t| - 1 :: t[k] != '{' && t[k] != '}'
  }

  /** One placeholder token occurs inside another only when they are the same token. */
  lemma {:induction false} BracedContains(a: string, b: string)
    requires Braced(a) && Braced(b) && Contains(a, b)
    ensures a == b
  {
    ContainsIffOccurs(a, b);
    var i :| OccursAt(a, b, i);
    assert a[i] == b[0] == '{';
    assert i == 0;
    assert a[|b| - 1] == b[|b| - 1] == '}';
    assert |b| == |a|;
    assert a == a[..|b|];
  }

  /** Length, second and second-to-last character: enough to tell the keys apart. */
  function Signature(t: string): (int, char, char)
    requires |t| >= 2
  {
    (|t|, t[1], t[|t| - 2])
  }

  lemma {:induction false} FormatKeysBraced()
    ensures forall i | 0 <= i < |FormatKeys| :: Braced(FormatKeys[i])
    ensures forall i, j | 0 <= i < j < |FormatKeys| :: FormatKeys[i] != FormatKeys[j]
  {
    FormatKeysAreBraced();
    FormatKeysSigned();
  }

  /** Every key of a formats list built on `FormatKeys` is non-empty. */
  lemma {:induction false} SubstitutionKeysNonEmpty(name: string, meta: SongMeta, sanitize: bool, ext: Option<string>,
                                                     short: bool, slug: Slugify)
    requires |meta.artists| > 0
    ensures var fs := Substitutions(name, meta, sanitize, ext, short, slug);
      forall i | 0 <= i < |fs| :: |fs[i].0| > 0 && Braced(fs[i].0)
  {
    FormatKeysAreBraced();
  }

  /** The `i`-th key of the formats list occurs nowhere else in it. */
  lemma {:induction false} SubstitutionKeyUnique(name: string, meta: SongMeta, sanitize: bool, ext: Option<string>,
                                                 short: bool, slug: Slugify, i: int)
    requires |meta.artists| > 0 && 0 <= i < |FormatKeys|
    ensures var fs := Substitutions(name, meta, sanitize, ext, short, slug);
      forall j | 0 <= j < |fs| && j != i :: fs[j].0 != fs[i].0
  {
    FormatKeysSigned();
  }

  lemma {:induction false} FormatKeysAreBraced()
    ensures forall i | 0 <= i < |FormatKeys| :: Braced(FormatKeys[i])
  {
    FirstKeysBraced();
    MiddleKeysBraced();
    LastKeysBraced();
  }

  lemma {:induction false} FirstKeysBraced()
    ensures forall i | 0 <= i < 7 :: Braced(FormatKeys[i])
  {
  }

  lemma {:induction false} MiddleKeysBraced()
    ensures forall i | 7 <= i < 14 :: Braced(FormatKeys[i])
  {
  }

  lemma {:induction false} LastKeysBraced()
    ensures forall i | 14 <= i < 20 :: Braced(FormatKeys[i])
  {
  }

  const KeySignatures: seq<(int, char, char)> :=
    [(7, 't', 'e'), (9, 'a', 's'), (8, 'a', 't'), (7, 'a', 'm'), (14, 'a', 't'), (7, 'g', 'e'),
     (13, 'd', 'r'), (12, 'd', 't'), (10, 'd', 'n'), (6, 'y', 'r'), (15, 'o', 'e'),
     (14, 't', 'r'), (14, 't', 't'), (6, 'i', 'c'), (10, 't', 'd'), (11, 'p', 'r'),
     (12, 'o', 't'), (11, 'l', 'e'), (15, 'l', 'n'), (13, 'l', 'h')]

  lemma {:induction false} FormatKeysSigned()
    ensures forall i, j | 0 <= i < j < |FormatKeys| :: FormatKeys[i] != FormatKeys[j]
  {
    KeySignaturesMatch();
    KeySignaturesDistinct();
    forall i, j | 0 <= i < j < |FormatKeys| ensures FormatKeys[i] != FormatKeys[j] {
      assert Signature(FormatKeys[i]) == KeySignatures[i] != KeySignatures[j] == Signature(FormatKeys[j]);
    }
  }

  lemma {:induction false} KeySignaturesMatch()
    ensures |KeySignatures| == |FormatKeys|
    ensures forall i | 0 <= i < |FormatKeys| :: |FormatKeys[i]| >= 2 && Signature(FormatKeys[i]) == KeySignatures[i]
  {
  }

  lemma {:induction false} KeySignaturesDistinct()
    ensures forall i, j | 0 <= i < j < |KeySignatures| :: KeySignatures[i] != KeySignatures[j]
  {
  }

  /** A string with no `{` holds no placeholder token. */
  lemma {:induction false} NoBraceNoToken(s: string, key: string)
    requires '{' !in s && Braced(key)
    ensures !Contains(s, key)
  {
    NotContainsWithoutFirst(s, key);
  }

  /** Python's `str(value)` for a field: a missing value prints as "None". */
  function ValueStr(v: Option<string>): string {
    if v.Some? then v.value else "None"
  }

  function OptIntStr(v: Option<int>): string {
    if v.Some? then IntToStr(v.value) else "None"
  }

  /** The playlist placeholders, each with whether its value is missing, in the order they are checked. */
  function ListKeys(meta: SongMeta): seq<(string, bool)> {
    [("{list-length}", meta.listLength.None?),
     ("{list-position}", meta.listPosition.None?),
     ("{list-name}", meta.listName.None?)]
  }

  /** A missing playlist placeholder is deleted from the template, then `//` becomes `/`. */
  function PruneKey(t: string, key: string, missing: bool): string
    requires |key| > 0
  {
    if Contains(t, key) && missing then Replace(Replace(t, key, ""), "//", "/") else t
  }

  /** `PruneKey` for each key in turn. */
  function Prune(t: string, keys: seq<(string, bool)>): string
    requires forall i | 0 <= i < |keys| :: |keys[i].0| > 0
    decreases |keys|
  {
    if |keys| == 0 then t
    else
      var last := keys[|keys| - 1];
      PruneKey(Prune(t, keys[..|keys| - 1]), last.0, last.1)
  }

  /** A template reduced to the extension alone becomes the default template. */
  function FixExtOnly(t: string): string {
    if t == "/" + ExtSuffix || t == ExtSuffix then DefaultTemplate else t
  }

  /** The artists whose slug does not occur in the slug of the title, in order. */
  function KeptArtists(artists: seq<string>, title: string, slug: Slugify): (r: seq<string>)
    ensures forall a | a in r :: a in artists && !Contains(slug(title), slug(a))
    ensures forall a | a in artists && !Contains(slug(title), slug(a)) :: a in r
    decreases |artists|
  {
    if |artists| == 0 then []
    else
      (if Contains(slug(title), slug(artists[0])) then [] else [artists[0]])
      + KeptArtists(artists[1..], title, slug)
  }

  /**
   * The artists named by `{artists}`: those not already in the title, with
   * the primary artist always first.
   */
  function DedupArtists(title: string, artists: seq<string>, slug: Slugify): (r: seq<string>)
    requires |artists| > 0
    ensures |r| > 0 && r[0] == artists[0]
    ensures forall i | 1 <= i < |r| :: r[i] in artists && !Contains(slug(title), slug(r[i]))
    ensures forall a | a in artists && !Contains(slug(title), slug(a)) :: a in r
  {
    var kept := KeptArtists(artists, title, slug);
    if |kept| == 0 || kept[0] != artists[0] then [artists[0]] + kept else kept
  }

  /** The value of the `i`-th key of `FormatKeys`; `None` where Python has `None`. */
  function FieldValue(i: int, name: string, meta: SongMeta, artistsText: string, ext: Option<string>, short: bool)
    : Option<string>
    requires |meta.artists| > 0 && 0 <= i < |FormatKeys|
  {
    if i == 0 then Some(name)                                                   // {title}
    else if i == 1 then Some(if short then meta.artists[0] else artistsText)   // {artists}
    else if i == 2 then Some(meta.artists[0])                                   // {artist}
    else if i == 3 then Some(meta.albumName)                                    // {album}
    else if i == 4 then Some(meta.albumArtist)                                  // {album-artist}
    else if i == 5 then Some(if |meta.genres| > 0 then meta.genres[0] else "")  // {genre}
    else if i == 6 then Some(IntToStr(meta.discNumber))                         // {disc-number}
    else if i == 7 then Some(IntToStr(meta.discCount))                          // {disc-count}
    else if i == 8 then Some(IntToStr(meta.duration))                           // {duration}
    else if i == 9 then Some(IntToStr(meta.year))                               // {year}
    else if i == 10 then Some(meta.date)                                        // {original-date}
    else if i == 11 then Some(ZFill(IntToStr(meta.trackNumber), 2))             // {track-number}
    else if i == 12 then Some(IntToStr(meta.tracksCount))                       // {tracks-count}
    else if i == 13 then Some(meta.isrc)                                        // {isrc}
    else if i == 14 then Some(meta.songId)                                      // {track-id}
    else if i == 15 then Some(meta.publisher)                                   // {publisher}
    else if i == 16 then ext                                                    // {output-ext}
    else if i == 17 then meta.listName                                          // {list-name}
    else if i == 18 then                                                        // {list-position}
      Some(ZFill(OptIntStr(meta.listPosition), |OptIntStr(meta.listLength)|))
    else if meta.listLength.Some? then Some(IntToStr(meta.listLength.value))    // {list-length}
    else None
  }

  /** The formats dictionary: each key with its value, in substitution order. */
  function FieldValues(name: string, meta: SongMeta, artistsText: string, ext: Option<string>, short: bool)
    : (fs: seq<(string, Option<string>)>)
    requires |meta.artists| > 0
    ensures |fs| == |FormatKeys| && forall i | 0 <= i < |fs| :: fs[i].0 == FormatKeys[i]
  {
    seq(|FormatKeys|, i requires 0 <= i < |FormatKeys| =>
      (FormatKeys[i], FieldValue(i, name, meta, artistsText, ext, short)))
  }

  function SanitizeValue(v: Option<string>): Option<string> {
    if v.Some? then Some(SanitizeString(v.value)) else None
  }

  /** Every present value passed through `sanitize_string`; missing values stay missing. */
  function SanitizeValues(fs: seq<(string, Option<string>)>): (r: seq<(string, Option<string>)>)
    ensures |r| == |fs|
    ensures forall i | 0 <= i < |fs| :: r[i].0 == fs[i].0 && r[i].1 == SanitizeValue(fs[i].1)
  {
    seq(|fs|, i requires 0 <= i < |fs| => (fs[i].0, SanitizeValue(fs[i].1)))
  }

  /** Each key replaced by its value in turn, the first key first. */
  function SubstituteAll(t: string, fs: seq<(string, Option<string>)>): string
    requires forall i | 0 <= i < |fs| :: |fs[i].0| > 0
    decreases |fs|
  {
    if |fs| == 0 then t
    else
      var last := fs[|fs| - 1];
      Replace(SubstituteAll(t, fs[..|fs| - 1]), last.0, ValueStr(last.1))
  }

  /** The text `{artists}` stands for outside short mode. */
  function ArtistsText(name: string, meta: SongMeta, slug: Slugify): string
    requires |meta.artists| > 0
  {
    Join(", ", DedupArtists(name, meta.artists, slug))
  }

  /** The value substituted for the `i`-th key, sanitized when asked. */
  function FinalValue(i: int, name: string, meta: SongMeta, artistsText: string, sanitize: bool,
                      ext: Option<string>, short: bool): Option<string>
    requires |meta.artists| > 0 && 0 <= i < |FormatKeys|
  {
    var v := FieldValue(i, name, meta, artistsText, ext, short);
    if sanitize then SanitizeValue(v) else v
  }

  /** The (key, value) pairs `format_query` substitutes, sanitized when asked. */
  function Substitutions(name: string, meta: SongMeta, sanitize: bool, ext: Option<string>, short: bool,
                         slug: Slugify): (fs: seq<(string, Option<string>)>)
    requires |meta.artists| > 0
    ensures |fs| == |FormatKeys|
    ensures forall i | 0 <= i < |fs| ::
      fs[i] == (FormatKeys[i], FinalValue(i, name, meta, ArtistsText(name, meta, slug), sanitize, ext, short))
  {
    var fs := FieldValues(name, meta, ArtistsText(name, meta, slug), ext, short);
    if sanitize then SanitizeValues(fs) else fs
  }

  /** `format_query`: the template with every placeholder replaced by the song's value. */
  function Formatted(name: string, meta: SongMeta, template: string, sanitize: bool,
                     ext: Option<string>, short: bool, slug: Slugify): (r: Outcome<string>)
    requires |meta.artists| > 0
    ensures r.Err? <==> Contains(template, "{output-ext}") && ext.None?
    ensures r.Err? ==> r.error == MissingExtension
  {
    if Contains(template, "{output-ext}") && ext.None? then Err(MissingExtension)
    else Ok(SubstituteAll(FixExtOnly(Prune(template, ListKeys(meta))),
                          Substitutions(name, meta, sanitize, ext, short, slug)))
  }

  /** The loop over the playlist placeholders. */
  method PruneTemplate(template: string, keys: seq<(string, bool)>) returns (t: string)
    requires forall i | 0 <= i < |keys| :: |keys[i].0| > 0
    ensures t == Prune(template, keys)
  {
    t := template;
    for i := 0 to |keys|
      invariant t == Prune(template, keys[..i])
    {
      var key := keys[i].0;
      if Contains(t, key) && keys[i].1 {
        t := Replace(t, key, "");
        t := Replace(t, "//", "/");
      }
      assert keys[..i + 1][..i] == keys[..i];
    }
    assert keys[..|keys|] == keys;
  }

  /** The loop that sanitizes the values of the formats dictionary in place. */
  method SanitizeFormats(original: seq<(string, Option<string>)>) returns (formats: seq<(string, Option<string>)>)
    ensures formats == SanitizeValues(original)
  {
    formats := original;
    for i := 0 to |formats|
      invariant |formats| == |original|
      invariant forall j | 0 <= j < i :: formats[j] == (original[j].0, SanitizeValue(original[j].1))
      invariant forall j | i <= j < |original| :: formats[j] == original[j]
    {
      if formats[i].1.Some? {
        formats := formats[i := (formats[i].0, Some(SanitizeString(formats[i].1.value)))];
      }
    }
    assert formats == SanitizeValues(original);
  }

  /** The loop that replaces every key by its value. */
  method Substitute(template: string, formats: seq<(string, Option<string>)>) returns (t: string)
    requires forall i | 0 <= i < |formats| :: |formats[i].0| > 0
    ensures t == SubstituteAll(template, formats)
  {
    t := template;
    for i := 0 to |formats|
      invariant t == SubstituteAll(template, formats[..i])
    {
      t := Replace(t, formats[i].0, ValueStr(formats[i].1));
      assert formats[..i + 1][..i] == formats[..i];
    }
    assert formats[..|formats|] == formats;
  }

  method FormatQuery(name: string, meta: SongMeta, template: string, sanitize: bool,
                     ext: Option<string>, short: bool, slug: Slugify) returns (r: Outcome<string>)
    requires |meta.artists| > 0
    ensures r == Formatted(name, meta, template, sanitize, ext, short, slug)
  {
    if Contains(template, "{output-ext}") && ext.None? {
      return Err(MissingExtension);
    }
    var t := PruneTemplate(template, ListKeys(meta));
    if t == "/" + ExtSuffix || t == ExtSuffix {
      t := DefaultTemplate;
    }
    assert t == FixExtOnly(Prune(template, ListKeys(meta)));
    var formats := FormatsFor(name, meta, sanitize, ext, short, slug);
    SubstitutionKeysNonEmpty(name, meta, sanitize, ext, short, slug);
    t := Substitute(t, formats);
    return Ok(t);
  }

  /** The formats dictionary of `format_query`, sanitized when asked. */
  method FormatsFor(name: string, meta: SongMeta, sanitize: bool, ext: Option<string>, short: bool, slug: Slugify)
    returns (formats: seq<(string, Option<string>)>)
    requires |meta.artists| > 0
    ensures formats == Substitutions(name, meta, sanitize, ext, short, slug)
  {
    var artists := ArtistsList(name, meta.artists, slug);
    formats := FieldValues(name, meta, Join(", ", artists), ext, short);
    if sanitize {
      formats := SanitizeFormats(formats);
    }
  }

  /** The artist list of `format_query`: those not in the title, with the primary artist put back first. */
  method ArtistsList(name: string, artists: seq<string>, slug: Slugify) returns (r: seq<string>)
    requires |artists| > 0
    ensures r == DedupArtists(name, artists, slug)
  {
    r := KeptArtists(artists, name, slug);
    if |r| == 0 || r[0] != artists[0] {
      r := [artists[0]] + r;
    }
  }

  // ---------------------------------------------------------------------------
  // Properties of format_query
  // ---------------------------------------------------------------------------

  lemma {:induction false} PruneAbsent(t: string, keys: seq<(string, bool)>)
    requires forall i | 0 <= i < |keys| :: |keys[i].0| > 0 && !(Contains(t, keys[i].0) && keys[i].1)
    ensures Prune(t, keys) == t
    decreases |keys|
  {
    if |keys| > 0 {
      PruneAbsent(t, keys[..|keys| - 1]);
    }
  }

  /** Pruning only ever shortens the template. */
  lemma {:induction false} PruneShrinks(t: string, keys: seq<(string, bool)>)
    requires forall i | 0 <= i < |keys| :: |keys[i].0| > 0
    ensures |Prune(t, keys)| <= |t|
    decreases |keys|
  {
    if |keys| > 0 {
      PruneShrinks(t, keys[..|keys| - 1]);
      var p := Prune(t, keys[..|keys| - 1]);
      var key := keys[|keys| - 1].0;
      ReplaceShrinks(p, key, "");
      ReplaceShrinks(Replace(p, key, ""), "//", "/");
    }
  }

  lemma {:induction false} SubstituteAbsent(t: string, fs: seq<(string, Option<string>)>)
    requires forall i | 0 <= i < |fs| :: |fs[i].0| > 0 && !Contains(t, fs[i].0)
    ensures SubstituteAll(t, fs) == t
    decreases |fs|
  {
    if |fs| > 0 {
      SubstituteAbsent(t, fs[..|fs| - 1]);
      ReplaceAbsent(t, fs[|fs| - 1].0, ValueStr(fs[|fs| - 1].1));
    }
  }

  lemma {:induction false} SubstituteAppend(t: string, a: seq<(string, Option<string>)>, b: seq<(string, Option<string>)>)
    requires forall i | 0 <= i < |a| :: |a[i].0| > 0
    requires forall i | 0 <= i < |b| :: |b[i].0| > 0
    ensures SubstituteAll(t, a + b) == SubstituteAll(SubstituteAll(t, a), b)
    decreases |b|
  {
    if |b| == 0 {
      assert a + b == a;
    } else {
      SubstituteAppend(t, a, b[..|b| - 1]);
      assert (a + b)[..|a + b| - 1] == a + b[..|b| - 1];
    }
  }

  /** A template without any `{` is returned as it is. */
  lemma {:induction false} NoPlaceholderUnchanged(name: string, meta: SongMeta, template: string, sanitize: bool,
                               ext: Option<string>, short: bool, slug: Slugify)
    requires |meta.artists| > 0 && '{' !in template
    ensures Formatted(name, meta, template, sanitize, ext, short, slug) == Ok(template)
  {
    assert Braced("{output-ext}");
    NoBraceNoToken(template, "{output-ext}");
    var keys := ListKeys(meta);
    ListKeysBraced(meta);
    forall i | 0 <= i < |keys| ensures !Contains(template, keys[i].0) {
      NoBraceNoToken(template, keys[i].0);
    }
    PruneAbsent(template, keys);
    assert ExtSuffix[1] == '{' && ("/" + ExtSuffix)[2] == '{';
    assert FixExtOnly(template) == template;
    var fs := Substitutions(name, meta, sanitize, ext, short, slug);
    SubstitutionKeysNonEmpty(name, meta, sanitize, ext, short, slug);
    forall i | 0 <= i < |fs| ensures !Contains(template, fs[i].0) {
      NoBraceNoToken(template, fs[i].0);
    }
    SubstituteAbsent(template, fs);
  }

  /**
   * Substituting into a template that is exactly the `i`-th key gives that
   * key's value, provided the keys are distinct placeholder tokens and
   * neither that value nor a later one holds a `{`.
   */
  lemma {:induction false} SubstituteSingle(fs: seq<(string, Option<string>)>, i: int)
    requires 0 <= i < |fs|
    requires forall j | 0 <= j < |fs| :: |fs[j].0| > 0 && Braced(fs[j].0)
    requires forall j | 0 <= j < |fs| && j != i :: fs[j].0 != fs[i].0
    requires forall j | i <= j < |fs| :: '{' !in ValueStr(fs[j].1)
    ensures SubstituteAll(fs[i].0, fs) == ValueStr(fs[i].1)
  {
    SubstituteUpTo(fs, i);
    assert '{' !in ValueStr(fs[i].1);
    SubstituteThrough(fs[i].0, fs, i + 1, ValueStr(fs[i].1));
  }

  /** Once the text has no `{`, the remaining substitutions leave it alone. */
  lemma {:induction false} SubstituteThrough(t: string, fs: seq<(string, Option<string>)>, k: nat, v: string)
    requires k <= |fs|
    requires forall j | 0 <= j < |fs| :: |fs[j].0| > 0 && Braced(fs[j].0)
    requires SubstituteAll(t, fs[..k]) == v && '{' !in v
    ensures SubstituteAll(t, fs) == v
  {
    KeysOfSlices(fs, k);
    SubstituteAfter(v, fs[k..]);
    SubstituteAppend(t, fs[..k], fs[k..]);
    assert fs[..k] + fs[k..] == fs;
  }

  /** Both halves of a list of placeholder keys are lists of placeholder keys. */
  lemma {:induction false} KeysOfSlices(fs: seq<(string, Option<string>)>, k: nat)
    requires k <= |fs|
    requires forall j | 0 <= j < |fs| :: |fs[j].0| > 0 && Braced(fs[j].0)
    ensures forall j | 0 <= j < |fs[..k]| :: |fs[..k][j].0| > 0 && Braced(fs[..k][j].0)
    ensures forall j | 0 <= j < |fs[k..]| :: |fs[k..][j].0| > 0 && Braced(fs[k..][j].0)
  {
    forall j | 0 <= j < |fs[k..]| ensures |fs[k..][j].0| > 0 && Braced(fs[k..][j].0) {
      assert fs[k..][j] == fs[k + j];
    }
  }

  lemma {:induction false} SubstituteUpTo(fs: seq<(string, Option<string>)>, i: int)
    requires 0 <= i < |fs|
    requires forall j | 0 <= j < |fs| :: |fs[j].0| > 0 && Braced(fs[j].0)
    requires forall j | 0 <= j < |fs| && j != i :: fs[j].0 != fs[i].0
    ensures SubstituteAll(fs[i].0, fs[..i + 1]) == ValueStr(fs[i].1)
  {
    var key := fs[i].0;
    var v := ValueStr(fs[i].1);
    var before := fs[..i];
    forall j | 0 <= j < |before| ensures !Contains(key, before[j].0) {
      if Contains(key, fs[j].0) {
        BracedContains(key, fs[j].0);
      }
    }
    SubstituteAbsent(key, before);
    assert fs[..i + 1][..i] == before;
    assert Replace(key, key, v) == v + Replace("", key, v);
  }

  lemma {:induction false} SubstituteAfter(v: string, rest: seq<(string, Option<string>)>)
    requires forall j | 0 <= j < |rest| :: |rest[j].0| > 0 && Braced(rest[j].0)
    requires '{' !in v
    ensures SubstituteAll(v, rest) == v
  {
    forall j | 0 <= j < |rest| ensures !Contains(v, rest[j].0) {
      NoBraceNoToken(v, rest[j].0);
    }
    SubstituteAbsent(v, rest);
  }

  /** A lone placeholder token survives pruning unless it is a playlist key without a value. */
  lemma {:induction false} PruneToken(key: string, meta: SongMeta)
    requires Braced(key)
    requires forall k | k in ListKeys(meta) && k.1 :: k.0 != key
    ensures FixExtOnly(Prune(key, ListKeys(meta))) == key
  {
    var keys := ListKeys(meta);
    assert Braced("{list-length}") && Braced("{list-position}") && Braced("{list-name}");
    forall m | 0 <= m < |keys| ensures !(Contains(key, keys[m].0) && keys[m].1) {
      if Contains(key, keys[m].0) {
        BracedContains(key, keys[m].0);
        assert keys[m] in keys;
      }
    }
    PruneAbsent(key, keys);
  }

  /**
   * A template made of one placeholder renders as that placeholder's value,
   * unless it is a playlist placeholder without a value (then it is pruned).
   * Neither its value nor those substituted after it may hold a `{`.
   */
  lemma {:induction false} PlaceholderAlone(name: string, meta: SongMeta, i: int, sanitize: bool,
                         ext: Option<string>, short: bool, slug: Slugify)
    requires |meta.artists| > 0 && 0 <= i < |FormatKeys|
    requires FormatKeys[i] == "{output-ext}" ==> ext.Some?
    requires forall k | k in ListKeys(meta) && k.1 :: k.0 != FormatKeys[i]
    requires forall j | i <= j < |FormatKeys| ::
      '{' !in ValueStr(Substitutions(name, meta, sanitize, ext, short, slug)[j].1)
    ensures Formatted(name, meta, FormatKeys[i], sanitize, ext, short, slug)
      == Ok(ValueStr(Substitutions(name, meta, sanitize, ext, short, slug)[i].1))
  {
    var key := FormatKeys[i];
    FormatKeysAreBraced();
    if Contains(key, "{output-ext}") {
      BracedContains(key, "{output-ext}");
    }
    PruneToken(key, meta);
    var fs := Substitutions(name, meta, sanitize, ext, short, slug);
    SubstitutionKeysNonEmpty(name, meta, sanitize, ext, short, slug);
    SubstitutionKeyUnique(name, meta, sanitize, ext, short, slug, i);
    SubstituteSingle(fs, i);
  }

  lemma {:induction false} ZerosSafe(n: nat)
    ensures Safe(Zeros(n))
  {
  }

  lemma {:induction false} IntToStrSafe(n: int)
    ensures Safe(IntToStr(n))
  {
    var m: nat := if n < 0 then -n else n;
    assert AllDigits(NatToStr(m));
  }

  lemma {:induction false} ZFillSafe(s: string, width: int)
    requires Safe(s)
    ensures Safe(ZFill(s, width))
  {
    if |s| < width {
      ZerosSafe(width - |s|);
    }
  }

  /** When sanitizing, no substituted value holds / ? \\ * | < > " : */
  lemma {:induction false} SanitizedValuesSafe(i: int, name: string, meta: SongMeta, artistsText: string, ext: Option<string>, short: bool)
    requires |meta.artists| > 0 && 0 <= i < |FormatKeys|
    ensures var v := FinalValue(i, name, meta, artistsText, true, ext, short); v.Some? ==> Safe(v.value)
  {
    var v := FieldValue(i, name, meta, artistsText, ext, short);
    if v.Some? {
      SanitizeIsSafe(v.value);
    }
  }

  /**
   * `{artists}` is the primary artist alone in short mode; otherwise the
   * artists with those already in the title left out, the primary artist
   * first, joined by ", ".
   */
  lemma {:induction false} ArtistsValue(name: string, meta: SongMeta, sanitize: bool, ext: Option<string>, short: bool, slug: Slugify)
    requires |meta.artists| > 0
    ensures FormatKeys[1] == "{artists}"
    ensures var raw := if short then meta.artists[0] else Join(", ", DedupArtists(name, meta.artists, slug));
      FinalValue(1, name, meta, ArtistsText(name, meta, slug), sanitize, ext, short)
        == Some(if sanitize then SanitizeString(raw) else raw)
  {
  }

  /**
   * `{track-number}` is the track number in decimal, zero-padded to at least
   * two characters; it reads back as the same number and sanitizing leaves it alone.
   */
  lemma {:induction false} TrackNumberValue(name: string, meta: SongMeta, artistsText: string, sanitize: bool, ext: Option<string>, short: bool)
    requires |meta.artists| > 0
    ensures FormatKeys[11] == "{track-number}"
    ensures var v := FinalValue(11, name, meta, artistsText, sanitize, ext, short);
      v.Some? && ZeroFilled(v.value, meta.trackNumber, 2)
  {
    TrackNumberRaw(name, meta, artistsText, sanitize, ext, short);
    ZFilledNumber(meta.trackNumber, 2);
  }

  lemma {:induction false} TrackNumberRaw(name: string, meta: SongMeta, artistsText: string, sanitize: bool, ext: Option<string>, short: bool)
    requires |meta.artists| > 0
    ensures FinalValue(11, name, meta, artistsText, sanitize, ext, short) == Some(ZFill(IntToStr(meta.trackNumber), 2))
  {
    var raw := ZFill(IntToStr(meta.trackNumber), 2);
    assert FieldValue(11, name, meta, artistsText, ext, short) == Some(raw);
    IntToStrSafe(meta.trackNumber);
    ZFillSafe(IntToStr(meta.trackNumber), 2);
    SanitizeKeepsSafe(raw);
  }

  /**
   * A zero-filled integer is as wide as asked or as its text, whichever is
   * more, padded with zeros after the sign; it reads back as the integer,
   * and is all digits when not negative.
   */
  lemma {:induction false} ZFilledNumber(n: int, width: int)
    ensures ZeroFilled(ZFill(IntToStr(n), width), n, width)
  {
    ZFilledPadded(n, width);
    if n >= 0 {
      NonNegativeZFilled(n, width);
    } else {
      ParseZFilledIntToStr(n, width);
    }
  }

  /**
   * `{list-position}` is zero-padded to the width of the list length as
   * printed, and reads back as the position when there is one.
   */
  lemma {:induction false} ListPositionValue(name: string, meta: SongMeta, artistsText: string, sanitize: bool, ext: Option<string>, short: bool)
    requires |meta.artists| > 0
    ensures FormatKeys[18] == "{list-position}"
    ensures var v, w := FinalValue(18, name, meta, artistsText, sanitize, ext, short), |OptIntStr(meta.listLength)|;
      v.Some? && |v.value| >= w
      && (meta.listPosition.Some? ==> ZeroFilled(v.value, meta.listPosition.value, w))
  {
    ListPositionField(name, meta, artistsText, sanitize, ext, short);
    PositionFilled(meta.listPosition, |OptIntStr(meta.listLength)|);
  }

  /** A position zero-filled to `width`, as a number when it is present. */
  lemma {:induction false} PositionFilled(position: Option<int>, width: int)
    ensures var z := ZFill(OptIntStr(position), width);
      |z| >= width && (position.Some? ==> ZeroFilled(z, position.value, width))
  {
    ZFillShape(OptIntStr(position), width);
    if position.Some? {
      ZFilledNumber(position.value, width);
    }
  }

  /** `{list-position}` passes through sanitizing unchanged. */
  lemma {:induction false} ListPositionField(name: string, meta: SongMeta, artistsText: string, sanitize: bool, ext: Option<string>, short: bool)
    requires |meta.artists| > 0
    ensures FinalValue(18, name, meta, artistsText, sanitize, ext, short)
      == Some(ZFill(OptIntStr(meta.listPosition), |OptIntStr(meta.listLength)|))
  {
    var width := |OptIntStr(meta.listLength)|;
    var p := OptIntStr(meta.listPosition);
    assert FieldValue(18, name, meta, artistsText, ext, short) == Some(ZFill(p, width));
    if meta.listPosition.Some? {
      IntToStrSafe(meta.listPosition.value);
    } else {
      assert Safe("None");
    }
    ZFillSafe(p, width);
    SanitizeKeepsSafe(ZFill(p, width));
  }

  /** A placeholder token that starts a string is the string's leading token. */
  lemma {:induction false} TokenAtHead(t: string, sep: string, rest: string, key: string)
    requires Braced(t) && Braced(key) && '{' !in sep
    requires StartsWith(t + sep + rest, key)
    ensures key == t
  {
    var s := t + sep + rest;
    var j := if |key| <= |t| then |key| - 1 else |t| - 1;
    assert key[j] == s[j] == t[j];
    assert |key| == |t|;
    assert key == t[..|key|];
  }

  /** After a leading token and brace-free text, a token can only occur in what follows. */
  lemma {:induction false} ContainsAfterToken(t: string, sep: string, rest: string, key: string)
    requires Braced(t) && Braced(key) && '{' !in sep
    requires Contains(t + sep + rest, key)
    ensures key == t || Contains(rest, key)
  {
    var s := t + sep + rest;
    ContainsIffOccurs(s, key);
    var i :| OccursAt(s, key, i);
    if i == 0 {
      assert StartsWith(s, key);
      TokenAtHead(t, sep, rest, key);
    } else {
      assert s[i] == '{';
      forall k | 1 <= k < |t| + |sep| ensures s[k] != '{' {
        if k < |t| {
          assert s[k] == t[k];
        } else {
          assert s[k] == sep[k - |t|];
        }
      }
      var o := |t| + |sep|;
      assert i >= o;
      assert s[o..] == rest;
      assert s[i..i + |key|] == s[o..][i - o..i - o + |key|];
      assert OccursAt(rest, key, i - o);
      ContainsIffOccurs(rest, key);
    }
  }

  /** Replacing a token other than the leading one leaves the head alone. */
  lemma {:induction false} ReplaceAfterToken(t: string, sep: string, rest: string, key: string, v: string)
    requires Braced(t) && Braced(key) && key != t && '{' !in sep
    ensures Replace(t + sep + rest, key, v) == t + sep + Replace(rest, key, v)
  {
    var s := t + sep + rest;
    if StartsWith(s, key) {
      TokenAtHead(t, sep, rest, key);
    }
    assert s[1..] == (t[1..] + sep) + rest;
    assert '{' !in t[1..] + sep by {
      assert forall k | 0 <= k < |t[1..]| :: t[1..][k] == t[k + 1];
    }
    ReplaceSkipsPrefix(t[1..] + sep, rest, key, v);
    assert [s[0]] + t[1..] == t;
  }

  lemma {:induction false} ListKeysBraced(meta: SongMeta)
    ensures forall m | 0 <= m < |ListKeys(meta)| :: |ListKeys(meta)[m].0| > 0 && Braced(ListKeys(meta)[m].0)
    ensures forall m | 0 <= m < |ListKeys(meta)| ::
      ListKeys(meta)[m].0 != "{output-ext}" && ListKeys(meta)[m].0 != "{artists}"
      && ListKeys(meta)[m].0 != "{artist}" && ListKeys(meta)[m].0 != "{title}"
  {
  }

  /** A placeholder token other than the playlist keys contains none of them. */
  lemma {:induction false} TokenAvoidsKeys(b: string, keys: seq<(string, bool)>)
    requires Braced(b)
    requires forall m | 0 <= m < |keys| :: Braced(keys[m].0) && keys[m].0 != b
    ensures forall m | 0 <= m < |keys| :: !Contains(b, keys[m].0)
  {
    forall m | 0 <= m < |keys| ensures !Contains(b, keys[m].0) {
      if Contains(b, keys[m].0) {
        BracedContains(b, keys[m].0);
      }
    }
  }

  /** Such a token, brace-free text and a key-free rest contain no key. */
  lemma {:induction false} TokenThenAvoidsKeys(a: string, sep: string, rest: string, keys: seq<(string, bool)>)
    requires Braced(a) && '{' !in sep
    requires forall m | 0 <= m < |keys| :: Braced(keys[m].0) && keys[m].0 != a && !Contains(rest, keys[m].0)
    ensures forall m | 0 <= m < |keys| :: !Contains(a + sep + rest, keys[m].0)
  {
    forall m | 0 <= m < |keys| ensures !Contains(a + sep + rest, keys[m].0) {
      if Contains(a + sep + rest, keys[m].0) {
        ContainsAfterToken(a, sep, rest, keys[m].0);
      }
    }
  }

  /** No playlist key occurs in ".{output-ext}" or "/.{output-ext}". */
  lemma {:induction false} ExtOnlyPrunesNothing(template: string, meta: SongMeta)
    requires template == ExtSuffix || template == "/" + ExtSuffix
    ensures Prune(template, ListKeys(meta)) == template
  {
    var keys := ListKeys(meta);
    var ext := "{output-ext}";
    ListKeysBraced(meta);
    assert Braced(ext);
    TokenAvoidsKeys(ext, keys);
    var head := if template == ExtSuffix then "." else "/.";
    assert template == head + ext && '{' !in head;
    forall m | 0 <= m < |keys| ensures !Contains(template, keys[m].0) {
      if Contains(template, keys[m].0) {
        ContainsSkipsPrefix(head, ext, keys[m].0);
      }
    }
    PruneAbsent(template, keys);
  }

  /** No playlist key occurs in the default template. */
  lemma {:induction false} DefaultPrunesNothing(meta: SongMeta)
    ensures Prune(DefaultTemplate, ListKeys(meta)) == DefaultTemplate
  {
    var keys := ListKeys(meta);
    var artists, title, ext := "{artists}", "{title}", "{output-ext}";
    ListKeysBraced(meta);
    assert Braced(ext) && Braced(artists) && Braced(title);
    TokenAvoidsKeys(ext, keys);
    TokenThenAvoidsKeys(title, ".", ext, keys);
    TokenThenAvoidsKeys(artists, " - ", title + "." + ext, keys);
    assert DefaultTemplate == artists + " - " + (title + "." + ext);
    PruneAbsent(DefaultTemplate, keys);
  }

  /** A template reduced to the extension alone is formatted as the default template. */
  lemma {:induction false} ExtOnlyBecomesDefault(name: string, meta: SongMeta, template: string, sanitize: bool,
                              ext: Option<string>, short: bool, slug: Slugify)
    requires |meta.artists| > 0 && ext.Some?
    requires template == ExtSuffix || template == "/" + ExtSuffix
    ensures Formatted(name, meta, template, sanitize, ext, short, slug)
      == Formatted(name, meta, DefaultTemplate, sanitize, ext, short, slug)
  {
    ExtOnlyPrunesNothing(template, meta);
    DefaultPrunesNothing(meta);
  }

  // ---------------------------------------------------------------------------
  // create_search_query
  // ---------------------------------------------------------------------------

  /** Some placeholder token occurs in the template. */
  predicate HasVar(template: string) {
    exists i | 0 <= i < |Vars| :: Contains(template, Vars[i])
  }

  /** The template a search query is built from: `SearchPrefix` is prepended when it names no placeholder. */
  function SearchTemplate(template: string): (r: string)
    ensures HasVar(template) ==> r == template
    ensures !HasVar(template) ==> r == SearchPrefix + template
  {
    if HasVar(template) then template else SearchPrefix + template
  }

  /** `create_search_query`. */
  function CreateSearchQuery(name: string, meta: SongMeta, template: string, sanitize: bool,
                             ext: Option<string>, short: bool, slug: Slugify): (r: Outcome<string>)
    requires |meta.artists| > 0
    ensures r.Err? <==> Contains(template, "{output-ext}") && ext.None?
  {
    if HasVar(template) then Formatted(name, meta, template, sanitize, ext, short, slug)
    else
      NoVarNoExt(template);
      Formatted(name, meta, SearchPrefix + template, sanitize, ext, short, slug)
  }

  /** A template without placeholders does not hold `{output-ext}`. */
  lemma {:induction false} NoVarNoExt(template: string)
    requires !HasVar(template)
    ensures !Contains(template, "{output-ext}")
    ensures !Contains(SearchPrefix + template, "{output-ext}")
  {
    assert Vars[19] == "{output-ext}";
    assert Braced("{artist}") && Braced("{title}") && Braced("{output-ext}");
    if Contains(SearchPrefix + template, "{output-ext}") {
      assert SearchPrefix + template == "{artist}" + " - " + ("{title}" + "" + template);
      ContainsAfterToken("{artist}", " - ", "{title}" + "" + template, "{output-ext}");
      ContainsAfterToken("{title}", "", template, "{output-ext}");
    }
  }

  /** One more substitution: the first `n + 1` pairs are the first `n` followed by the `n`-th. */
  lemma {:induction false} SubstituteStep(x: string, fs: seq<(string, Option<string>)>, n: nat)
    requires n < |fs| && forall j | 0 <= j < |fs| :: |fs[j].0| > 0
    ensures SubstituteAll(x, fs[..n + 1]) == Replace(SubstituteAll(x, fs[..n]), fs[n].0, ValueStr(fs[n].1))
  {
    assert fs[..n + 1][..n] == fs[..n];
  }

  lemma {:induction false} ReplaceTrailingToken(a: string, sep: string, t: string, title: string)
    requires Braced(a) && Braced(t) && a != t && '{' !in sep
    ensures Replace(a + sep + t, t, title) == a + sep + title
  {
    ReplaceAfterToken(a, sep, t, t, title);
    assert Replace(t, t, title) == title + Replace("", t, title);
  }

  lemma {:induction false} ReplaceMissingToken(a: string, rest: string, key: string, v: string)
    requires Braced(a) && Braced(key) && key != a && '{' !in rest
    ensures Replace(a + rest, key, v) == a + rest
  {
    var t1 := a + rest + "";
    assert a + rest == t1;
    if Contains(t1, key) {
      ContainsAfterToken(a, rest, "", key);
    }
    ReplaceAbsent(t1, key, v);
  }

  lemma {:induction false} ReplaceLeadingToken(a: string, rest: string, v: string)
    requires Braced(a) && '{' !in rest
    ensures Replace(a + rest, a, v) == v + rest
  {
    NoBraceNoToken(rest, a);
    ReplaceAbsent(rest, a, v);
    assert (a + rest)[|a|..] == rest;
  }

  /** Substituting `a + sep + t` where the first three keys are `t`, another token and `a`. */
  lemma {:induction false} TwoTokenTemplate(fs: seq<(string, Option<string>)>, a: string, sep: string, t: string, title: string, artist: string)
    requires Braced(a) && Braced(t) && a != t && '{' !in sep && '{' !in title
    requires |fs| >= 3 && forall j | 0 <= j < |fs| :: |fs[j].0| > 0
    requires fs[0] == (t, Some(title)) && fs[2] == (a, Some(artist))
    requires Braced(fs[1].0) && fs[1].0 != a
    ensures SubstituteAll(a + sep + t, fs[..3]) == artist + sep + title
  {
    SubstituteThree(a + sep + t, fs);
    TwoTokenReplaces(a, sep, t, title, artist, fs[1].0, ValueStr(fs[1].1));
  }

  /** The first three substitutions, written out. */
  lemma {:induction false} SubstituteThree(x: string, fs: seq<(string, Option<string>)>)
    requires |fs| >= 3 && forall j | 0 <= j < |fs| :: |fs[j].0| > 0
    ensures SubstituteAll(x, fs[..3])
      == Replace(Replace(Replace(x, fs[0].0, ValueStr(fs[0].1)), fs[1].0, ValueStr(fs[1].1)), fs[2].0, ValueStr(fs[2].1))
  {
    assert fs[..0] == [];
    SubstituteStep(x, fs, 0);
    SubstituteStep(x, fs, 1);
    SubstituteStep(x, fs, 2);
  }

  /** Replacing `t`, then a key absent from the template, then `a` in `a + sep + t`. */
  lemma {:induction false} TwoTokenReplaces(a: string, sep: string, t: string, title: string, artist: string,
                                             k: string, v: string)
    requires Braced(a) && Braced(t) && a != t && '{' !in sep && '{' !in title
    requires Braced(k) && k != a
    ensures Replace(Replace(Replace(a + sep + t, t, title), k, v), a, artist) == artist + sep + title
  {
    var rest := sep + title;
    assert '{' !in rest;
    ReplaceTrailingToken(a, sep, t, title);
    ConcatAssoc(a, sep, title);
    ReplaceMissingToken(a, rest, k, v);
    ReplaceLeadingToken(a, rest, artist);
    ConcatAssoc(artist, sep, title);
  }

  /** "{artist} - {title}" with the values of `{artist}` and `{title}` substituted. */
  lemma {:induction false} ArtistTitleRendered(fs: seq<(string, Option<string>)>, name: string, artist: string)
    requires |fs| >= 3 && forall j | 0 <= j < |fs| :: |fs[j].0| > 0 && Braced(fs[j].0)
    requires fs[0] == ("{title}", Some(name)) && fs[1].0 == "{artists}" && fs[2] == ("{artist}", Some(artist))
    requires '{' !in name && '{' !in artist
    ensures SubstituteAll(SearchPrefix, fs) == artist + " - " + name
  {
    var a, sep, t := "{artist}", " - ", "{title}";
    assert '{' !in sep && a != t && fs[1].0 != a;
    TwoTokenTemplate(fs, a, sep, t, name, artist);
    var rest := fs[3..];
    forall j | 0 <= j < |rest| ensures |rest[j].0| > 0 && Braced(rest[j].0) {
      assert rest[j] == fs[3 + j];
    }
    assert '{' !in artist + sep + name;
    SubstituteAfter(artist + sep + name, rest);
    SubstituteAppend(a + sep + t, fs[..3], rest);
    assert fs[..3] + rest == fs;
  }

  /** No playlist key occurs in "{artist} - {title}". */
  lemma {:induction false} ArtistTitlePrunesNothing(meta: SongMeta)
    ensures FixExtOnly(Prune(SearchPrefix, ListKeys(meta))) == SearchPrefix
  {
    var keys := ListKeys(meta);
    var artist, title := "{artist}", "{title}";
    ListKeysBraced(meta);
    assert Braced(artist) && Braced(title);
    TokenAvoidsKeys(title, keys);
    TokenThenAvoidsKeys(artist, " - ", title, keys);
    PruneAbsent(SearchPrefix, keys);
    assert |SearchPrefix| == 18;
  }

  /** An empty template for "Song" by "A" gives "A - Song". */
  lemma {:induction false} SearchQueryExample(meta: SongMeta, slug: Slugify)
    requires meta.artists == ["A"]
    ensures CreateSearchQuery("Song", meta, "", false, None, false, slug) == Ok("A - Song")
  {
    assert !HasVar("");
    assert SearchPrefix + "" == SearchPrefix;
    NoVarNoExt("");
    ArtistTitlePrunesNothing(meta);
    ExampleRendered(meta, slug);
  }

  lemma {:induction false} ExampleRendered(meta: SongMeta, slug: Slugify)
    requires meta.artists == ["A"]
    ensures SubstituteAll(SearchPrefix, Substitutions("Song", meta, false, None, false, slug)) == "A - Song"
  {
    var fs := Substitutions("Song", meta, false, None, false, slug);
    FormatKeysBraced();
    ExampleValues(meta, slug);
    ArtistTitleRendered(fs, "Song", "A");
    assert "A" + " - " + "Song" == "A - Song";
  }

  lemma {:induction false} ExampleValues(meta: SongMeta, slug: Slugify)
    requires meta.artists == ["A"]
    ensures var fs := Substitutions("Song", meta, false, None, false, slug);
      fs[0] == ("{title}", Some("Song")) && fs[1].0 == "{artists}" && fs[2] == ("{artist}", Some("A"))
  {
    var fs := Substitutions("Song", meta, false, None, false, slug);
    assert fs[0] == (FormatKeys[0], FinalValue(0, "Song", meta, ArtistsText("Song", meta, slug), false, None, false));
    assert fs[2] == (FormatKeys[2], FinalValue(2, "Song", meta, ArtistsText("Song", meta, slug), false, None, false));
  }

  /**
   * The de-duplication example: for "Love Song" by "Love Song" and
   * "Feat Artist", the primary artist is dropped for occurring in the
   * title, then put back first.
   */
  lemma {:induction false} LoveSongExample(slug: Slugify)
    requires slug("Love Song") == "love-song" && slug("Feat Artist") == "feat-artist"
    ensures Join(", ", DedupArtists("Love Song", ["Love Song", "Feat Artist"], slug)) == "Love Song" + ", " + "Feat Artist"
  {
    LoveSongDeduped(slug);
    JoinCons(", ", "Love Song", ["Feat Artist"]);
  }

  lemma {:induction false} LoveSongDeduped(slug: Slugify)
    requires slug("Love Song") == "love-song" && slug("Feat Artist") == "feat-artist"
    ensures DedupArtists("Love Song", ["Love Song", "Feat Artist"], slug) == ["Love Song"] + ["Feat Artist"]
  {
    var first, second := "Love Song", "Feat Artist";
    LoveSongKept(slug);
    assert second[0] != first[0];
  }

  lemma {:induction false} LoveSongKept(slug: Slugify)
    requires slug("Love Song") == "love-song" && slug("Feat Artist") == "feat-artist"
    ensures KeptArtists(["Love Song", "Feat Artist"], "Love Song", slug) == ["Feat Artist"]
  {
    assert StartsWith("love-song", "love-song");
    ContainsIffOccurs("love-song", "feat-artist");
    assert ["Love Song", "Feat Artist"][1..] == ["Feat Artist"];
  }
}
