# spotDL formatter and matcher, modelled in Dafny

This project models the two modules of spotDL (spotify-downloader) that turn a
song's metadata into text and that score search results against a song:

- `spotdl/utils/formatter.py`:
  - the song title ("Artist1, Artist2 - Name");
  - the file-system character filter;
  - the `{placeholder}` template engine (`format_query`), and the search query and file name built on it;
  - the path clean-up and length fallbacks of `create_file_name`;
  - `restrict_filename`;
  - the duration parsers `parse_duration` and `to_ms`.
- `spotdl/utils/matching.py`:
  - the string helpers (`fill_string`, `create_clean_string`, `sort_string`, `based_sort`, `check_common_word`, `create_match_strings`, `get_best_matches`);
  - the artist, name, time and album scores with their three fix-ups;
  - `order_results`, which keeps the results that pass the filters together with a capped score.

Files:

- `wrappers.dfy`: `Option` and `Outcome`. An exception the code raises is an `Err`.
- `strings.dfy`: the Python `str` operations used: `in`, `replace`, `split`, `join`, `strip`.
- `numbers.dfy`: `str(int)`, `int(str)` and `zfill`.
- `ordering.dfy`:
  - code-point order on strings;
  - a reference insertion sort `SortSeq`;
  - the in-place sort and reverse that `list.sort()` and `list.reverse()` perform.
- `foreign.dfy`: `slugify`, rapidfuzz's `ratio` and yt-dlp's `sanitize_filename`. Each is a parameter of the operations that call it:
  - `Slugify` and `SanitizeFilename` are arbitrary string functions;
  - `Ratio` is an arbitrary function into [0, 100].
- `formatter.dfy`, `file_names.dfy`, `durations.dfy`: `formatter.py`.
- `matching.dfy`, `scoring.dfy`: `matching.py`.

The song is a class, `Formatter.Song`:

- its `name` is the one field the code assigns (`create_file_name` shortens it);
- the rest of its metadata is an immutable `SongMeta` value.

Search results are `SearchResult` values, compared by value.

Loops of the source are methods with loop invariants. Each is proved equal to a specification function, and the properties are lemmas about that function.

## Model

| member | source | states |
|---|---|---|
| Formatter.CreateSongTitle | spotdl/utils/formatter.py:70-90 | with no artists the title is the bare name; otherwise the artists joined by ", " then " - " then the name; the title always ends with the name |
| Formatter.SanitizeIsSafe | spotdl/utils/formatter.py:105-111 | the sanitized string contains none of `/?\*|<>"` or `:`, and is never longer than the input |
| Formatter.SanitizeKeepsSafe | spotdl/utils/formatter.py:105-111 | a string already free of the forbidden characters is left unchanged |
| Formatter.SanitizeIdempotent | spotdl/utils/formatter.py:105-111 | sanitizing twice gives the same string as sanitizing once |
| Formatter.KeptArtists | spotdl/utils/formatter.py:205-207 | an artist is kept exactly when it is in the song's artists and its slug does not occur in the slug of the title |
| Formatter.DedupArtists | spotdl/utils/formatter.py:204-211 | the list starts with the main artist, every other entry is an artist not named in the title, and every artist not named in the title is included |
| Formatter.ArtistsList | spotdl/utils/formatter.py:204-211 | the list comprehension and the re-insertion of the main artist compute `DedupArtists` |
| Formatter.FieldValues | spotdl/utils/formatter.py:216-237 | the substitution table has one entry per placeholder, keyed in the dict's insertion order |
| Formatter.SanitizeValues | spotdl/utils/formatter.py:239-245 | the keys and their order are kept; each present value is sanitized and absent values stay absent |
| Formatter.SanitizeFormats | spotdl/utils/formatter.py:239-245 | the loop over the dict computes `SanitizeValues` |
| Formatter.Substitutions | spotdl/utils/formatter.py:216-245 | entry i pairs the i-th placeholder with its final (optionally sanitized) value |
| Formatter.FormatsFor | spotdl/utils/formatter.py:216-245 | the dict literal followed by sanitization computes `Substitutions` |
| Formatter.PruneTemplate | spotdl/utils/formatter.py:184-198 | the loop that removes playlist placeholders without a value (and collapses "//") computes `Prune` |
| Formatter.PruneAbsent | spotdl/utils/formatter.py:184-198 | a template naming none of the placeholders without a value is not changed by pruning |
| Formatter.PruneShrinks | spotdl/utils/formatter.py:184-198 | pruning never lengthens the template |
| Formatter.Substitute | spotdl/utils/formatter.py:247-251 | the replacement loop computes `SubstituteAll`, one `str.replace` per key in order |
| Formatter.SubstituteAbsent | spotdl/utils/formatter.py:247-251 | a template containing no key is returned unchanged |
| Formatter.Formatted | spotdl/utils/formatter.py:160-251 | `format_query` fails exactly when the template names `{output-ext}` and there is no extension, and the failure is the missing-extension error |
| Formatter.FormatQuery | spotdl/utils/formatter.py:160-251 | the whole of `format_query` (check, prune, fix, dedup, table, sanitize, substitute) computes `Formatted` |
| Formatter.NoPlaceholderUnchanged | spotdl/utils/formatter.py:181-251 | a template without `{` formats to itself |
| Formatter.PlaceholderAlone | spotdl/utils/formatter.py:216-251 | a template made of one placeholder formats to that placeholder's value, when no later value introduces a new `{` |
| Formatter.ExtOnlyBecomesDefault | spotdl/utils/formatter.py:200-202 | the templates ".{output-ext}" and "/.{output-ext}" format exactly as "{artists} - {title}.{output-ext}" |
| Formatter.SanitizedValuesSafe | spotdl/utils/formatter.py:239-245 | with sanitization on, every value substituted is free of the forbidden characters |
| Formatter.ArtistsValue | spotdl/utils/formatter.py:213-218 | `{artists}` is the main artist when short, else the de-duplicated artists joined by ", ", sanitized when asked |
| Formatter.TrackNumberValue | spotdl/utils/formatter.py:228 | `{track-number}` is exactly max(2, length of the printed track number) characters long, is the printed number with zeros inserted after any sign, parses back to the track number, and is all digits when the number is not negative |
| Formatter.ListPositionValue | spotdl/utils/formatter.py:235 | `{list-position}` is at least as wide as the printed list length; when there is a position it is exactly max(that width, length of the printed position) characters, the printed position with zeros inserted after any sign, parses back to the position, and is all digits when the position is not negative |
| Formatter.PositionFilled | spotdl/utils/formatter.py:235 | zero-filling the printed optional position to a width gives at least that width, and the zero-filled form of the position when there is one |
| Formatter.ZFilledNumber | spotdl/utils/formatter.py:228-235 | `str(n).zfill(width)` has length max(width, length of `str(n)`), is `str(n)` with zeros after any sign, parses back to `n`, and is all digits when `n` is not negative |
| Formatter.SearchTemplate | spotdl/utils/formatter.py:277-278 | a template naming any placeholder is used as is; otherwise "{artist} - {title}" is put in front of it |
| Formatter.CreateSearchQuery | spotdl/utils/formatter.py:254-280 | building a search query fails exactly when the template names `{output-ext}` and there is no extension |
| Formatter.NoVarNoExt | spotdl/utils/formatter.py:277-280 | a template naming no placeholder, and that template with the prefix, cannot trigger the missing-extension error |
| Formatter.ArtistTitleRendered | spotdl/utils/formatter.py:247-251 | "{artist} - {title}" renders as main artist, " - ", title, for any values without `{` |
| Formatter.SearchQueryExample | spotdl/utils/formatter.py:254-280 | the song "Song" by "A" with an empty template gives the query "A - Song" |
| Formatter.LoveSongExample | spotdl/utils/formatter.py:204-213 | an artist whose slug is the title's slug is kept when it is the main artist, so "Love Song" by "Love Song" and "Feat Artist" lists both |
| FileNames.NormalizeTemplate | spotdl/utils/formatter.py:304-319 | the normalised template always ends with ".{output-ext}", and the empty template becomes the default one |
| FileNames.NormalizeIdempotent | spotdl/utils/formatter.py:304-319 | normalising a normalised template changes nothing |
| FileNames.FallbacksNormal | spotdl/utils/formatter.py:379-404 | the fallback templates "{title}.{output-ext}" and "{artist} - {title}.{output-ext}" are already normal |
| FileNames.NormalizeSteps | spotdl/utils/formatter.py:304-319 | the statement sequence computes `NormalizeTemplate` |
| FileNames.StripSegment | spotdl/utils/formatter.py:332-341 | the part kept of a path segment is a contiguous slice of it |
| FileNames.StripSegmentNoNewline | spotdl/utils/formatter.py:332-341 | on a segment without a newline, the regular-expression search keeps exactly the trimmed slice |
| FileNames.TrimmedShape | spotdl/utils/formatter.py:332-341 | a trimmed segment is either the whole segment or the slice from the first character allowed at the start to the last character allowed at the end, with everything outside it disallowed |
| FileNames.StripParts | spotdl/utils/formatter.py:332-341 | the loop over the path's parts strips each part and keeps their count and order |
| FileNames.StripPath | spotdl/utils/formatter.py:332-341 | the rebuilt path keeps absoluteness and part count, and each part is its stripped form |
| FileNames.RestrictedName | spotdl/utils/formatter.py:492-498 | the restricted name is never empty, and is "_" when `sanitize_filename` returns nothing |
| FileNames.RestrictFilename | spotdl/utils/formatter.py:478-498 | only the last component changes, to its restricted name; `with_name` fails exactly on a path without a name or a new name containing "/" or equal to "." |
| FileNames.TruncateTitle | spotdl/utils/formatter.py:364-372 | the word loop computes `TruncatedTitle` |
| FileNames.TruncatedTitleShape | spotdl/utils/formatter.py:364-372 | the truncated title is the stripped join of a leading run of words; it is a prefix of the title; the next word would have reached the length budget |
| FileNames.TruncatedTitleShort | spotdl/utils/formatter.py:364-372 | the truncated title is always shorter than the 240-character budget |
| FileNames.LongFirstWordEmpties | spotdl/utils/formatter.py:364-372 | a first word at least as long as the budget leaves an empty title |
| FileNames.FileNameOutcome | spotdl/utils/formatter.py:283-408 | an unrestricted result is under 255 characters; "too long" is reported only after the short "{title}" template; any other failure comes from restriction |
| FileNames.FileNameCallsBounded | spotdl/utils/formatter.py:343-408 | the recursion makes between one and four calls |
| FileNames.FileNameTitle | spotdl/utils/formatter.py:379-385 | the song's title is left as is, or (when it is over 240 characters) becomes its truncated form |
| FileNames.BuildPath | spotdl/utils/formatter.py:321-341 | formatting with the sanitizer and stripping each segment gives the path the builder function describes |
| FileNames.CreateFileName | spotdl/utils/formatter.py:283-408 | the method returns the outcome of `FileNameFor` and leaves the song's name as that outcome's title |
| Durations.ParseDuration | spotdl/utils/formatter.py:411-433 | no duration, or a last piece that is not an integer, gives 0 |
| Durations.ParseDurationValue | spotdl/utils/formatter.py:422-433 | a duration gives 0 when one of its last three ":"-pieces is not an integer; otherwise the last three pieces weighted 3600, 60 and 1 from the right, a missing piece counting 0 |
| Durations.TailValue | spotdl/utils/formatter.py:424-430 | the weighted sum taken from the last piece backwards fails exactly when one of the last three pieces is not an integer, and otherwise is that 3600/60/1-weighted sum |
| Durations.LastThreeOnly | spotdl/utils/formatter.py:427-428 | only the last three colon-separated pieces count: anything before them is ignored |
| Durations.ClockRoundTrip | spotdl/utils/formatter.py:422-430 | "h:mm:ss" printed from any h, m, s parses back to 3600h + 60m + s |
| Durations.ParseDurationExample | spotdl/utils/formatter.py:422-430 | "1:02:03" parses to 3723 |
| Durations.ParseDurationGarbage | spotdl/utils/formatter.py:431-433 | text that is not a duration parses to 0 |
| Durations.ToMs | spotdl/utils/formatter.py:436-475 | the only failure is a non-integer slice of a non-empty string; without a string the keyword components are summed in milliseconds |
| Durations.Slice | spotdl/utils/formatter.py:457-461 | a Python slice has the length Python gives it, clipped at the end of the string |
| Durations.EmptyIsNotAnInteger | spotdl/utils/formatter.py:457-461 | `int("")` fails |
| Durations.ShortTextFails | spotdl/utils/formatter.py:457-461 | a non-empty string of at most 10 characters fails, since the slice [10:11] is empty |
| Durations.FixedSlices | spotdl/utils/formatter.py:457-461 | the fixed offsets read the hour, minute and second fields and the character at offset 10 of "HH:MM:SS.mmm"-shaped text |
| Durations.TextAgreesWithKeywords | spotdl/utils/formatter.py:457-470 | a well-formed time string gives the same milliseconds as passing its components as keywords |
| Matching.FillString | spotdl/utils/matching.py:51-76 | the loop computes `Fill` |
| Matching.FillFromAppends | spotdl/utils/matching.py:66-76 | the loop only appends: the result is the input followed by "-"-separated words, each found in the string checked and free of "-" |
| Matching.FillFromCovers | spotdl/utils/matching.py:66-76 | every string whose slug occurs in the checked string ends up in the test string, and nothing already there is lost |
| Matching.FillShape | spotdl/utils/matching.py:51-76 | `fill_string` returns the main string with words appended, and covers every string whose slug occurs in the checked string |
| Matching.CleanWords | spotdl/utils/matching.py:96-105 | a word is kept exactly when it is the slug of an input word not contained in the slug of the string |
| Matching.CreateCleanString | spotdl/utils/matching.py:79-110 | the method computes `CleanString` |
| Matching.CleanStringSorted | spotdl/utils/matching.py:107-108 | with sorting on, the kept words are joined in sorted order and none is lost or added |
| Matching.SortString | spotdl/utils/matching.py:113-128 | the list is sorted in place (as the reference sort) and the result joins the sorted list |
| Matching.Rank | spotdl/utils/matching.py:146-150 | the rank of a string is its last index in the reference list, or -1 exactly when it is absent |
| Matching.RankLeIsTotalOrder | spotdl/utils/matching.py:143-156 | the order `based_sort` sorts by is a total order |
| Matching.BasedSort | spotdl/utils/matching.py:131-156 | both lists are sorted in place, and the result and the reversed reference list are those of the specification |
| Matching.ResortIsSort | spotdl/utils/matching.py:143-152 | sorting by rank after sorting by text is the same as one sort by (rank, text) |
| Matching.BasedSortOrder | spotdl/utils/matching.py:131-156 | the result is a permutation ordered by rank, highest first, ties by text; strings absent from the reference list come last; the reference list comes back in descending order |
| Matching.CheckCommonWord | spotdl/utils/matching.py:159-178 | the loop returns true exactly when some non-empty word of the song's slug occurs in the result's slug |
| Matching.SameNameShares | spotdl/utils/matching.py:171-178 | a result with the song's own name always shares a word |
| Matching.MatchTitle | spotdl/utils/matching.py:196-201 | building the song's title fails exactly when the search query names `{output-ext}` |
| Matching.MatchStrings | spotdl/utils/matching.py:181-214 | `create_match_strings` fails exactly when building the title does |
| Matching.MatchStringsReorder | spotdl/utils/matching.py:210-212 | the final sort and join only reorder the words of the filled strings |
| Matching.MaxScore | spotdl/utils/matching.py:231-242 | the best score is the score of some item and no item scores higher |
| Matching.SortByScoreProps | spotdl/utils/matching.py:233-234 | sorting by score gives a descending permutation |
| Matching.WithinThresholdProps | spotdl/utils/matching.py:236-242 | an item is kept exactly when it lies within the threshold of the best score, and order is kept |
| Matching.BestMatchesSpec | spotdl/utils/matching.py:217-242 | `get_best_matches` returns, in descending order, exactly the items within the threshold of the maximum score |
| Matching.FirstIsMax | spotdl/utils/matching.py:234-236 | the head of any descending permutation carries the maximum score |
| Matching.BestMatchKept | spotdl/utils/matching.py:217-242 | with a non-negative threshold the best item always survives |
| Scoring.GridMaxIsMax | spotdl/utils/matching.py:298-310 | the pairwise loop's result is at least its start value and every pair's ratio, and is one of them |
| Scoring.PairScore | spotdl/utils/matching.py:290-310 | the pair maximum never lowers the first ratio and stays within 100 |
| Scoring.MainArtistScore | spotdl/utils/matching.py:245-312 | the main-artist score is within [0, 100], is 0 for a result without artists, and is at least the ratio of the main artists' slugs in the usual case |
| Scoring.MainArtistMatch | spotdl/utils/matching.py:245-312 | the method computes `MainArtistScore` |
| Scoring.SharedArtists | spotdl/utils/matching.py:278-287 | the loop adds one share per song artist whose slug words occur in the result's main artist |
| Scoring.BestPair | spotdl/utils/matching.py:298-310 | the nested loop computes the pairwise maximum |
| Scoring.ArtistsScore | spotdl/utils/matching.py:315-346 | the artists score is within [0, 100] and is 0 for a single-artist song or an artist-less result |
| Scoring.ArtistsMatch | spotdl/utils/matching.py:315-346 | the method computes `ArtistsScore` |
| Scoring.ZipLongestSum | spotdl/utils/matching.py:333-342 | the loop over `zip_longest` sums the ratios, a missing side scoring 0 |
| Scoring.TitleShare | spotdl/utils/matching.py:380-391 | the share of artists found in the title is the count over the total times 100, within [0, 100] |
| Scoring.AddShares | spotdl/utils/matching.py:381-386 | the loop adds one share per hit |
| Scoring.Fixup1Score | spotdl/utils/matching.py:349-393 | verified results and scores over 50 are kept; otherwise the score only rises, to at most 100, and at least to the joined-artists ratio |
| Scoring.ArtistsFixup1 | spotdl/utils/matching.py:349-393 | the method computes `Fixup1Score` |
| Scoring.MainArtistBonus | spotdl/utils/matching.py:437-446 | the bonus is 0 or 25, and 25 only when the result has fewer artists than the song |
| Scoring.AlbumBonus | spotdl/utils/matching.py:450-458 | the bonus is 0 or 10, and 10 only when the result has an album |
| Scoring.Fixup2Bonuses | spotdl/utils/matching.py:425-467 | bonuses only raise the score |
| Scoring.WithFallback | spotdl/utils/matching.py:472-484 | the fallback never lowers the score and leaves a score over 70 alone |
| Scoring.ApplyFallback | spotdl/utils/matching.py:472-484 | the method computes `WithFallback` |
| Scoring.Fixup2Score | spotdl/utils/matching.py:396-486 | scores over 70 and unverified results are kept; otherwise it fails exactly when the match strings fail, and never lowers the score |
| Scoring.ArtistsFixup2 | spotdl/utils/matching.py:396-486 | the method computes `Fixup2Score` |
| Scoring.AddBonuses | spotdl/utils/matching.py:425-467 | the statements compute `Fixup2Bonuses` |
| Scoring.CleanArtistsMatch | spotdl/utils/matching.py:472-484 | the method computes the clean-string artists ratio |
| Scoring.Fixup3Score | spotdl/utils/matching.py:489-527 | the score changes only for a low-scoring single-artist result of a multi-artist song, and then only rises, to at most 100 |
| Scoring.NameScore | spotdl/utils/matching.py:530-580 | the name score fails exactly when the match strings fail; otherwise it is within [0, 100], at least the slug-name ratio, and at least the match-string ratio when that first ratio is at most 75; it always equals one of the two ratios, and is the slug-name ratio itself when that is above 75 |
| Scoring.TimeScore | spotdl/utils/matching.py:583-598 | the time score is 100 less the distance between the durations, so at most 100, and 100 exactly when they are equal |
| Scoring.AlbumScore | spotdl/utils/matching.py:601-616 | the album score is within [0, 100] and 0 for a result without an album |
| Scoring.InitialArtists | spotdl/utils/matching.py:654-667 | the artist score before the fix-ups is within [0, 100] |
| Scoring.FinalArtists | spotdl/utils/matching.py:654-687 | the three fix-ups never lower the artist score; the second runs without the search query, so it cannot fail |
| Scoring.Decide | spotdl/utils/matching.py:709-766 | a result is kept exactly when its name score is over 50, its artist score at least 70, and its time score at least 50 unless the average is at least 75; the stored value is at most 100 |
| Scoring.Evaluate | spotdl/utils/matching.py:638-770 | a result sharing no word with the song is skipped; evaluation fails exactly when it shares one and the match strings fail; a kept result has a name score over 50, an artist score at least 70 and a value at most 100 |
| Scoring.EvaluateResult | spotdl/utils/matching.py:638-770 | the loop body computes `Evaluate` |
| Scoring.OrderFromFails | spotdl/utils/matching.py:619-772 | the whole ordering fails exactly when some result's evaluation fails |
| Scoring.OrderFromKeeps | spotdl/utils/matching.py:619-772 | every stored result came from the input and was kept, earlier entries stay, and every kept result is stored |
| Scoring.OrderFromProps | spotdl/utils/matching.py:619-772 | failure and contents of the accumulated map together |
| Scoring.OrderResultsSpec | spotdl/utils/matching.py:619-772 | `order_results` fails exactly when some evaluation fails; otherwise it maps exactly the kept results to their evaluated values, each at most 100 |
| Scoring.OrderResults | spotdl/utils/matching.py:619-772 | the loop over the results computes the map of `OrderResultsSpec` |
| Ordering.SortSeqSortsAndPermutes | spotdl/utils/matching.py:125-128 | the reference sort returns a sorted permutation of its input under any total order |
| Ordering.SortedPermutationUnique | spotdl/utils/matching.py:125-128 | two sorted permutations of the same list are equal, so `list.sort()` has one answer |
| Ordering.SortInPlace | spotdl/utils/matching.py:125-128 | the in-place insertion sort leaves the array equal to the reference sort of its old contents |
| Ordering.ReversedSortedDescends | spotdl/utils/matching.py:154 | reversing a sorted list gives a descending one |
| Ordering.ReverseInPlace | spotdl/utils/matching.py:154 | the in-place reversal leaves the array equal to the reversed old contents |
| Ordering.LexLeIsTotalOrder | spotdl/utils/matching.py:125-128 | Python's string comparison, code point by code point, is a total order |
| Numbers.ParseZFilledIntToStr | spotdl/utils/formatter.py:228-235 | a printed integer padded with `zfill` parses back to the integer |
| Numbers.ZFilledPadded | spotdl/utils/formatter.py:228-235 | a printed integer padded with `zfill` has length max(width, printed length) and is the sign, then zeros, then the digits of the magnitude |

## Left out

- `slugify`, `ratio` and `sanitize_filename`: their internals are other libraries. They are parameters. Only `ratio`'s range of [0, 100] is relied on.
- Logging, the `debug` helper, `lru_cache` and the result's `__hash__` are left out. Results are compared and hashed by value.
- Floating point: scores are reals, so rounding of `float` arithmetic is not modelled.
- Durations.ParseDuration: returns the integer number of seconds, not its `float`. The two agree while the total is below 2^53.
- Durations.ParseDuration: `int()` is modelled on ASCII digits only. Python's `int()` also reads other Unicode decimal digits.
- Durations.ToMs: the `precision` argument (`round(result, precision)`) is not modelled. The result is the unrounded integer.
- Durations.ToMs: keyword values are taken as integers already, not as arbitrary objects passed through `int()`.
- Paths are POSIX paths. `Path(text)` is approximated by splitting on "/" and dropping empty and "." pieces. Windows drives and separators are not modelled.
- FileNames.CreateFileName: the formatting of the path is a parameter, `build`, so that the length fallbacks can be reasoned about for any formatter. `FileNames.Builder` and `FileNames.BuildPath` give the one the code uses: `format_query` with sanitizing, then stripping each segment.
- FileNames.FileNameOutcome: the `RecursionError` of the code is the `TooLong` error. The model does not measure the real recursion depth. Instead it proves that at most four calls are made.
- Formatter.Formatted: substitution is sequential in the dict's order. A value that contains a later placeholder is itself expanded, as the code does.
- Scoring.OrderResults: the result is a map, so the dict's insertion order is not kept. That order is the tie order for a later stable sort by score.
- Matching.MatchStrings and Scoring: the song's `artists` list must be non-empty. The code indexes `song.artists[0]` without a check.
- Formatter.Formatted, Formatter.FormatQuery, Formatter.CreateSearchQuery, Formatter.Substitutions, Formatter.FormatsFor, Formatter.FieldValues, Formatter.ArtistsValue, Formatter.TrackNumberValue, Formatter.ListPositionValue and the Formatter lemmas about them: the song's `artists` list must be non-empty. `format_query` raises `IndexError` on an empty list, in `artists.insert(0, song.artists[0])` and in the `{artists}` and `{artist}` entries (spotdl/utils/formatter.py:210-219). That error is not modelled, so "fails exactly when `{output-ext}` has no extension" holds only for songs with at least one artist.
- FileNames.FormattedPath, FileNames.Builder and FileNames.BuildPath: they format through `format_query`, so they carry the same non-empty `artists` requirement and do not model its `IndexError`. FileNames.CreateFileName inherits it when its builder is `FileNames.Builder`.
- Matching.MatchTitle: it calls `create_song_title` and `format_query` on the song, so it requires a non-empty `artists` list. Its "fails exactly when" holds only on that domain.
- Matching.BestMatches, Matching.BestMatchesSpec and Matching.BestMatchKept: the results dict must be non-empty. On an empty dict the code raises `IndexError` at `sorted_results[0][1]` (spotdl/utils/matching.py:236); that error path is not modelled.
- The console and downloader that call these functions are not part of this model.
