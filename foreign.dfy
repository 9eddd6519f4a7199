/**
 * The library functions the formatter and the matcher call but whose
 * internals are not modelled: `slugify` (python-slugify with pykakasi
 * romanisation), rapidfuzz's `fuzz.ratio`, and yt-dlp's `sanitize_filename`.
 * Each is a parameter of the operations that use it; only what the callers
 * rely on is assumed of it.
 */
module Foreign {
  import opened Wrappers

  /** `slugify(text)`: any deterministic string function. */
  type Slugify = string -> string

  /** `sanitize_filename(name, True, False)` from yt-dlp: any deterministic string function. */
  type SanitizeFilename = string -> string

  /** `ratio(a, b)`: a similarity score between 0 and 100. */
  type Ratio = f: (string, string) -> real | forall a, b :: 0.0 <= f(a, b) <= 100.0
    witness (a: string, b: string) => 0.0

  /**
   * `ratio(a, b)` where either side may be the `None` padding of
   * `zip_longest`; rapidfuzz scores a comparison with `None` as 0.
   */
  function RatioOpt(ratio: Ratio, a: Option<string>, b: Option<string>): (r: real)
    ensures 0.0 <= r <= 100.0
    ensures a.None? || b.None? ==> r == 0.0
  {
    if a.Some? && b.Some? then ratio(a.value, b.value) else 0.0
  }
}
