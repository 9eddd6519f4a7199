/**
 * `parse_duration` and `to_ms`: clock text to seconds and milliseconds.
 */
module Durations {
  import opened Wrappers
  import opened Strings
  import opened Numbers

  // ---------------------------------------------------------------------------
  // parse_duration
  // ---------------------------------------------------------------------------

  /** Seconds, minutes and hours, from the right of "h:mm:ss". */
  const Weights: seq<int> := [1, 60, 3600]

  /**
   * The last pieces paired with `weights` from the right, as `zip` pairs
   * them, multiplied and summed; `None` when one of the paired pieces is
   * not an integer.
   */
  function WeightedTail(pieces: seq<string>, weights: seq<int>): Option<int>
    decreases |weights|
  {
    if |weights| == 0 || |pieces| == 0 then Some(0)
    else AddWeighted(weights[0], ParseInt(pieces[|pieces| - 1]), WeightedTail(pieces[..|pieces| - 1], weights[1..]))
  }

  /** `w * v + t`, or `None` when either side failed to parse. */
  function AddWeighted(w: int, v: Option<int>, t: Option<int>): Option<int> {
    if v.Some? && t.Some? then Some(w * v.value + t.value) else None
  }

  /** `parse_duration`: seconds in "h:mm:ss"-style text, 0 when there is none or it does not parse. */
  function ParseDuration(duration: Option<string>): (r: int)
    ensures duration.None? ==> r == 0
    ensures duration.Some? && ParseInt(Split(duration.value, ":")[|Split(duration.value, ":")| - 1]) == None ==> r == 0
  {
    if duration.None? then 0
    else match WeightedTail(Split(duration.value, ":"), Weights)
      case None => 0
      case Some(t) => t
  }

  lemma {:induction false} WeightedTailSuffix(p: seq<string>, q: seq<string>, weights: seq<int>)
    requires |q| >= |weights|
    ensures WeightedTail(p + q, weights) == WeightedTail(q, weights)
    decreases |weights|
  {
    if |weights| > 0 {
      var pq := p + q;
      assert pq[|pq| - 1] == q[|q| - 1];
      assert pq[..|pq| - 1] == p + q[..|q| - 1];
      WeightedTailSuffix(p, q[..|q| - 1], weights[1..]);
    }
  }

  /** Only the last three components count: whatever comes before them is ignored. */
  lemma {:induction false} LastThreeOnly(before: string, clock: string)
    requires |Split(clock, ":")| >= 3
    ensures ParseDuration(Some(before + ":" + clock)) == ParseDuration(Some(clock))
  {
    SplitConcat(before, ':', clock);
    WeightedTailSuffix(Split(before, ":"), Split(clock, ":"), Weights);
  }

  predicate NoColon(s: string) {
    forall i | 0 <= i < |s| :: s[i] != ':'
  }

  lemma {:induction false} IntToStrNoColon(n: int)
    ensures NoColon(IntToStr(n))
  {
    var m: nat := if n < 0 then -n else n;
    assert AllDigits(NatToStr(m));
  }

  lemma {:induction false} ZFillNoColon(n: int, width: int)
    ensures NoColon(ZFill(IntToStr(n), width))
  {
    var m: nat := if n < 0 then -n else n;
    var k := ZFilledIntShape(n, width);
    assert AllDigits(Zeros(k) + NatToStr(m));
  }

  /** The pieces of "h:mm:ss" for three integers. */
  function Clock(h: int, m: int, s: int): string {
    Join(":", [IntToStr(h), ZFill(IntToStr(m), 2), ZFill(IntToStr(s), 2)])
  }

  lemma {:induction false} ClockPieces(h: int, m: int, s: int)
    ensures Split(Clock(h, m, s), ":") == [IntToStr(h), ZFill(IntToStr(m), 2), ZFill(IntToStr(s), 2)]
  {
    var parts := [IntToStr(h), ZFill(IntToStr(m), 2), ZFill(IntToStr(s), 2)];
    IntToStrNoColon(h);
    ZFillNoColon(m, 2);
    ZFillNoColon(s, 2);
    forall p | p in parts ensures ':' !in p {
      assert NoColon(p);
    }
    SplitOfJoin(parts, ':');
  }

  /** Three pieces that parse are weighted as hours, minutes and seconds. */
  lemma {:induction false} WeightedThree(a: string, b: string, c: string, x: int, y: int, z: int)
    requires ParseInt(a) == Some(x) && ParseInt(b) == Some(y) && ParseInt(c) == Some(z)
    ensures WeightedTail([a, b, c], Weights) == Some(3600 * x + 60 * y + z)
  {
    WeightedStep([], a, 3600, [], x, 0);
    WeightedStep([a], b, 60, [3600], y, 3600 * x);
    WeightedStep([a, b], c, 1, [60, 3600], z, 60 * y + 3600 * x);
    assert [a, b, c] == [a, b] + [c] && Weights == [1] + [60, 3600];
  }

  /** One more piece from the right, weighted by the first remaining weight. */
  lemma {:induction false} WeightedStep(init: seq<string>, last: string, w: int, ws: seq<int>, v: int, t: int)
    requires ParseInt(last) == Some(v) && WeightedTail(init, ws) == Some(t)
    ensures WeightedTail(init + [last], [w] + ws) == Some(w * v + t)
  {
    assert (init + [last])[..|init|] == init;
    assert ([w] + ws)[1..] == ws;
  }

  /** The value of piece `i`, or 0 when there is no such piece or it is not an integer. */
  function PieceValue(p: seq<string>, i: int): int {
    if 0 <= i < |p| && ParseInt(p[i]).Some? then ParseInt(p[i]).value else 0
  }

  /** Each of the last three pieces, or each piece when there are fewer, is an integer. */
  predicate LastPiecesParse(p: seq<string>) {
    forall i | |p| - 3 <= i < |p| && 0 <= i :: ParseInt(p[i]).Some?
  }

  /**
   * `parse_duration` in full: 0 when one of the last three pieces is not an
   * integer, otherwise those pieces weighted as hours, minutes and seconds
   * from the right (a missing piece counts as 0).
   */
  lemma {:induction false} ParseDurationValue(s: string)
    ensures var p := Split(s, ":");
      ParseDuration(Some(s)) ==
        (if LastPiecesParse(p) then 3600 * PieceValue(p, |p| - 3) + 60 * PieceValue(p, |p| - 2) + PieceValue(p, |p| - 1)
         else 0)
  {
    TailValue(Split(s, ":"));
  }

  /** The weighted sum of the pieces: defined exactly when the last three parse. */
  lemma {:induction false} TailValue(p: seq<string>)
    requires |p| >= 1
    ensures WeightedTail(p, Weights) ==
      (if LastPiecesParse(p) then Some(3600 * PieceValue(p, |p| - 3) + 60 * PieceValue(p, |p| - 2) + PieceValue(p, |p| - 1))
       else None)
  {
    if LastPiecesParse(p) {
      ParsedTail(p);
    } else {
      var i :| |p| - 3 <= i < |p| && 0 <= i && ParseInt(p[i]).None?;
      WeightedTailNone(p, Weights, i);
    }
  }

  /** A paired piece that is not an integer makes the whole sum fail. */
  lemma {:induction false} WeightedTailNone(p: seq<string>, weights: seq<int>, i: int)
    requires 0 <= i < |p| && |p| - |weights| <= i && ParseInt(p[i]).None?
    ensures WeightedTail(p, weights) == None
    decreases |weights|
  {
    if i < |p| - 1 {
      var init := p[..|p| - 1];
      assert init[i] == p[i];
      WeightedTailNone(init, weights[1..], i);
    }
  }

  /** When the last pieces parse, the sum is theirs, weighted from the right. */
  lemma {:induction false} ParsedTail(p: seq<string>)
    requires |p| >= 1 && LastPiecesParse(p)
    ensures WeightedTail(p, Weights) ==
      Some(3600 * PieceValue(p, |p| - 3) + 60 * PieceValue(p, |p| - 2) + PieceValue(p, |p| - 1))
  {
    var n := |p|;
    var x, y, z := PieceValue(p, n - 3), PieceValue(p, n - 2), PieceValue(p, n - 1);
    assert ParseInt(p[n - 1]) == Some(z);
    if n == 1 {
      assert x == 0 && y == 0;
      ParsedOne(p, z);
    } else if n == 2 {
      assert x == 0 && ParseInt(p[0]) == Some(y);
      ParsedTwo(p, y, z);
    } else {
      assert ParseInt(p[n - 3]) == Some(x) && ParseInt(p[n - 2]) == Some(y);
      ParsedMany(p, x, y, z);
    }
  }

  /** A single piece is seconds. */
  lemma {:induction false} ParsedOne(p: seq<string>, z: int)
    requires |p| == 1 && ParseInt(p[0]) == Some(z)
    ensures WeightedTail(p, Weights) == Some(z)
  {
    WeightedStep([], p[0], 1, [60, 3600], z, 0);
    assert p == [] + [p[0]] && Weights == [1] + [60, 3600];
  }

  /** Two pieces are minutes and seconds. */
  lemma {:induction false} ParsedTwo(p: seq<string>, y: int, z: int)
    requires |p| == 2 && ParseInt(p[0]) == Some(y) && ParseInt(p[1]) == Some(z)
    ensures WeightedTail(p, Weights) == Some(60 * y + z)
  {
    WeightedStep([], p[0], 60, [3600], y, 0);
    assert [p[0]] == [] + [p[0]];
    WeightedStep([p[0]], p[1], 1, [60, 3600], z, 60 * y);
    assert p == [p[0]] + [p[1]] && Weights == [1] + [60, 3600];
  }

  /** Three or more pieces: the last three are hours, minutes and seconds. */
  lemma {:induction false} ParsedMany(p: seq<string>, x: int, y: int, z: int)
    requires |p| >= 3
    requires ParseInt(p[|p| - 3]) == Some(x) && ParseInt(p[|p| - 2]) == Some(y) && ParseInt(p[|p| - 1]) == Some(z)
    ensures WeightedTail(p, Weights) == Some(3600 * x + 60 * y + z)
  {
    var n := |p|;
    var tail := p[n - 3..];
    assert p == p[..n - 3] + tail;
    WeightedTailSuffix(p[..n - 3], tail, Weights);
    assert tail == [p[n - 3], p[n - 2], p[n - 1]];
    WeightedThree(p[n - 3], p[n - 2], p[n - 1], x, y, z);
  }

  /** Clock text written from hours, minutes and seconds reads back as their total in seconds. */
  lemma {:induction false} ClockRoundTrip(h: int, m: int, s: int)
    ensures ParseDuration(Some(Clock(h, m, s))) == 3600 * h + 60 * m + s
  {
    ClockPieces(h, m, s);
    ParseIntToStr(h);
    ParseZFilledIntToStr(m, 2);
    ParseZFilledIntToStr(s, 2);
    WeightedThree(IntToStr(h), ZFill(IntToStr(m), 2), ZFill(IntToStr(s), 2), h, m, s);
  }

  /** "1:02:03" is 3723 seconds. */
  lemma {:induction false} ParseDurationExample()
    ensures ParseDuration(Some("1:02:03")) == 3723
  {
    ExamplePieces();
    ExampleDigits();
    WeightedThree("1", "02", "03", 1, 2, 3);
  }

  lemma {:induction false} ExamplePieces()
    ensures Split("1:02:03", ":") == ["1", "02", "03"]
  {
    var parts := ["1", "02", "03"];
    assert Join(":", parts) == "1:02:03";
    forall p | p in parts ensures ':' !in p {
    }
    SplitOfJoin(parts, ':');
  }

  lemma {:induction false} ExampleDigits()
    ensures ParseInt("1") == Some(1) && ParseInt("02") == Some(2) && ParseInt("03") == Some(3)
  {
    ParseDigit('1', 1);
    ParseDigitPair('0', '2', 2);
    ParseDigitPair('0', '3', 3);
  }

  /** One digit reads back as its value. */
  lemma {:induction false} ParseDigit(c: char, v: int)
    requires IsDigit(c) && v == DigitValue(c)
    ensures ParseInt([c]) == Some(v)
  {
    assert [c][..0] == [];
    assert DigitsValue([c]) == DigitValue(c);
    ParseBody([c]);
  }

  /** Two digits `c0 c1` read back as `10 * c0 + c1`. */
  lemma {:induction false} ParseDigitPair(c0: char, c1: char, v: int)
    requires IsDigit(c0) && IsDigit(c1) && v == 10 * DigitValue(c0) + DigitValue(c1)
    ensures ParseInt([c0, c1]) == Some(v)
  {
    var s := [c0, c1];
    assert s[..1] == [c0] && [c0][..0] == [];
    assert DigitsValue([c0]) == DigitValue(c0);
    assert DigitsValue(s) == DigitsValue([c0]) * 10 + DigitValue(c1);
    ParseBody(s);
  }

  /** Text that is not a number gives 0. */
  lemma {:induction false} ParseDurationGarbage()
    ensures ParseDuration(Some("garbage")) == 0
  {
    SplitWithoutSeparator("garbage", ':');
    StripKeepsUnpadded("garbage");
    assert !IsDigitGroups("garbage");
  }

  // ---------------------------------------------------------------------------
  // to_ms
  // ---------------------------------------------------------------------------

  /** The keyword arguments "hour", "min", "sec" and "ms"; a missing one counts as 0. */
  datatype TimeArgs = TimeArgs(hour: Option<int>, min: Option<int>, sec: Option<int>, ms: Option<int>)

  function OrZero(v: Option<int>): int {
    if v.Some? then v.value else 0
  }

  /** Python's `s[i:j]` for `0 <= i <= j`: the bounds are clamped to the string. */
  function Slice(s: string, i: nat, j: nat): (r: string)
    requires i <= j
    ensures |r| == (if j <= |s| then j - i else if i <= |s| then |s| - i else 0)
  {
    var lo := if i <= |s| then i else |s|;
    var hi := if j <= |s| then j else |s|;
    s[lo..hi]
  }

  function Millis(hour: int, minute: int, sec: int, ms: int): int {
    hour * 3600000 + minute * 60000 + sec * 1000 + ms
  }

  /**
   * `to_ms` without `precision`: a non-empty string is read at the fixed
   * offsets [0:2], [3:5], [6:8] and [10:11]; otherwise the keyword
   * components are added up.
   */
  function ToMs(text: Option<string>, args: TimeArgs): (r: Outcome<int>)
    ensures r.Err? ==> r.error == NotAnInteger && text.Some? && text.value != ""
    ensures (text.None? || text.value == "") ==>
      r == Ok(Millis(OrZero(args.hour), OrZero(args.min), OrZero(args.sec), OrZero(args.ms)))
  {
    if text.Some? && text.value != "" then
      var s := text.value;
      var h, m, sec, ms := ParseInt(Slice(s, 0, 2)), ParseInt(Slice(s, 3, 5)),
                           ParseInt(Slice(s, 6, 8)), ParseInt(Slice(s, 10, 11));
      if h.None? || m.None? || sec.None? || ms.None? then Err(NotAnInteger)
      else Ok(Millis(h.value, m.value, sec.value, ms.value))
    else
      Ok(Millis(OrZero(args.hour), OrZero(args.min), OrZero(args.sec), OrZero(args.ms)))
  }

  lemma {:induction false} EmptyIsNotAnInteger()
    ensures ParseInt("") == None
  {
    assert Strip("") == "";
  }

  /** A string of at most ten characters never converts: its [10:11] slice is empty. */
  lemma {:induction false} ShortTextFails(text: string, args: TimeArgs)
    requires 0 < |text| <= 10
    ensures ToMs(Some(text), args) == Err(NotAnInteger)
  {
    assert Slice(text, 10, 11) == "";
    EmptyIsNotAnInteger();
  }

  /** The four fixed-offset slices of "hh?mm?ss??d...". */
  lemma {:induction false} FixedSlices(text: string, hh: string, mm: string, ss: string, a: char, b: char, c: char, e: char,
                    d: char, rest: string)
    requires |hh| == 2 && |mm| == 2 && |ss| == 2
    requires text == hh + [a] + mm + [b] + ss + [c, e, d] + rest
    ensures Slice(text, 0, 2) == hh && Slice(text, 3, 5) == mm
    ensures Slice(text, 6, 8) == ss && Slice(text, 10, 11) == [d]
  {
    assert text[0..2] == hh;
    assert text[3..5] == mm;
    assert text[6..8] == ss;
    assert text[10..11] == [d];
  }

  /**
   * "hh:mm:ss" followed by two characters and a digit converts to the same
   * milliseconds as the keyword form with those components, the digit
   * counting as milliseconds.
   */
  lemma {:induction false} TextAgreesWithKeywords(hh: string, mm: string, ss: string, a: char, b: char, c: char, e: char,
                               d: char, rest: string, args: TimeArgs)
    requires |hh| == 2 && |mm| == 2 && |ss| == 2
    requires AllDigits(hh) && AllDigits(mm) && AllDigits(ss) && IsDigit(d)
    ensures var text := hh + [a] + mm + [b] + ss + [c, e, d] + rest;
      var keywords := TimeArgs(Some(DigitsValue(hh)), Some(DigitsValue(mm)), Some(DigitsValue(ss)), Some(DigitValue(d)));
      ToMs(Some(text), args) == ToMs(None, keywords)
      && ToMs(None, keywords) == Ok(Millis(DigitsValue(hh), DigitsValue(mm), DigitsValue(ss), DigitValue(d)))
  {
    var text := hh + [a] + mm + [b] + ss + [c, e, d] + rest;
    FixedSlices(text, hh, mm, ss, a, b, c, e, d, rest);
    ParseBody(hh);
    ParseBody(mm);
    ParseBody(ss);
    ParseBody([d]);
    assert DigitsValue([d]) == DigitValue(d) by {
      assert [d][..0] == [];
    }
  }
}
