/**
 * Decimal text and integers as Python handles them: `str(n)` for an `int`,
 * `int(text)` for a string, and `str.zfill`.
 */
module Numbers {
  import opened Wrappers
  import opened Strings

  predicate IsDigit(c: char) {
    '0' <= c <= '9'
  }

  predicate AllDigits(s: string) {
    forall i | 0 <= i < |s| :: IsDigit(s[i])
  }

  function DigitChar(d: nat): (c: char)
    requires d < 10
    ensures IsDigit(c)
  {
    (('0' as int) + d) as char
  }

  function DigitValue(c: char): (d: nat)
    requires IsDigit(c)
    ensures d < 10
  {
    (c as int) - ('0' as int)
  }

  /** `str(n)` for a non-negative `n`: its decimal digits, without leading zeros. */
  function NatToStr(n: nat): (s: string)
    ensures |s| >= 1 && AllDigits(s)
    ensures |s| > 1 ==> s[0] != '0'
  {
    if n < 10 then [DigitChar(n)] else NatToStr(n / 10) + [DigitChar(n % 10)]
  }

  /** `str(n)` for any integer. */
  function IntToStr(n: int): string {
    if n < 0 then "-" + NatToStr(-n) else NatToStr(n)
  }

  /** The number a string of decimal digits denotes. */
  function DigitsValue(s: string): nat
    requires AllDigits(s)
  {
    if |s| == 0 then 0 else DigitsValue(s[..|s| - 1]) * 10 + DigitValue(s[|s| - 1])
  }

  /** The digits of `s`, in order (drops the `_` separators Python allows between digits). */
  function DigitsOnly(s: string): (r: string)
    ensures AllDigits(r)
  {
    if |s| == 0 then ""
    else if IsDigit(s[|s| - 1]) then DigitsOnly(s[..|s| - 1]) + [s[|s| - 1]]
    else DigitsOnly(s[..|s| - 1])
  }

  /**
   * The body of a Python integer literal: digits, with single underscores
   * allowed between two digits (`1_000`).
   */
  predicate IsDigitGroups(s: string) {
    |s| > 0 && IsDigit(s[0]) && IsDigit(s[|s| - 1])
    && (forall i | 0 <= i < |s| :: IsDigit(s[i]) || s[i] == '_')
    && (forall i | 0 <= i < |s| - 1 :: s[i] == '_' ==> s[i + 1] != '_')
  }

  /** The value of a digit-group body, or `None` when it is not one. */
  function ParseDigitGroups(body: string): Option<nat> {
    if IsDigitGroups(body) then Some(DigitsValue(DigitsOnly(body))) else None
  }

  function SignedValue(sign: char, v: nat): int {
    var n: int := v;
    if sign == '-' then -n else n
  }

  /** An optional sign followed by a digit-group body. */
  function ParseSigned(t: string): Option<int> {
    if |t| > 0 && (t[0] == '-' || t[0] == '+') then
      match ParseDigitGroups(t[1..])
      case None => None
      case Some(v) => Some(SignedValue(t[0], v))
    else
      match ParseDigitGroups(t)
      case None => None
      case Some(v) => Some(v)
  }

  /**
   * `int(text)`: surrounding whitespace, an optional sign, then ASCII digit
   * groups; anything else is a ValueError, modelled as `None`.
   */
  function ParseInt(text: string): Option<int> {
    ParseSigned(Strip(text))
  }

  function Zeros(n: nat): (z: string)
    ensures |z| == n && AllDigits(z)
    ensures forall i | 0 <= i < n :: z[i] == '0'
  {
    if n == 0 then "" else Zeros(n - 1) + "0"
  }

  /**
   * `s.zfill(width)`: left-pads with `0` up to `width` characters, after a
   * leading sign if there is one.
   */
  function ZFill(s: string, width: int): string {
    if |s| >= width then s
    else if |s| > 0 && (s[0] == '+' || s[0] == '-') then [s[0]] + Zeros(width - |s|) + s[1..]
    else Zeros(width - |s|) + s
  }

  // ---------------------------------------------------------------------------
  // Lemmas
  // ---------------------------------------------------------------------------

  lemma {:induction false} DigitsValueOfNatToStr(n: nat)
    ensures DigitsValue(NatToStr(n)) == n
  {
    if n >= 10 {
      DigitsValueOfNatToStr(n / 10);
      var s := NatToStr(n);
      assert s[..|s| - 1] == NatToStr(n / 10);
    }
  }

  lemma {:induction false} DigitsOnlyOfDigits(s: string)
    requires AllDigits(s)
    ensures DigitsOnly(s) == s
  {
    if |s| > 0 {
      DigitsOnlyOfDigits(s[..|s| - 1]);
    }
  }

  /** Leading zeros do not change the value of a digit string. */
  lemma {:induction false} LeadingZerosValue(k: nat, s: string)
    requires AllDigits(s)
    ensures AllDigits(Zeros(k) + s) && DigitsValue(Zeros(k) + s) == DigitsValue(s)
    decreases |s|
  {
    var z := Zeros(k) + s;
    if |s| == 0 {
      assert z == Zeros(k);
      ZerosValue(k);
    } else {
      assert z[..|z| - 1] == Zeros(k) + s[..|s| - 1];
      LeadingZerosValue(k, s[..|s| - 1]);
    }
  }

  lemma {:induction false} ZerosValue(k: nat)
    ensures DigitsValue(Zeros(k)) == 0
  {
    if k > 0 {
      var z, p := Zeros(k), Zeros(k - 1);
      ZerosValue(k - 1);
      assert z == p + "0";
      assert z[..k - 1] == p;
      assert DigitsValue(z) == DigitsValue(p) * 10 + DigitValue('0');
    }
  }

  /** `int` reads back every decimal text `str` writes, also after `zfill` padding. */
  lemma {:induction false} ParseZFilledIntToStr(n: int, width: int)
    ensures ParseInt(ZFill(IntToStr(n), width)) == Some(n)
  {
    if n < 0 {
      NegativeZFilled(n, width);
    } else {
      NonNegativeZFilled(n, width);
    }
  }

  /** A zero-filled non-negative number is all digits and reads back as itself. */
  lemma {:induction false} NonNegativeZFilled(n: nat, width: int)
    ensures AllDigits(ZFill(IntToStr(n), width)) && ParseInt(ZFill(IntToStr(n), width)) == Some(n)
  {
    var k := ZFilledNatShape(n, width);
    var body := PaddedDigits(k, n);
    assert ZFill(IntToStr(n), width) == body;
    ParseBody(body);
  }

  lemma {:induction false} NegativeZFilled(n: int, width: int)
    requires n < 0
    ensures ParseInt(ZFill(IntToStr(n), width)) == Some(n)
  {
    var m: nat := -n;
    var k := ZFilledNegativeShape(n, width);
    var body := PaddedDigits(k, m);
    NegativeParse(ZFill(IntToStr(n), width), body, m);
  }

  lemma {:induction false} NegativeParse(v: string, body: string, m: nat)
    requires v == ['-'] + body && AllDigits(body) && |body| > 0 && DigitsValue(body) == m
    ensures ParseInt(v) == Some(-(m as int))
  {
    ParseSignedBody('-', body);
  }

  lemma {:induction false} PaddedDigits(k: nat, m: nat) returns (body: string)
    ensures body == Zeros(k) + NatToStr(m)
    ensures AllDigits(body) && |body| > 0 && DigitsValue(body) == m
  {
    body := Zeros(k) + NatToStr(m);
    DigitsValueOfNatToStr(m);
    LeadingZerosValue(k, NatToStr(m));
  }

  /** `n` in decimal with `pad` zeros between its sign and its digits. */
  function Padded(n: int, pad: nat): string {
    (if n < 0 then "-" else "") + (Zeros(pad) + NatToStr(if n < 0 then -n else n))
  }

  /**
   * `v` is `n` zero-filled to `width`: as wide as `width` or as `str(n)`,
   * whichever is more, zeros between the sign and the digits, reading back
   * as `n`, and all digits when `n` is not negative.
   */
  predicate ZeroFilled(v: string, n: int, width: int) {
    var s := IntToStr(n);
    && |v| == (if |s| >= width then |s| else width)
    && v == Padded(n, |v| - |s|)
    && ParseInt(v) == Some(n)
    && (n >= 0 ==> AllDigits(v))
  }

  /**
   * `str(n).zfill(width)` is exactly `width` characters when `str(n)` is
   * shorter, and the padding is zeros after the sign.
   */
  lemma {:induction false} ZFilledPadded(n: int, width: int)
    ensures var v := ZFill(IntToStr(n), width);
      |v| == (if |IntToStr(n)| >= width then |IntToStr(n)| else width)
      && v == Padded(n, |v| - |IntToStr(n)|)
  {
    var k := ZFilledIntShape(n, width);
    ZFillShape(IntToStr(n), width);
  }

  /** `zfill` puts its zeros after the sign of a number's text. */
  lemma {:induction false} ZFilledIntShape(n: int, width: int) returns (k: nat)
    ensures var m: nat := if n < 0 then -n else n;
      ZFill(IntToStr(n), width) == (if n < 0 then "-" else "") + (Zeros(k) + NatToStr(m))
  {
    if n < 0 {
      k := ZFilledNegativeShape(n, width);
    } else {
      k := ZFilledNatShape(n, width);
      assert "" + (Zeros(k) + NatToStr(n)) == Zeros(k) + NatToStr(n);
    }
  }

  lemma {:induction false} ZFilledNegativeShape(n: int, width: int) returns (k: nat)
    requires n < 0
    ensures ZFill(IntToStr(n), width) == "-" + (Zeros(k) + NatToStr(-n))
  {
    var m: nat := -n;
    var s := IntToStr(n);
    k := if |s| >= width then 0 else width - |s|;
    assert s == "-" + NatToStr(m);
    assert s[1..] == NatToStr(m);
    if |s| >= width {
      assert Zeros(0) == "";
    } else {
      assert ZFill(s, width) == [s[0]] + Zeros(k) + s[1..];
      assert [s[0]] + Zeros(k) + s[1..] == [s[0]] + (Zeros(k) + s[1..]);
    }
  }

  lemma {:induction false} ZFilledNatShape(n: nat, width: int) returns (k: nat)
    ensures ZFill(IntToStr(n), width) == Zeros(k) + NatToStr(n)
  {
    var s := IntToStr(n);
    k := if |s| >= width then 0 else width - |s|;
    assert s == NatToStr(n);
    assert s[0] != '+' && s[0] != '-';
    if |s| >= width {
      assert Zeros(0) == "";
    }
  }

  lemma {:induction false} ParseBody(body: string)
    requires AllDigits(body) && |body| > 0
    ensures ParseInt(body) == Some(DigitsValue(body) as int)
  {
    DigitsOnlyOfDigits(body);
    StripKeepsUnpadded(body);
    DigitGroupsOfDigits(body);
    assert ParseDigitGroups(body) == Some(DigitsValue(body));
  }

  lemma {:induction false} ParseSignedBody(sign: char, body: string)
    requires AllDigits(body) && |body| > 0 && (sign == '-' || sign == '+')
    ensures ParseInt([sign] + body) == Some(SignedValue(sign, DigitsValue(body)))
  {
    var t := [sign] + body;
    assert t[|t| - 1] == body[|body| - 1];
    StripKeepsUnpadded(t);
    assert t[1..] == body;
    DigitGroupsOfDigits(body);
    DigitsOnlyOfDigits(body);
    assert ParseDigitGroups(t[1..]) == Some(DigitsValue(body));
    assert ParseSigned(t) == Some(SignedValue(sign, DigitsValue(body)));
  }

  lemma {:induction false} DigitGroupsOfDigits(s: string)
    requires AllDigits(s) && |s| > 0
    ensures IsDigitGroups(s)
  {
  }

  lemma {:induction false} StripKeepsUnpadded(s: string)
    requires |s| > 0 && !IsSpace(s[0]) && !IsSpace(s[|s| - 1])
    ensures Strip(s) == s
  {
    assert StripLeft(s) == s;
  }

  /** `str(n)` for n >= 0 read back by `int`. */
  lemma {:induction false} ParseIntToStr(n: int)
    ensures ParseInt(IntToStr(n)) == Some(n)
  {
    ParseZFilledIntToStr(n, 0);
  }

  /** `zfill` output is at least `width` long and keeps the original text at its end. */
  lemma {:induction false} ZFillShape(s: string, width: int)
    ensures |ZFill(s, width)| == (if |s| >= width then |s| else width)
    ensures |ZFill(s, width)| >= width && |ZFill(s, width)| >= |s|
    ensures width <= |s| ==> ZFill(s, width) == s
    ensures !(|s| > 0 && (s[0] == '+' || s[0] == '-')) ==> EndsWith(ZFill(s, width), s)
  {
  }
}
