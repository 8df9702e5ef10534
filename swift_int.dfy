/**
 * Swift's 64-bit `Int` as the client sees it: its range, its decimal
 * rendering (`String(i)`, string interpolation and `%0Nd`), and the
 * failable parse `Int(String)`.
 */
module SwiftInt {
  import opened Wrappers

  const INT64_MIN: int := -0x8000_0000_0000_0000
  const INT64_MAX: int := 0x7FFF_FFFF_FFFF_FFFF

  predicate IsInt64(i: int) {
    INT64_MIN <= i <= INT64_MAX
  }

  predicate IsDigit(c: char) {
    '0' <= c <= '9'
  }

  predicate AllDigits(s: string) {
    forall k :: 0 <= k < |s| ==> IsDigit(s[k])
  }

  function DigitValue(c: char): (d: nat)
    requires IsDigit(c)
    ensures d < 10
  {
    c as int - '0' as int
  }

  function DigitChar(d: nat): (c: char)
    requires d < 10
    ensures IsDigit(c) && DigitValue(c) == d
  {
    ('0' as int + d) as char
  }

  /** The number a run of decimal digits denotes, most significant digit first. */
  function DigitsValue(s: string): nat
    requires AllDigits(s)
  {
    if s == [] then 0 else DigitsValue(s[..|s| - 1]) * 10 + DigitValue(s[|s| - 1])
  }

  /** The shortest decimal digits of `n` ("0" for zero). */
  function NatDigits(n: nat): (s: string)
    ensures |s| >= 1 && AllDigits(s)
    ensures n < 10 <==> |s| == 1
    ensures |s| > 1 ==> s[0] != '0'
  {
    if n < 10 then [DigitChar(n)] else NatDigits(n / 10) + [DigitChar(n % 10)]
  }

  /** `String(i)` and `"\(i)"` for an `Int`: a leading '-' for negatives, then the digits. */
  function DecimalString(i: int): (s: string)
    ensures |s| >= 1 && (s[0] == '-' <==> i < 0)
    // after the sign: the digits of the magnitude, without leading zeros
    ensures var digits := if i < 0 then s[1..] else s;
            && |digits| >= 1 && AllDigits(digits)
            && DigitsValue(digits) == (if i < 0 then -i else i)
            && (|digits| > 1 ==> digits[0] != '0')
    ensures IsInt64(i) ==> ParseInt(s) == Some(i)
  {
    ParseDecimalRoundTrip(i);
    var n: nat := if i < 0 then -i else i;
    NatDigitsValue(n);
    assert ("-" + NatDigits(n))[1..] == NatDigits(n);
    if i < 0 then "-" + NatDigits(n) else NatDigits(n)
  }

  /**
   * `Int(s)` (radix 10): an optional '+' or '-' followed by one or more ASCII
   * digits and nothing else, whose value fits in 64 bits; otherwise nil.
   */
  function ParseInt(s: string): (r: Option<int>)
    ensures r.Some? ==> IsInt64(r.value)
    // a sign counts only with at least one digit after it
    ensures r.Some? ==> |s| >= 1 && (IsDigit(s[0]) || (|s| >= 2 && (s[0] == '-' || s[0] == '+')))
    ensures r.Some? ==> forall k :: 1 <= k < |s| ==> IsDigit(s[k])
    // an unsigned or '+'-signed digit run in range is its value; a '-'-signed one its negation
    ensures |s| >= 1 && AllDigits(s) ==>
              r == (if DigitsValue(s) <= INT64_MAX then Some(DigitsValue(s)) else None)
    ensures |s| >= 2 && s[0] == '+' && AllDigits(s[1..]) ==>
              r == (if DigitsValue(s[1..]) <= INT64_MAX then Some(DigitsValue(s[1..])) else None)
    ensures |s| >= 2 && s[0] == '-' && AllDigits(s[1..]) ==>
              var magnitude: int := DigitsValue(s[1..]);
              r == (if -magnitude >= INT64_MIN then Some(-magnitude) else None)
  {
    var signed := |s| > 0 && (s[0] == '-' || s[0] == '+');
    var digits := if signed then s[1..] else s;
    if |digits| == 0 || !AllDigits(digits) then None
    else
      var magnitude: int := DigitsValue(digits);
      var value: int := if signed && s[0] == '-' then -magnitude else magnitude;
      if IsInt64(value) then Some(value) else None
  }

  function Pow10(k: nat): (p: nat)
    ensures p >= 1
  {
    if k == 0 then 1 else 10 * Pow10(k - 1)
  }

  /** A number below 10^k has at most k digits. */
  lemma {:induction false} NatDigitsShort(n: nat, k: nat)
    requires 1 <= k && n < Pow10(k)
    ensures |NatDigits(n)| <= k
  {
    if n >= 10 {
      assert Pow10(1) == 10;
      assert n / 10 < Pow10(k - 1);
      NatDigitsShort(n / 10, k - 1);
    }
  }

  /** `k` zero characters. */
  function Zeros(k: nat): (s: string)
    ensures |s| == k && AllDigits(s)
  {
    seq(k, _ => '0')
  }

  /** Left-pads a digit run with zeros to at least `width` characters. */
  function ZeroPad(s: string, width: nat): (r: string)
  {
    if |s| >= width then s else Zeros(width - |s|) + s
  }

  /** `String(format: "%0<width>d", i)`: zero padding after the sign, the sign counting towards the width. */
  function Padded(i: int, width: nat): (s: string)
    ensures |s| == if |DecimalString(i)| >= width then |DecimalString(i)| else width
    ensures |s| >= 1 && (s[0] == '-' <==> i < 0)
    ensures i >= 0 ==> AllDigits(s)
    ensures IsInt64(i) ==> ParseInt(s) == Some(i)
  {
    ParsePaddedRoundTrip(i, width);
    if i < 0 then "-" + ZeroPad(NatDigits(-i), if width > 0 then width - 1 else 0)
    else ZeroPad(NatDigits(i), width)
  }

  /** A non-negative value with at most `width` digits pads to exactly `width` digits and reads back. */
  lemma PaddedExact(i: int, width: nat)
    requires 1 <= width && 0 <= i < Pow10(width) && IsInt64(i)
    ensures |Padded(i, width)| == width && AllDigits(Padded(i, width))
    ensures ParseInt(Padded(i, width)) == Some(i)
  {
    NatDigitsShort(i, width);
  }

  lemma DigitsValueAppend(s: string, c: char)
    requires AllDigits(s) && IsDigit(c)
    ensures AllDigits(s + [c])
    ensures DigitsValue(s + [c]) == DigitsValue(s) * 10 + DigitValue(c)
  {
    assert (s + [c])[..|s|] == s;
  }

  /** The digits `NatDigits` renders denote the number rendered. */
  lemma {:induction false} NatDigitsValue(n: nat)
    ensures DigitsValue(NatDigits(n)) == n
  {
    if n >= 10 {
      NatDigitsValue(n / 10);
      DigitsValueAppend(NatDigits(n / 10), DigitChar(n % 10));
    }
  }

  /** Leading zeros do not change the value of a digit run. */
  lemma {:induction false} ZerosValue(k: nat, s: string)
    requires AllDigits(s)
    ensures AllDigits(Zeros(k) + s)
    ensures DigitsValue(Zeros(k) + s) == DigitsValue(s)
  {
    if s == [] {
      assert Zeros(k) + s == Zeros(k);
      if k > 0 {
        assert Zeros(k)[..k - 1] == Zeros(k - 1);
        ZerosValue(k - 1, []);
        assert Zeros(k - 1) + [] == Zeros(k - 1);
      }
    } else {
      var init, last := s[..|s| - 1], s[|s| - 1];
      assert s == init + [last];
      ZerosValue(k, init);
      assert Zeros(k) + s == (Zeros(k) + init) + [last];
      DigitsValueAppend(Zeros(k) + init, last);
      DigitsValueAppend(init, last);
    }
  }

  /** Reading back a rendered digit run after an optional sign. */
  lemma ParseSignedDigits(i: int, digits: string)
    requires IsInt64(i) && AllDigits(digits) && |digits| >= 1
    requires DigitsValue(digits) == if i < 0 then -i else i
    ensures ParseInt(if i < 0 then "-" + digits else digits) == Some(i)
  {
    var s := if i < 0 then "-" + digits else digits;
    if i < 0 {
      assert s[1..] == digits;
    } else {
      assert IsDigit(s[0]);
    }
  }

  lemma ParseDecimalRoundTrip(i: int)
    ensures IsInt64(i) ==> ParseInt(if i < 0 then "-" + NatDigits(-i) else NatDigits(i)) == Some(i)
  {
    if IsInt64(i) {
      var n: nat := if i < 0 then -i else i;
      NatDigitsValue(n);
      ParseSignedDigits(i, NatDigits(n));
    }
  }

  lemma ParsePaddedRoundTrip(i: int, width: nat)
    ensures var w := if i < 0 && width > 0 then width - 1 else if i < 0 then 0 else width;
            var n: nat := if i < 0 then -i else i;
            IsInt64(i) ==> ParseInt(if i < 0 then "-" + ZeroPad(NatDigits(n), w) else ZeroPad(NatDigits(n), w)) == Some(i)
  {
    if IsInt64(i) {
      var w := if i < 0 && width > 0 then width - 1 else if i < 0 then 0 else width;
      var n: nat := if i < 0 then -i else i;
      var d := NatDigits(n);
      NatDigitsValue(n);
      if |d| < w {
        ZerosValue(w - |d|, d);
      }
      ParseSignedDigits(i, ZeroPad(d, w));
    }
  }
}
