/**
 * Decimal text: Swift's `String(_: Int)` and the failable `Int(_: String)`,
 * plus the subset of `Float(_: String)` made of plain decimal numerals.
 */
module Decimal {
  import opened Wrappers

  const Int64Min: int := -0x8000_0000_0000_0000
  const Int64Max: int := 0x7FFF_FFFF_FFFF_FFFF

  predicate IsDigit(c: char) {
    '0' <= c <= '9'
  }

  predicate AllDigits(s: string) {
    forall i :: 0 <= i < |s| ==> IsDigit(s[i])
  }

  function DigitChar(d: nat): (c: char)
    requires d < 10
    ensures IsDigit(c) && c as int - '0' as int == d
  {
    ('0' as int + d) as char
  }

  function DigitValue(c: char): (d: nat)
    requires IsDigit(c)
    ensures d < 10 && DigitChar(d) == c
  {
    c as int - '0' as int
  }

  /** The shortest decimal numeral of `n`, most significant digit first. */
  function NatToDigits(n: nat): (s: string)
    ensures |s| >= 1 && AllDigits(s)
    ensures s[0] == '0' ==> n == 0
    decreases n
  {
    if n < 10 then [DigitChar(n)] else NatToDigits(n / 10) + [DigitChar(n % 10)]
  }

  /** The value of a numeral read most significant digit first. */
  function DigitsValue(s: string): nat
    requires AllDigits(s)
    decreases |s|
  {
    if |s| == 0 then 0 else DigitsValue(s[..|s| - 1]) * 10 + DigitValue(s[|s| - 1])
  }

  lemma {:induction false} DigitsRoundTrip(n: nat)
    ensures DigitsValue(NatToDigits(n)) == n
    decreases n
  {
    if n >= 10 {
      var s := NatToDigits(n);
      var prefix := NatToDigits(n / 10);
      assert s == prefix + [DigitChar(n % 10)];
      assert s[..|s| - 1] == prefix;
      DigitsRoundTrip(n / 10);
    }
  }

  /** Swift's `String(n)` for an integer. */
  function IntToString(n: int): (s: string)
    ensures |s| >= 1
    ensures n >= 0 ==> AllDigits(s)
    ensures n < 0 ==> s[0] == '-' && AllDigits(s[1..])
  {
    if n < 0 then "-" + NatToDigits(-n) else NatToDigits(n)
  }

  /**
   * Swift's `Int(_: String)`: an optional `+` or `-` followed by one or more
   * ASCII digits and nothing else; a value outside the 64-bit range is nil.
   */
  function ParseInt(s: string): (r: Option<int>)
    ensures r.Some? ==> Int64Min <= r.value <= Int64Max
    ensures r.Some? ==> |s| >= 1
  {
    if |s| == 0 then None
    else
      var negative := s[0] == '-';
      var body := if s[0] == '-' || s[0] == '+' then s[1..] else s;
      if |body| == 0 || !AllDigits(body) then None
      else
        var v: int := if negative then 0 - DigitsValue(body) as int else DigitsValue(body) as int;
        if Int64Min <= v <= Int64Max then Some(v) else None
  }

  lemma ParseIntRoundTrip(n: int)
    requires Int64Min <= n <= Int64Max
    ensures ParseInt(IntToString(n)) == Some(n)
  {
    var s := IntToString(n);
    if n < 0 {
      var body := s[1..];
      assert body == NatToDigits(-n);
      DigitsRoundTrip(-n);
      assert DigitsValue(body) == -n;
    } else {
      assert IsDigit(s[0]);
      DigitsRoundTrip(n);
      assert DigitsValue(s) == n;
    }
  }

  /** Swift's description of an integral `Double` below 1e16, such as `3.0`. */
  function WholeNumberText(n: int): (s: string)
    ensures |s| >= 3 && s[|s| - 2..] == ".0"
  {
    IntToString(n) + ".0"
  }

  /** The value of `frac` read as the digits after a decimal point. */
  function FractionValue(frac: string): (r: real)
    requires AllDigits(frac)
    ensures 0.0 <= r < 1.0
    decreases |frac|
  {
    if |frac| == 0 then 0.0 else (DigitValue(frac[0]) as real + FractionValue(frac[1..])) / 10.0
  }

  function IndexOfChar(s: string, c: char): (r: Option<nat>)
    ensures r.Some? ==> r.value < |s| && s[r.value] == c && c !in s[..r.value]
    ensures r.None? ==> c !in s
    decreases |s|
  {
    if |s| == 0 then None
    else if s[0] == c then Some(0)
    else match IndexOfChar(s[1..], c)
      case None => None
      case Some(i) => Some(i + 1)
  }

  /**
   * The plain decimal numerals accepted by `Float(_: String)`: an optional
   * sign, digits, an optional point and fraction digits, with at least one
   * digit in all.
   */
  function ParseDecimal(s: string): (r: Option<real>)
    ensures r.Some? ==> |s| >= 1
  {
    if |s| == 0 then None
    else
      var negative := s[0] == '-';
      var body := if s[0] == '-' || s[0] == '+' then s[1..] else s;
      var (whole, frac) := match IndexOfChar(body, '.')
        case None => (body, "")
        case Some(i) => (body[..i], body[i + 1..]);
      if |whole| + |frac| == 0 || !AllDigits(whole) || !AllDigits(frac) then None
      else
        var v := DigitsValue(whole) as real + FractionValue(frac);
        Some(if negative then -v else v)
  }

  lemma ParseDecimalOfInteger(n: nat)
    ensures ParseDecimal(NatToDigits(n)) == Some(n as real)
  {
    var s := NatToDigits(n);
    assert '.' !in s;
    DigitsRoundTrip(n);
  }
}
