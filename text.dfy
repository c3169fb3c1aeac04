/**
 * The pieces of Go's fmt package that the monitor's output depends on:
 * the `%d` verb (decimal integers), the `%d/%d` fraction, and the `%-Ns`
 * verb (left-justify in a field of at least N characters, never truncate).
 * A decimal parser is the partner of `%d`: every printed number reads back
 * as the number printed.
 */
module Text {
  import opened Wrappers

  predicate IsDigit(c: char) {
    '0' <= c <= '9'
  }

  function DigitValue(c: char): (d: nat)
    requires IsDigit(c)
    ensures d < 10
  {
    c as int - '0' as int
  }

  function DigitChar(d: nat): (c: char)
    requires d < 10
    ensures IsDigit(c) && DigitValue(c) == d
  {
    ('0' as int + d) as char
  }

  /** A string of n blanks. */
  function Spaces(n: nat): (r: string)
    ensures |r| == n
    ensures forall k :: 0 <= k < n ==> r[k] == ' '
  {
    seq(n, _ => ' ')
  }

  /**
   * `%-Ns`: the value, padded on the right with blanks to at least `width`
   * characters. A longer value is kept whole.
   */
  function PadRight(s: string, width: nat): (r: string)
    ensures |r| == if |s| < width then width else |s|
    ensures r[..|s|] == s
    ensures forall k :: |s| <= k < |r| ==> r[k] == ' '
  {
    if |s| < width then s + Spaces(width - |s|) else s
  }

  predicate AllDigits(s: string) {
    forall k :: 0 <= k < |s| ==> IsDigit(s[k])
  }

  /** Decimal digits as `%d` writes a natural number: at least one, and no leading zero unless it is "0". */
  predicate IsNumeral(s: string) {
    && |s| > 0
    && AllDigits(s)
    && (s[0] == '0' ==> |s| == 1)
  }

  /** The shape of `%d` output: a numeral, or a minus sign before a numeral other than "0". */
  predicate IsDecimal(s: string) {
    if |s| > 0 && s[0] == '-' then IsNumeral(s[1..]) && s[1] != '0'
    else IsNumeral(s)
  }

  /** Decimal digits of a natural number, most significant first, no leading zeros. */
  function NatToString(n: nat): (r: string)
    ensures IsNumeral(r)
    ensures r[0] == '0' <==> n == 0
    decreases n
  {
    if n < 10 then [DigitChar(n)] else NatToString(n / 10) + [DigitChar(n % 10)]
  }

  /** Reads a non-empty string of decimal digits; anything else is None. */
  function ParseNat(s: string): (r: Option<nat>)
    ensures r.Some? <==> |s| > 0 && AllDigits(s)
  {
    if |s| == 0 || !IsDigit(s[|s| - 1]) then None
    else if |s| == 1 then Some(DigitValue(s[0]))
    else
      match ParseNat(s[..|s| - 1])
      case None => None
      case Some(v) => Some(10 * v + DigitValue(s[|s| - 1]))
  }

  lemma {:induction false} ParseNatOfNatToString(n: nat)
    ensures ParseNat(NatToString(n)) == Some(n)
    decreases n
  {
    if n >= 10 {
      var s := NatToString(n);
      ParseNatOfNatToString(n / 10);
      assert s[..|s| - 1] == NatToString(n / 10);
    }
  }

  /** A numeral is exactly what NatToString prints for the value it reads as. */
  lemma {:induction false} NatToStringOfParseNat(s: string)
    requires IsNumeral(s)
    ensures ParseNat(s).Some? && NatToString(ParseNat(s).value) == s
    decreases |s|
  {
    if |s| == 1 {
      assert DigitChar(DigitValue(s[0])) == s[0];
    } else {
      var init := s[..|s| - 1];
      assert init[0] == s[0] && forall k :: 0 <= k < |init| ==> init[k] == s[k];
      NatToStringOfParseNat(init);
      var p := ParseNat(init).value;
      var d := DigitValue(s[|s| - 1]);
      var v := 10 * p + d;
      assert ParseNat(s) == Some(v);
      assert p != 0;
      assert v / 10 == p && v % 10 == d;
      assert DigitChar(d) == s[|s| - 1];
      assert NatToString(v) == NatToString(p) + [DigitChar(d)];
      assert s == init + [s[|s| - 1]];
    }
  }

  /** Reads an optional leading '-' followed by decimal digits. */
  function ParseInt(s: string): (r: Option<int>)
  {
    if |s| > 0 && s[0] == '-' then
      match ParseNat(s[1..])
      case None => None
      case Some(v) => Some(-(v as int))
    else
      match ParseNat(s)
      case None => None
      case Some(v) => Some(v as int)
  }

  /**
   * `%d` of a Go integer: a minus sign exactly for negative values, then the
   * digits in their shortest form. It reads back as the number printed.
   */
  function IntToString(n: int): (r: string)
    ensures IsDecimal(r)
    ensures r[0] == '-' <==> n < 0
    ensures ParseInt(r) == Some(n)
  {
    if n < 0 then
      var digits := NatToString(-n);
      ParseNatOfNatToString(-n);
      assert ("-" + digits)[0] == '-' && ("-" + digits)[1..] == digits;
      "-" + digits
    else
      var digits := NatToString(n);
      ParseNatOfNatToString(n);
      assert IsDigit(digits[0]);
      digits
  }

  /**
   * The partner of IntToString in the other direction: every string of the
   * `%d` shape is what IntToString prints for the value it reads as, so
   * `%d` has one form per number.
   */
  lemma DecimalIsPrinted(s: string)
    requires IsDecimal(s)
    ensures ParseInt(s).Some? && IntToString(ParseInt(s).value) == s
  {
    if s[0] == '-' {
      var digits := s[1..];
      NatToStringOfParseNat(digits);
      assert s == "-" + digits;
    } else {
      NatToStringOfParseNat(s);
    }
  }

  /** Position of the first occurrence of c in s, if any. */
  function IndexOf(s: string, c: char): (r: Option<nat>)
    ensures r.Some? ==> r.value < |s| && s[r.value] == c
    ensures r.Some? ==> forall k :: 0 <= k < r.value ==> s[k] != c
    ensures r.None? ==> forall k :: 0 <= k < |s| ==> s[k] != c
  {
    if |s| == 0 then None
    else if s[0] == c then Some(0)
    else
      match IndexOf(s[1..], c)
      case None => None
      case Some(i) => Some(i + 1)
  }

  /** Two `%d` numbers on either side of the first '/'. */
  predicate IsFraction(s: string) {
    match IndexOf(s, '/')
    case None => false
    case Some(i) => IsDecimal(s[..i]) && IsDecimal(s[i + 1..])
  }

  /** `%d/%d`, as in a READY column: both numbers in their `%d` form, reading back as the pair. */
  function Fraction(a: int, b: int): (r: string)
    ensures IsFraction(r)
    ensures ParseFraction(r) == Some((a, b))
  {
    var x, y := IntToString(a), IntToString(b);
    SplitAtSlash(x, y);
    x + "/" + y
  }

  /** With no '/' in x, the first '/' of x + "/" + y is the one between them. */
  lemma SplitAtSlash(x: string, y: string)
    requires forall k :: 0 <= k < |x| ==> x[k] != '/'
    ensures var r := x + "/" + y;
      IndexOf(r, '/') == Some(|x|) && r[..|x|] == x && r[|x| + 1..] == y
  {
    var r := x + "/" + y;
    assert forall k :: 0 <= k < |x| ==> r[k] == x[k];
    assert r[|x|] == '/';
    assert r[..|x|] == x && r[|x| + 1..] == y;
  }

  /** Splits at the first '/' and reads both sides as integers. */
  function ParseFraction(s: string): (r: Option<(int, int)>)
  {
    match IndexOf(s, '/')
    case None => None
    case Some(i) =>
      match (ParseInt(s[..i]), ParseInt(s[i + 1..]))
      case (Some(a), Some(b)) => Some((a, b))
      case _ => None
  }
}
