/** Base-10 rendering of integers, as strconv.Itoa(x) and
    strconv.FormatInt(x, 10) produce it, with a parser as its inverse. */
module Strconv {
  import opened Wrappers

  /** Go's int64; Go's int has the same width on 64-bit targets. */
  type Int64 = x: int | -0x8000_0000_0000_0000 <= x < 0x8000_0000_0000_0000

  predicate IsDigit(c: char) {
    '0' <= c <= '9'
  }

  predicate AllDigits(s: string) {
    forall i :: 0 <= i < |s| ==> IsDigit(s[i])
  }

  function DigitValue(c: char): (d: nat)
    requires IsDigit(c)
    ensures d < 10
  {
    c as int - '0' as int
  }

  function DigitChar(d: nat): (c: char)
    requires d < 10
    ensures IsDigit(c) && DigitValue(c) == d
  {
    ('0' as int + d) as char
  }

  /** The decimal digits of n, most significant first, with no leading zero. */
  function NatDigits(n: nat): (s: string)
    ensures |s| > 0 && AllDigits(s)
    ensures s[0] == '0' <==> n == 0
    ensures n == 0 ==> s == "0"
  {
    if n < 10 then [DigitChar(n)] else NatDigits(n / 10) + [DigitChar(n % 10)]
  }

  /** strconv.Itoa(x) and strconv.FormatInt(x, 10): a minus sign for
      negative values, then the digits of the magnitude. */
  function FormatInt(x: int): (s: string)
    ensures |s| > 0
    ensures s[0] == '-' <==> x < 0
    ensures x < 0 ==> |s| > 1 && AllDigits(s[1..])
    ensures x >= 0 ==> AllDigits(s)
    ensures x > 0 ==> s[0] != '0'
    ensures x < 0 ==> s[1] != '0'
  {
    if x < 0 then "-" + NatDigits(-x) else NatDigits(x)
  }

  /** The value of a string of decimal digits (0 for the empty string). */
  function ParseNat(s: string): nat
    requires AllDigits(s)
  {
    if s == [] then 0 else ParseNat(s[..|s| - 1]) * 10 + DigitValue(s[|s| - 1])
  }

  /** Reads an optional minus sign followed by one or more decimal digits. */
  function ParseDecimal(s: string): Option<int> {
    if |s| > 1 && s[0] == '-' && AllDigits(s[1..]) then Some(0 - ParseNat(s[1..]) as int)
    else if |s| > 0 && AllDigits(s) then Some(ParseNat(s))
    else None
  }

  lemma {:induction false} ParseNatDigits(n: nat)
    ensures ParseNat(NatDigits(n)) == n
  {
    if n >= 10 {
      var s := NatDigits(n / 10);
      ParseNatDigits(n / 10);
      assert (s + [DigitChar(n % 10)])[..|s|] == s;
    }
  }

  /** The rendering loses nothing: parsing it gives back the integer. */
  lemma ParseFormatInt(x: int)
    ensures ParseDecimal(FormatInt(x)) == Some(x)
  {
    if x < 0 {
      ParseNatDigits(-x);
      assert FormatInt(x)[1..] == NatDigits(-x);
    } else {
      ParseNatDigits(x);
    }
  }

  /** Distinct integers are rendered as distinct strings. */
  lemma FormatIntInjective(x: int, y: int)
    ensures FormatInt(x) == FormatInt(y) <==> x == y
  {
    ParseFormatInt(x);
    ParseFormatInt(y);
  }
}
