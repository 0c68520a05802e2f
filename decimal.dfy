/** Base-10 rendering of integers, as `strconv.FormatInt(n, 10)` produces it, with a
    parser that inverts it. The round trip gives injectivity: distinct numbers have
    distinct renderings. */
module Decimal {

  predicate IsDigit(c: char) {
    '0' <= c <= '9'
  }

  predicate AllDigits(s: string) {
    forall k :: 0 <= k < |s| ==> IsDigit(s[k])
  }

  function DigitChar(d: nat): (c: char)
    requires d < 10
    ensures IsDigit(c) && c as int - '0' as int == d
  {
    ('0' as int + d) as char
  }

  function DigitValue(c: char): (d: nat)
    requires IsDigit(c)
  {
    c as int - '0' as int
  }

  /** The digits of a natural number, most significant first, without leading zeros. */
  function FormatNat(n: nat): (s: string)
    decreases n
  {
    if n < 10 then [DigitChar(n)] else FormatNat(n / 10) + [DigitChar(n % 10)]
  }

  /** `strconv.FormatInt(i, 10)`: a minus sign before the digits of a negative number. */
  function FormatInt(i: int): (s: string) {
    if i < 0 then "-" + FormatNat(-i) else FormatNat(i)
  }

  function ParseNat(s: string): (n: nat)
    requires AllDigits(s)
  {
    if s == [] then 0 else ParseNat(s[..|s| - 1]) * 10 + DigitValue(s[|s| - 1])
  }

  function ParseInt(s: string): (i: int)
    requires s != []
    requires s[0] == '-' ==> AllDigits(s[1..])
    requires s[0] != '-' ==> AllDigits(s)
  {
    if s[0] == '-' then 0 - ParseNat(s[1..]) as int else ParseNat(s) as int
  }

  lemma {:induction false} FormatNatDigits(n: nat)
    ensures |FormatNat(n)| > 0 && AllDigits(FormatNat(n))
    decreases n
  {
    if n >= 10 {
      FormatNatDigits(n / 10);
    }
  }

  lemma {:induction false} ParseFormatNat(n: nat)
    ensures AllDigits(FormatNat(n))
    ensures ParseNat(FormatNat(n)) == n
    decreases n
  {
    FormatNatDigits(n);
    if n >= 10 {
      var s := FormatNat(n);
      ParseFormatNat(n / 10);
      assert s[..|s| - 1] == FormatNat(n / 10);
    }
  }

  /** Parsing the rendering of any integer gives the integer back. */
  lemma ParseFormatInt(i: int)
    ensures var s := FormatInt(i);
      s != [] && (s[0] == '-' ==> AllDigits(s[1..])) && (s[0] != '-' ==> AllDigits(s)) &&
      ParseInt(s) == i
  {
    if i < 0 {
      ParseFormatNat(-i);
      assert FormatInt(i)[1..] == FormatNat(-i);
    } else {
      ParseFormatNat(i);
      assert IsDigit(FormatNat(i)[0]);
    }
  }

  /** Distinct integers are rendered as distinct strings. */
  lemma FormatIntInjective(i: int, j: int)
    ensures FormatInt(i) == FormatInt(j) ==> i == j
  {
    ParseFormatInt(i);
    ParseFormatInt(j);
  }
}
