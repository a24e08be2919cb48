/** The few string operations the room performs on nicknames and labels. */
module Text {

  /** `s.slice(0, n)`: the first n characters of s, or all of s when it is shorter. */
  function Slice(s: string, n: nat): (r: string)
    ensures |r| <= n && |r| <= |s|
    ensures r == s[..|r|]
    ensures |s| <= n ==> r == s
    ensures |s| > n ==> |r| == n
  {
    if |s| <= n then s else s[..n]
  }

  /** The character of a decimal digit. */
  function DigitChar(d: nat): (c: char)
    requires d < 10
  {
    ('0' as int + d) as char
  }

  /** The value of a string of decimal digits, most significant digit first. */
  function NatValue(s: string): int
    decreases |s|
  {
    if s == [] then 0 else NatValue(s[..|s| - 1]) * 10 + (s[|s| - 1] as int - '0' as int)
  }

  /** The value of a decimal numeral with an optional leading minus sign. */
  function IntValue(s: string): int
  {
    if s != [] && s[0] == '-' then -NatValue(s[1..]) else NatValue(s)
  }

  /** Decimal text of a natural number: digits only, without leading zeros. */
  function NatText(n: nat): (r: string)
    ensures |r| >= 1
    ensures forall i :: 0 <= i < |r| ==> '0' <= r[i] <= '9'
    ensures n >= 1 ==> r[0] != '0'
    decreases n
  {
    if n < 10 then [DigitChar(n)] else NatText(n / 10) + [DigitChar(n % 10)]
  }

  /** `${n}` for an integer n. */
  function IntText(n: int): (r: string)
  {
    if n >= 0 then NatText(n) else "-" + NatText(-n)
  }

  /** Reading the decimal text of a natural number back gives the number. */
  lemma {:induction false} NatTextRoundTrip(n: nat)
    ensures NatValue(NatText(n)) == n
    decreases n
  {
    if n >= 10 {
      NatTextRoundTrip(n / 10);
      var r := NatText(n);
      assert r[..|r| - 1] == NatText(n / 10);
    }
  }

  /** `${n}` is a decimal numeral that reads back as n, and it has a minus sign exactly when
      n is negative. */
  lemma IntTextRoundTrip(n: int)
    ensures IntValue(IntText(n)) == n
    ensures IntText(n)[0] == '-' <==> n < 0
  {
    if n >= 0 {
      NatTextRoundTrip(n);
    } else {
      NatTextRoundTrip(-n);
      assert IntText(n)[1..] == NatText(-n);
    }
  }
}
