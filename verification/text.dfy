/**
 * The few string conversions the booking flow relies on: JavaScript's
 * rendering of an integer in a template literal, and ASCII upper-casing.
 */
module Text {

  predicate IsDigit(c: char) {
    '0' <= c <= '9'
  }

  predicate AllDigits(s: string) {
    forall i :: 0 <= i < |s| ==> IsDigit(s[i])
  }

  function DigitChar(d: nat): (c: char)
    requires d < 10
    ensures IsDigit(c)
  {
    ('0' as int + d) as char
  }

  function DigitValue(c: char): (d: nat)
    requires IsDigit(c)
    ensures d < 10
  {
    c as int - '0' as int
  }

  /** Decimal rendering of a natural number, without leading zeros. */
  function NatToString(n: nat): (s: string)
    ensures |s| >= 1 && AllDigits(s)
    decreases n
  {
    if n < 10 then [DigitChar(n)] else NatToString(n / 10) + [DigitChar(n % 10)]
  }

  /** The value of a string of decimal digits. */
  function ParseDigits(s: string): nat
    requires AllDigits(s)
  {
    if |s| == 0 then 0 else ParseDigits(s[..|s| - 1]) * 10 + DigitValue(s[|s| - 1])
  }

  lemma {:induction false} ParseNatToString(n: nat)
    ensures ParseDigits(NatToString(n)) == n
    decreases n
  {
    var s := NatToString(n);
    if n >= 10 {
      ParseNatToString(n / 10);
      assert s[..|s| - 1] == NatToString(n / 10);
    }
  }

  lemma NatToStringInjective(m: nat, n: nat)
    requires NatToString(m) == NatToString(n)
    ensures m == n
  {
    ParseNatToString(m);
    ParseNatToString(n);
  }

  /** How a JavaScript template literal renders an integer (`${n}`). */
  function IntToString(i: int): (s: string)
    ensures |s| >= 1
    ensures IsDigit(s[0]) <==> i >= 0
  {
    if i < 0 then "-" + NatToString(-i) else NatToString(i)
  }

  /**
   * If two strings of the shape digits + "-" + tail are equal, the digit
   * prefixes are equal and so are the tails: the first dash splits them.
   */
  lemma SplitAtFirstDash(a: string, x: string, b: string, y: string)
    requires AllDigits(a) && AllDigits(b)
    requires a + "-" + x == b + "-" + y
    ensures a == b && x == y
  {
    var s := a + "-" + x;
    if |a| < |b| {
      DashBeforeDigit(a, x, b, y);
      assert false;
    } else if |b| < |a| {
      DashBeforeDigit(b, y, a, x);
      assert false;
    }
    assert a == s[..|a|];
    assert b == (b + "-" + y)[..|b|];
    assert x == s[|a| + 1..];
    assert y == (b + "-" + y)[|b| + 1..];
  }

  lemma DashBeforeDigit(a: string, x: string, b: string, y: string)
    requires AllDigits(b) && |a| < |b|
    ensures a + "-" + x != b + "-" + y
  {
    assert (a + "-" + x)[|a|] == '-';
    assert (b + "-" + y)[|a|] == b[|a|];
  }

  function UpperChar(c: char): (u: char)
    ensures !('a' <= u <= 'z')
    ensures !('a' <= c <= 'z') ==> u == c
  {
    if 'a' <= c <= 'z' then (c as int - 32) as char else c
  }

  /** Maps an ASCII capital to its small letter; every other character is kept. */
  function LowerChar(c: char): (l: char)
    ensures !('A' <= l <= 'Z')
    ensures !('A' <= c <= 'Z') ==> l == c
  {
    if 'A' <= c <= 'Z' then (c as int + 32) as char else c
  }

  /** JavaScript's `toUpperCase`, restricted to the ASCII letters a PNR is made of. */
  function ToUpper(s: string): (u: string)
    ensures |u| == |s|
    ensures forall i :: 0 <= i < |s| ==> u[i] == UpperChar(s[i])
  {
    if |s| == 0 then "" else [UpperChar(s[0])] + ToUpper(s[1..])
  }
}
