/**
 * Decimal rendering of record ids, as Ruby's string interpolation writes an Integer
 * (`"comment_#{id}"`), together with its inverse, so that ids can be shown to be
 * recoverable from the headers they are written into.
 */
module Decimal {

  predicate IsDigit(c: char) {
    '0' <= c <= '9'
  }

  predicate AllDigits(s: string) {
    forall i :: 0 <= i < |s| ==> IsDigit(s[i])
  }

  function DigitChar(d: nat): (c: char)
    requires d < 10
    ensures IsDigit(c)
  {
    ['0', '1', '2', '3', '4', '5', '6', '7', '8', '9'][d]
  }

  function DigitValue(c: char): (d: nat)
    requires IsDigit(c)
    ensures d < 10
  {
    (c as int - '0' as int) as nat
  }

  /** The decimal text of `n`, most significant digit first, without leading zeros. */
  function NatToString(n: nat): (s: string)
    ensures |s| >= 1 && AllDigits(s)
    ensures n >= 10 ==> |s| >= 2
  {
    if n < 10 then [DigitChar(n)] else NatToString(n / 10) + [DigitChar(n % 10)]
  }

  /** The number a string of decimal digits denotes. */
  function ParseNat(s: string): nat
    requires AllDigits(s)
  {
    if s == [] then 0 else 10 * ParseNat(s[..|s| - 1]) + DigitValue(s[|s| - 1])
  }

  lemma DigitRoundTrip(d: nat)
    requires d < 10
    ensures DigitValue(DigitChar(d)) == d
  {
  }

  /** Reading back the decimal text of a number gives the number. */
  lemma {:induction false} ParseNatToString(n: nat)
    ensures ParseNat(NatToString(n)) == n
  {
    var s := NatToString(n);
    if n < 10 {
      DigitRoundTrip(n);
      assert s[..|s| - 1] == [];
    } else {
      ParseNatToString(n / 10);
      DigitRoundTrip(n % 10);
      assert s[..|s| - 1] == NatToString(n / 10);
    }
  }

  /** Distinct numbers have distinct decimal texts. */
  lemma NatToStringInjective(m: nat, n: nat)
    requires NatToString(m) == NatToString(n)
    ensures m == n
  {
    ParseNatToString(m);
    ParseNatToString(n);
  }

  /** The number of digits at the start of `s`. */
  function LeadingDigits(s: string): (n: nat)
    ensures n <= |s|
  {
    if s != [] && IsDigit(s[0]) then 1 + LeadingDigits(s[1..]) else 0
  }

  /** A run of digits ended by a non-digit is exactly as long as its leading digits. */
  lemma {:induction false} LeadingDigitsOfRun(x: string, r: string)
    requires AllDigits(x)
    requires |r| > 0 && !IsDigit(r[0])
    ensures LeadingDigits(x + r) == |x|
  {
    if x == [] {
      assert x + r == r;
    } else {
      assert (x + r)[1..] == x[1..] + r;
      LeadingDigitsOfRun(x[1..], r);
    }
  }

  /**
   * A run of digits followed by a non-digit can be split in only one way: if
   * `x + r1 == y + r2` with `x`, `y` digits only and `r1`, `r2` both starting with a
   * non-digit, then `x == y` and `r1 == r2`.
   */
  lemma {:induction false} DigitRunUnique(x: string, r1: string, y: string, r2: string)
    requires AllDigits(x) && AllDigits(y)
    requires |r1| > 0 && !IsDigit(r1[0])
    requires |r2| > 0 && !IsDigit(r2[0])
    requires x + r1 == y + r2
    ensures x == y && r1 == r2
  {
    LeadingDigitsOfRun(x, r1);
    LeadingDigitsOfRun(y, r2);
    assert x == (x + r1)[..|x|];
    assert y == (y + r2)[..|y|];
    assert r1 == (x + r1)[|x|..];
    assert r2 == (y + r2)[|y|..];
  }

  /** A number followed by a non-digit suffix is recovered, with the suffix, from the text. */
  lemma NumberThenSuffix(m: nat, r1: string, n: nat, r2: string)
    requires |r1| > 0 && !IsDigit(r1[0])
    requires |r2| > 0 && !IsDigit(r2[0])
    requires NatToString(m) + r1 == NatToString(n) + r2
    ensures m == n && r1 == r2
  {
    DigitRunUnique(NatToString(m), r1, NatToString(n), r2);
    NatToStringInjective(m, n);
  }

  /** A common prefix can be cancelled. */
  lemma CancelPrefix(a: string, r1: string, r2: string)
    requires a + r1 == a + r2
    ensures r1 == r2
  {
    assert r1 == (a + r1)[|a|..];
    assert r2 == (a + r2)[|a|..];
  }
}
