/**
 * Numeric helpers shared by the quiz and the rain: the integer draws the
 * source derives from `Math.random()`, `Math.round`, and the decimal text
 * a template literal `${n}` produces for a natural number.
 */
module Numbers {

  /** A value `Math.random()` can return. */
  predicate Unit(r: real)
  {
    0.0 <= r < 1.0
  }

  /** `Math.floor(r * n) + 1`: a uniform integer in 1..n. */
  function RandInt(r: real, n: nat): (k: nat)
    requires Unit(r) && n >= 1
    ensures 1 <= k <= n
  {
    ScaleBelow(r, n as real);
    (r * n as real).Floor + 1
  }

  /** `Math.floor(r * n)`: a uniform index into a list of length n. */
  function RandIndex(r: real, n: nat): (k: nat)
    requires Unit(r) && n >= 1
    ensures k < n
  {
    ScaleBelow(r, n as real);
    (r * n as real).Floor
  }

  lemma ScaleBelow(r: real, n: real)
    requires Unit(r) && n > 0.0
    ensures 0.0 <= r * n < n
  {
  }

  /** `Math.round(x)`: the nearest integer, halves rounded up. */
  function Round(x: real): (k: int)
    ensures x - 0.5 < k as real <= x + 0.5
  {
    (x + 0.5).Floor
  }

  lemma RoundIntegral(n: int)
    ensures Round(n as real) == n
  {
  }

  predicate IsDigit(c: char)
  {
    '0' <= c <= '9'
  }

  function DigitChar(d: nat): (c: char)
    requires d < 10
    ensures IsDigit(c) && (c as int) - ('0' as int) == d
  {
    ('0' as int + d) as char
  }

  function DigitValue(c: char): (d: nat)
    requires IsDigit(c)
    ensures d < 10
  {
    (c as int) - ('0' as int)
  }

  /** The decimal numeral of `n`, without leading zeros. */
  function NatToString(n: nat): (s: string)
    ensures |s| >= 1
    ensures forall i :: 0 <= i < |s| ==> IsDigit(s[i])
    ensures s[0] == '0' ==> n == 0
    decreases n
  {
    if n < 10 then [DigitChar(n)] else NatToString(n / 10) + [DigitChar(n % 10)]
  }

  /** The value of a string of decimal digits, read most significant first. */
  function DecimalValue(s: string): (n: nat)
    requires forall i :: 0 <= i < |s| ==> IsDigit(s[i])
    decreases |s|
  {
    if s == [] then 0
    else DecimalValue(s[..|s| - 1]) * 10 + DigitValue(s[|s| - 1])
  }

  /** Reading back the numeral of `n` gives `n`: the rendering loses nothing. */
  lemma {:induction false} DecimalRoundTrip(n: nat)
    ensures DecimalValue(NatToString(n)) == n
    decreases n
  {
    var s := NatToString(n);
    if n >= 10 {
      var front := NatToString(n / 10);
      assert s == front + [DigitChar(n % 10)];
      assert s[..|s| - 1] == front;
      DecimalRoundTrip(n / 10);
    }
  }

  /** Different numbers render as different numerals. */
  lemma NatToStringInjective(m: nat, n: nat)
    requires NatToString(m) == NatToString(n)
    ensures m == n
  {
    DecimalRoundTrip(m);
    DecimalRoundTrip(n);
  }

  /**
   * A numeral followed by text that starts with a non-digit can be split
   * off only one way: the digits end where the numeral ends.
   */
  lemma NumeralPrefixUnique(m: nat, s: string, n: nat, t: string)
    requires s != [] && t != [] && !IsDigit(s[0]) && !IsDigit(t[0])
    requires NatToString(m) + s == NatToString(n) + t
    ensures m == n && s == t
  {
    var x, y := NatToString(m), NatToString(n);
    assert x == (x + s)[..|x|];
    assert y == (y + t)[..|y|];
    NatToStringInjective(m, n);
    assert s == (x + s)[|x|..];
    assert t == (y + t)[|y|..];
  }
}
