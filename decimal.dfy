/**
 * Decimal rendering of a non-negative integer, as a JavaScript template
 * literal renders a number, and the parse that undoes it.
 */
module Decimal {

  predicate IsDigit(c: char) {
    '0' <= c <= '9'
  }

  predicate AllDigits(s: string) {
    forall i :: 0 <= i < |s| ==> IsDigit(s[i])
  }

  function DigitChar(d: nat): (c: char)
    requires d < 10
    ensures IsDigit(c)
  {
    ('0' as int + d) as char
  }

  function DigitValue(c: char): (d: nat)
    requires IsDigit(c)
    ensures d < 10
  {
    c as int - '0' as int
  }

  /** A numeral without leading zeros: one digit, or several that do not start with `0`. */
  predicate Canonical(s: string) {
    |s| > 0 && AllDigits(s) && (|s| > 1 ==> s[0] != '0')
  }

  /** The shortest decimal numeral of `n` (no leading zeros). */
  function DecimalString(n: nat): (s: string)
    ensures |s| > 0 && AllDigits(s)
    ensures |s| == 1 <==> n < 10
    ensures n >= 10 ==> s[0] != '0'
    decreases n
  {
    if n < 10 then [DigitChar(n)] else DecimalString(n / 10) + [DigitChar(n % 10)]
  }

  /** The value of a numeral, most significant digit first. */
  function ParseDecimal(s: string): nat
    requires AllDigits(s)
    decreases |s|
  {
    if s == [] then 0 else 10 * ParseDecimal(s[..|s| - 1]) + DigitValue(s[|s| - 1])
  }

  lemma {:induction false} ParseDecimalString(n: nat)
    ensures ParseDecimal(DecimalString(n)) == n
    decreases n
  {
    var s := DecimalString(n);
    if n < 10 {
      assert s[..|s| - 1] == [];
    } else {
      assert s[..|s| - 1] == DecimalString(n / 10);
      ParseDecimalString(n / 10);
    }
  }

  /** Conversely, every canonical numeral is the rendering of its value. */
  lemma {:induction false} DecimalStringOfParse(d: string)
    requires Canonical(d)
    ensures DecimalString(ParseDecimal(d)) == d
    decreases |d|
  {
    var n := |d|;
    if n == 1 {
      assert d[..0] == [];
      assert DigitChar(DigitValue(d[0])) == d[0];
    } else {
      var p := d[..n - 1];
      assert p[0] == d[0];
      ParseAtLeastOne(p);
      DecimalStringOfParse(p);
      var v := DigitValue(d[n - 1]);
      assert ParseDecimal(d) / 10 == ParseDecimal(p) && ParseDecimal(d) % 10 == v;
      assert DigitChar(v) == d[n - 1];
      assert d == p + [d[n - 1]];
    }
  }

  /** A numeral that does not start with `0` has a positive value. */
  lemma {:induction false} ParseAtLeastOne(d: string)
    requires |d| > 0 && AllDigits(d) && d[0] != '0'
    ensures ParseDecimal(d) >= 1
    decreases |d|
  {
    if |d| == 1 {
      assert d[..0] == [];
    } else {
      var p := d[..|d| - 1];
      assert p[0] == d[0];
      ParseAtLeastOne(p);
    }
  }

  /** The length of the longest prefix of `s` made of digits. */
  function DigitPrefix(s: string): (k: nat)
    ensures k <= |s| && AllDigits(s[..k])
    ensures k < |s| ==> !IsDigit(s[k])
    decreases |s|
  {
    if s == [] || !IsDigit(s[0]) then 0 else 1 + DigitPrefix(s[1..])
  }
}
