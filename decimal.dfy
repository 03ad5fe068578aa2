/**
 * Decimal rendering of amounts: JavaScript's `toString` for a non-negative
 * integer and `toFixed(2)` for an amount held as a whole number of cents,
 * each within the range where the double-precision number behind it is
 * still rendered digit for digit.
 */
module Decimal {

  /**
   * Every integer below 2^53 is a double that `toString` writes digit for
   * digit; from there on it writes the shortest digits that round-trip to
   * the double, which need not be the integer's own.
   */
  const ExactIntegersBelow: nat := 0x20_0000_0000_0000

  /**
   * Below 2^52 cents the double nearest to `c / 100` lies within half a cent
   * of it, so `toFixed(2)` rounds back to the exact amount.
   */
  const ExactCentsBelow: nat := 0x10_0000_0000_0000

  predicate IsDigit(c: char) {
    '0' <= c <= '9'
  }

  predicate AllDigits(s: string) {
    forall i :: 0 <= i < |s| ==> IsDigit(s[i])
  }

  function DigitChar(d: nat): (c: char)
    requires d < 10
    ensures IsDigit(c)
  {
    ('0' as int + d) as char
  }

  function DigitValue(c: char): (d: nat)
    requires IsDigit(c)
    ensures d < 10
  {
    c as int - '0' as int
  }

  /** The number a string of decimal digits denotes (most significant digit first). */
  function DigitsValue(s: string): nat
    requires AllDigits(s)
  {
    if s == [] then 0 else DigitsValue(s[..|s| - 1]) * 10 + DigitValue(s[|s| - 1])
  }

  /** `n.toString()` for an integer below 2^53: the shortest decimal numeral of `n`, without leading zeros. */
  function NatToDecimal(n: nat): (r: string)
    requires n < ExactIntegersBelow
    ensures |r| >= 1 && AllDigits(r)
    ensures r[0] == '0' ==> n == 0 && r == "0"
  {
    if n < 10 then [DigitChar(n)] else NatToDecimal(n / 10) + [DigitChar(n % 10)]
  }

  /** Reading the numeral back gives the number. */
  lemma {:induction false} NatToDecimalValue(n: nat)
    requires n < ExactIntegersBelow
    ensures DigitsValue(NatToDecimal(n)) == n
  {
    var r := NatToDecimal(n);
    if n < 10 {
      assert r[..|r| - 1] == [];
    } else {
      NatToDecimalValue(n / 10);
      assert r[..|r| - 1] == NatToDecimal(n / 10);
    }
  }

  /** The two digits of the cents part of `c` denote `c % 100`. */
  lemma CentsDigitsValue(c: nat)
    ensures AllDigits([DigitChar(c % 100 / 10), DigitChar(c % 10)])
    ensures DigitsValue([DigitChar(c % 100 / 10), DigitChar(c % 10)]) == c % 100
  {
    var fraction := [DigitChar(c % 100 / 10), DigitChar(c % 10)];
    assert fraction[..1] == [fraction[0]] && [fraction[0]][..0] == [];
    assert DigitValue(fraction[0]) == c % 100 / 10 && DigitValue(fraction[1]) == c % 10;
    assert DigitsValue([fraction[0]]) == DigitValue(fraction[0]);
  }

  /**
   * `(c / 100).toFixed(2)` for an amount of `c` cents below 2^52: the whole
   * units, a point, and exactly two digits, which together denote `c` again.
   */
  function FormatCents(c: nat): (r: string)
    requires c < ExactCentsBelow
    ensures |r| >= 4 && r[|r| - 3] == '.'
    ensures AllDigits(r[..|r| - 3]) && AllDigits(r[|r| - 2..])
    ensures r[..|r| - 3] == NatToDecimal(c / 100)
    ensures DigitsValue(r[..|r| - 3]) * 100 + DigitsValue(r[|r| - 2..]) == c
  {
    var whole := NatToDecimal(c / 100);
    var fraction := [DigitChar(c % 100 / 10), DigitChar(c % 10)];
    var r := whole + "." + fraction;
    assert r[..|r| - 3] == whole;
    assert r[|r| - 2..] == fraction;
    CentsDigitsValue(c);
    NatToDecimalValue(c / 100);
    r
  }
}
