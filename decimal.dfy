/**
 * Decimal rendering of unsigned integers, as Rust's `to_string` produces it
 * for a `u16` (src/main.rs:95), together with the parser that reads such a
 * rendering back.
 */
module Decimal {

  /** Rust's `u16`: the type of a status code in the source's map. */
  type U16 = x: int | 0 <= x < 0x1_0000

  predicate IsDigit(c: char) {
    '0' <= c <= '9'
  }

  predicate AllDigits(s: string) {
    forall i :: 0 <= i < |s| ==> IsDigit(s[i])
  }

  function DigitChar(d: nat): (c: char)
    requires d < 10
    ensures IsDigit(c)
  {
    ('0' as int + d) as char
  }

  function DigitValue(c: char): (d: nat)
    requires IsDigit(c)
    ensures d < 10
  {
    c as int - '0' as int
  }

  /**
   * The decimal digits of `n`, most significant first, without leading
   * zeros (zero itself is "0").
   */
  function ToDecimal(n: nat): (s: string)
    ensures |s| >= 1 && AllDigits(s)
    ensures s[0] == '0' <==> n == 0
    decreases n
  {
    if n < 10 then [DigitChar(n)] else ToDecimal(n / 10) + [DigitChar(n % 10)]
  }

  /** The value of a string of decimal digits, most significant first. */
  function ParseDecimal(s: string): nat
    requires AllDigits(s)
  {
    if s == [] then 0 else ParseDecimal(s[..|s| - 1]) * 10 + DigitValue(s[|s| - 1])
  }

  /** Reading a rendering back gives the number rendered. */
  lemma {:induction false} ParseToDecimal(n: nat)
    ensures ParseDecimal(ToDecimal(n)) == n
    decreases n
  {
    if n >= 10 {
      var s := ToDecimal(n / 10);
      ParseToDecimal(n / 10);
      assert (s + [DigitChar(n % 10)])[..|s|] == s;
    }
  }

  lemma {:induction false} ParsePositive(s: string)
    requires |s| >= 1 && AllDigits(s) && s[0] != '0'
    ensures ParseDecimal(s) >= 1
    decreases |s|
  {
    if |s| > 1 {
      ParsePositive(s[..|s| - 1]);
    }
  }

  /**
   * Conversely, every non-empty digit string without a leading zero is the
   * rendering of the number it denotes.
   */
  lemma {:induction false} ToDecimalParse(s: string)
    requires |s| >= 1 && AllDigits(s)
    requires s[0] == '0' ==> |s| == 1
    ensures ToDecimal(ParseDecimal(s)) == s
    decreases |s|
  {
    if |s| > 1 {
      var t := s[..|s| - 1];
      ParsePositive(t);
      ToDecimalParse(t);
      assert s == t + [s[|s| - 1]];
    }
  }

  /** Distinct numbers have distinct renderings. */
  lemma ToDecimalInjective(a: nat, b: nat)
    ensures ToDecimal(a) == ToDecimal(b) <==> a == b
  {
    ParseToDecimal(a);
    ParseToDecimal(b);
  }

  /**
   * A number in [100, 999] renders as exactly three digits; the first is its
   * hundreds digit, which for an HTTP status code is its class.
   */
  lemma ThreeDigits(n: nat)
    requires 100 <= n < 1000
    ensures ToDecimal(n) == [DigitChar(n / 100), DigitChar(n / 10 % 10), DigitChar(n % 10)]
    ensures |ToDecimal(n)| == 3 && DigitValue(ToDecimal(n)[0]) == n / 100
  {
    assert ToDecimal(n / 10) == ToDecimal(n / 10 / 10) + [DigitChar(n / 10 % 10)];
    assert n / 10 / 10 == n / 100;
  }
}
