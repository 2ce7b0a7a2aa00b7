/**
 * Decimal rendering of natural numbers, as a JavaScript template literal
 * writes a non-negative integer. Used by the dart labels and the player names.
 */
module Decimal {

  predicate IsDigit(c: char) {
    '0' <= c <= '9'
  }

  predicate AllDigits(s: string) {
    forall i :: 0 <= i < |s| ==> IsDigit(s[i])
  }

  function DigitChar(d: nat): (c: char)
    requires d < 10
    ensures IsDigit(c)
  {
    ('0' as int + d) as char
  }

  function DigitValue(c: char): (d: nat)
    requires IsDigit(c)
    ensures d < 10 && DigitChar(d) == c
  {
    c as int - '0' as int
  }

  /** The shortest decimal numeral of n: never empty, digits only. */
  function Show(n: nat): (s: string)
    ensures |s| > 0 && AllDigits(s)
    decreases n
  {
    if n < 10 then [DigitChar(n)] else Show(n / 10) + [DigitChar(n % 10)]
  }

  /** Reads a numeral back, most significant digit first. */
  function Parse(s: string): (n: nat)
    requires AllDigits(s)
    decreases |s|
  {
    if s == [] then 0 else Parse(s[..|s| - 1]) * 10 + DigitValue(s[|s| - 1])
  }

  lemma {:induction false} ParseShow(n: nat)
    ensures Parse(Show(n)) == n
    decreases n
  {
    if n >= 10 {
      var s := Show(n);
      assert s[..|s| - 1] == Show(n / 10);
      ParseShow(n / 10);
    }
  }

  /**
   * The numeral has no leading zero: it starts with '0' exactly when it
   * writes zero, and then it is just "0".
   */
  lemma {:induction false} ShowNoLeadingZero(n: nat)
    ensures Show(n)[0] == '0' <==> n == 0
    ensures |Show(n)| == 1 || Show(n)[0] != '0'
    decreases n
  {
    if n >= 10 {
      ShowNoLeadingZero(n / 10);
      assert Show(n)[0] == Show(n / 10)[0];
    }
  }

  /** Different numbers are written differently. */
  lemma ShowInjective(a: nat, b: nat)
    ensures Show(a) == Show(b) ==> a == b
  {
    ParseShow(a);
    ParseShow(b);
  }

  /**
   * A numeral followed by a non-digit is delimited by it: two texts that
   * agree and start with a numeral then a non-digit start with the same numeral.
   */
  lemma NumeralPrefix(x: string, y: string, rx: string, ry: string)
    requires AllDigits(x) && AllDigits(y)
    requires |rx| > 0 && |ry| > 0 && !IsDigit(rx[0]) && !IsDigit(ry[0])
    requires x + rx == y + ry
    ensures x == y
  {
    assert x == (x + rx)[..|x|];
    assert y == (y + ry)[..|y|];
  }
}
