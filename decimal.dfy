/**
 * Decimal renderings of integers. JavaScript names array elements by the
 * decimal strings "0", "1", ...; Kotlin renders an `Int` in a string template
 * the same way, with a leading '-' when it is negative.
 */
module Decimal {

  function DigitChar(d: nat): (c: char)
    requires d < 10
    ensures '0' <= c <= '9'
  {
    "0123456789"[d]
  }

  /** The shortest decimal numeral of `n` (no leading zeros). */
  function NatToString(n: nat): (s: string)
    ensures 1 <= |s|
    ensures n < 10 <==> |s| == 1
    ensures forall i :: 0 <= i < |s| ==> '0' <= s[i] <= '9'
  {
    if n < 10 then [DigitChar(n)] else NatToString(n / 10) + [DigitChar(n % 10)]
  }

  function IntToString(x: int): (s: string)
    ensures 1 <= |s|
    ensures x < 0 <==> s[0] == '-'
    ensures forall i :: 0 <= i < |s| ==> s[i] == '-' || '0' <= s[i] <= '9'
  {
    if x < 0 then "-" + NatToString(-x) else NatToString(x)
  }

  lemma DigitCharInjective(d: nat, e: nat)
    requires d < 10 && e < 10 && DigitChar(d) == DigitChar(e)
    ensures d == e
  {
  }

  /** A number is determined by its quotient and remainder by ten. */
  lemma QuotientRemainder(i: nat, j: nat)
    requires i / 10 == j / 10 && i % 10 == j % 10
    ensures i == j
  {
    assert i == 10 * (i / 10) + i % 10;
    assert j == 10 * (j / 10) + j % 10;
  }

  /** Distinct numbers have distinct numerals. */
  lemma {:induction false} NatToStringInjective(i: nat, j: nat)
    requires NatToString(i) == NatToString(j)
    ensures i == j
    decreases i
  {
    var si, sj := NatToString(i), NatToString(j);
    if i >= 10 && j >= 10 {
      var n := |si|;
      assert si == NatToString(i / 10) + [DigitChar(i % 10)];
      assert sj == NatToString(j / 10) + [DigitChar(j % 10)];
      assert si[..n - 1] == NatToString(i / 10);
      assert sj[..n - 1] == NatToString(j / 10);
      NatToStringInjective(i / 10, j / 10);
      DigitCharInjective(i % 10, j % 10);
      QuotientRemainder(i, j);
    } else if i < 10 && j < 10 {
      DigitCharInjective(i, j);
    }
  }

  lemma NatToStringIsInjective()
    ensures forall i: nat, j: nat :: NatToString(i) == NatToString(j) ==> i == j
  {
    forall i: nat, j: nat | NatToString(i) == NatToString(j) ensures i == j {
      NatToStringInjective(i, j);
    }
  }
}
