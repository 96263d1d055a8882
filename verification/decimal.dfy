/**
 * Decimal rendering of integers, the stand-in for `QString::number(int)`:
 * optional '-' sign, then the base-10 digits without leading zeros.
 * `ParseNumber` reads such a text back and is the partner of `Number`.
 */
module Decimal {

  predicate IsDigit(c: char) {
    '0' <= c <= '9'
  }

  predicate AllDigits(s: string) {
    forall i :: 0 <= i < |s| ==> IsDigit(s[i])
  }

  function DigitChar(d: nat): (c: char)
    requires d < 10
    ensures IsDigit(c)
  {
    (48 + d) as char
  }

  function DigitValue(c: char): (d: nat)
    requires IsDigit(c)
    ensures d < 10 && DigitChar(d) == c
  {
    (c as int - 48) as nat
  }

  /** The digits of `n`, most significant first. */
  function NatDigits(n: nat): (s: string)
    ensures |s| >= 1 && AllDigits(s)
    ensures s[0] == '0' <==> n == 0
    ensures n < 10 <==> |s| == 1
  {
    if n < 10 then [DigitChar(n)] else NatDigits(n / 10) + [DigitChar(n % 10)]
  }

  /** `QString::number(i)`. */
  function Number(i: int): (s: string)
    ensures |s| >= 1
    ensures i < 0 <==> s[0] == '-'
    ensures i >= 0 ==> IsDigit(s[0])
    ensures forall k :: 0 < k < |s| ==> IsDigit(s[k])
  {
    if i < 0 then "-" + NatDigits(-i) else NatDigits(i)
  }

  /** The value of a string of digits, read most significant first. */
  function ParseDigits(s: string): nat
    requires AllDigits(s)
  {
    if s == [] then 0 else ParseDigits(s[..|s| - 1]) * 10 + DigitValue(s[|s| - 1])
  }

  /** The value of an optionally signed decimal text. */
  function ParseNumber(s: string): int
    requires |s| >= 1
    requires forall k :: 0 < k < |s| ==> IsDigit(s[k])
    requires s[0] == '-' || IsDigit(s[0])
  {
    if s[0] == '-' then 0 - ParseDigits(s[1..]) as int else ParseDigits(s)
  }

  /** Appending one digit to the decimal text of a positive number multiplies it by ten and adds the digit. */
  lemma {:induction false} NatDigitsAppend(k: nat, d: nat)
    requires k >= 1 && d < 10
    ensures NatDigits(k * 10 + d) == NatDigits(k) + [DigitChar(d)]
  {
    var n := k * 10 + d;
    assert n >= 10;
    assert n / 10 == k && n % 10 == d;
  }

  /** Reading back the digits of `n` gives `n`. */
  lemma {:induction false} ParseNatDigits(n: nat)
    ensures ParseDigits(NatDigits(n)) == n
  {
    var s := NatDigits(n);
    if n < 10 {
      assert s[..0] == [];
    } else {
      assert s[..|s| - 1] == NatDigits(n / 10);
      ParseNatDigits(n / 10);
    }
  }

  /** `ParseNumber` undoes `Number`, so distinct integers have distinct texts. */
  lemma {:induction false} ParseNumberRoundTrip(i: int)
    ensures ParseNumber(Number(i)) == i
  {
    if i < 0 {
      assert Number(i)[1..] == NatDigits(-i);
      ParseNatDigits(-i);
    } else {
      ParseNatDigits(i);
    }
  }

  lemma NumberInjective(i: int, j: int)
    ensures Number(i) == Number(j) <==> i == j
  {
    ParseNumberRoundTrip(i);
    ParseNumberRoundTrip(j);
  }
}
