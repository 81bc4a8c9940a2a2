/** Base-10 text of integers: what `operator<<` prints for an integer
    value, and the digit strings that `strtoul` reads back. */
module Decimal {
  predicate IsDigit(c: char) { '0' <= c <= '9' }

  predicate AllDigits(s: string) { forall i :: 0 <= i < |s| ==> IsDigit(s[i]) }

  function DigitChar(d: nat): (c: char)
    requires d < 10
    ensures IsDigit(c)
  {
    ['0', '1', '2', '3', '4', '5', '6', '7', '8', '9'][d]
  }

  function DigitValue(c: char): (d: nat)
    requires IsDigit(c)
    ensures d < 10 && DigitChar(d) == c
  {
    c as int - '0' as int
  }

  /** Decimal text of a natural number, without leading zeros. */
  function NatToDecimal(n: nat): (s: string)
    ensures |s| > 0 && AllDigits(s)
    ensures |s| > 1 ==> s[0] != '0'
  {
    if n < 10 then [DigitChar(n)] else NatToDecimal(n / 10) + [DigitChar(n % 10)]
  }

  /** Decimal text of an integer as an output stream prints it: a minus
      sign before the magnitude of a negative value. */
  function IntToDecimal(x: int): (s: string)
    ensures |s| > 0
    ensures forall i :: 0 <= i < |s| ==> IsDigit(s[i]) || (i == 0 && s[i] == '-' && x < 0)
  {
    if x < 0 then "-" + NatToDecimal(-x) else NatToDecimal(x)
  }

  /** The value of a digit string, most significant digit first. */
  function DigitsValue(s: string): (n: nat)
    requires AllDigits(s)
  {
    if s == [] then 0 else 10 * DigitsValue(s[..|s| - 1]) + DigitValue(s[|s| - 1])
  }

  lemma {:induction false} DigitsValueOfDecimal(n: nat)
    ensures DigitsValue(NatToDecimal(n)) == n
  {
    if n >= 10 {
      var s := NatToDecimal(n);
      var front := NatToDecimal(n / 10);
      assert s == front + [DigitChar(n % 10)];
      assert s[..|s| - 1] == front;
      assert s[|s| - 1] == DigitChar(n % 10);
      DigitsValueOfDecimal(n / 10);
      assert n == 10 * (n / 10) + n % 10;
    }
  }

  /** Decimal text never contains the separators of the array layout. */
  lemma DecimalHasNoSeparators(x: int)
    ensures '\n' !in IntToDecimal(x) && ',' !in IntToDecimal(x) && ' ' !in IntToDecimal(x)
  {
  }

  /** The printed text of an integer reads back as it: the digits of a
      non-negative value give the value, and a negative value is a minus
      sign followed by the digits of its magnitude. */
  lemma IntToDecimalValue(x: int)
    ensures x >= 0 ==> AllDigits(IntToDecimal(x)) && DigitsValue(IntToDecimal(x)) == x
    ensures x < 0 ==> var s := IntToDecimal(x);
                      && s[0] == '-' && AllDigits(s[1..]) && DigitsValue(s[1..]) == -x
  {
    if x >= 0 {
      DigitsValueOfDecimal(x);
    } else {
      assert IntToDecimal(x)[1..] == NatToDecimal(-x);
      DigitsValueOfDecimal(-x);
    }
  }
}
