/**
 * The two pieces of Go's string library the command layer leans on:
 * `%d` formatting of an integer and `strings.ToLower`.
 */
module Text {

  predicate IsDigit(c: char)
  {
    '0' <= c <= '9'
  }

  function DigitChar(d: nat): (c: char)
    requires d < 10
    ensures IsDigit(c)
  {
    "0123456789"[d]
  }

  /** Decimal digits of a natural number, most significant first, no leading zeros. */
  function NatDecimal(n: nat): (s: string)
    ensures 1 <= |s|
    ensures forall k :: 0 <= k < |s| ==> IsDigit(s[k])
    ensures s[0] == '0' ==> n == 0
    decreases n
  {
    if n < 10 then [DigitChar(n)] else NatDecimal(n / 10) + [DigitChar(n % 10)]
  }

  /** The natural number a string of decimal digits denotes, most significant first. */
  function DigitsValue(s: string): nat
    requires forall k :: 0 <= k < |s| ==> IsDigit(s[k])
  {
    if s == [] then 0
    else
      assert IsDigit(s[|s| - 1]);
      10 * DigitsValue(s[..|s| - 1]) + (s[|s| - 1] as int - '0' as int)
  }

  /** The digits `NatDecimal` writes denote the number they were written for. */
  lemma {:induction false} NatDecimalValue(n: nat)
    ensures DigitsValue(NatDecimal(n)) == n
    decreases n
  {
    if n >= 10 {
      var s := NatDecimal(n);
      NatDecimalValue(n / 10);
      assert s[..|s| - 1] == NatDecimal(n / 10);
    }
  }

  /** `fmt.Sprintf("%d", i)`: an optional minus sign followed by the digits of |i|. */
  function Decimal(i: int): (s: string)
    ensures 1 <= |s|
    ensures i >= 0 ==> forall k :: 0 <= k < |s| ==> IsDigit(s[k])
    ensures i < 0 ==> s[0] == '-' && forall k :: 1 <= k < |s| ==> IsDigit(s[k])
  {
    if i < 0 then "-" + NatDecimal(-i) else NatDecimal(i)
  }

  /** After the optional sign, `Decimal` writes the digits of the magnitude of i. */
  lemma DecimalValue(i: int)
    ensures i >= 0 ==> DigitsValue(Decimal(i)) == i
    ensures i < 0 ==> DigitsValue(Decimal(i)[1..]) == -i
  {
    if i < 0 {
      assert Decimal(i)[1..] == NatDecimal(-i);
      NatDecimalValue(-i);
    } else {
      NatDecimalValue(i);
    }
  }

  /** ASCII case folding of one character; every other character is kept. */
  function LowerChar(c: char): char
  {
    if 'A' <= c <= 'Z' then (c as int + 32) as char else c
  }

  /** `strings.ToLower`, restricted to ASCII letters. */
  function Lower(s: string): (r: string)
    ensures |r| == |s|
    ensures forall k :: 0 <= k < |s| ==> r[k] == LowerChar(s[k])
  {
    seq(|s|, k requires 0 <= k < |s| => LowerChar(s[k]))
  }
}
