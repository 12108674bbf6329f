/** Decimal rendering of integers, as Java's string concatenation `num + "..."`
    (that is, `Integer.toString(num)`) produces it. */
module Decimal {

  function DigitChar(d: int): (c: char)
    requires 0 <= d < 10
    ensures '0' <= c <= '9'
    ensures c as int - '0' as int == d
  {
    ('0' as int + d) as char
  }

  function DigitValue(c: char): (d: int)
    requires '0' <= c <= '9'
    ensures 0 <= d < 10
    ensures DigitChar(d) == c
  {
    c as int - '0' as int
  }

  predicate IsDigits(s: string) {
    forall i :: 0 <= i < |s| ==> '0' <= s[i] <= '9'
  }

  /** The decimal digits of `n`, most significant first, without leading zeros. */
  function FromNat(n: nat): (s: string)
    ensures |s| >= 1 && IsDigits(s)
    ensures s[0] == '0' <==> n == 0
    ensures s[|s| - 1] == DigitChar(n % 10)
    decreases n
  {
    if n < 10 then [DigitChar(n)] else FromNat(n / 10) + [DigitChar(n % 10)]
  }

  /** `Integer.toString(x)`: a minus sign before the digits of a negative value. */
  function FromInt(x: int): (s: string)
    ensures |s| >= 1
    ensures s[0] == '-' <==> x < 0
    ensures x < 0 ==> s[1..] == FromNat(-x)
    ensures x >= 0 ==> s == FromNat(x)
  {
    if x < 0 then "-" + FromNat(-x) else FromNat(x)
  }

  /** The value of a string of decimal digits (the empty string reads as 0). */
  function Parse(s: string): (n: nat)
    requires IsDigits(s)
  {
    if s == [] then 0 else Parse(s[..|s| - 1]) * 10 + DigitValue(s[|s| - 1])
  }

  /** Reading back the digits of `n` gives `n`. */
  lemma {:induction false} ParseFromNat(n: nat)
    ensures Parse(FromNat(n)) == n
    decreases n
  {
    var s := FromNat(n);
    if n >= 10 {
      assert s[..|s| - 1] == FromNat(n / 10);
      ParseFromNat(n / 10);
    }
  }

  /** Distinct numbers have distinct renderings. */
  lemma FromNatInjective(a: nat, b: nat)
    ensures FromNat(a) == FromNat(b) <==> a == b
  {
    if FromNat(a) == FromNat(b) {
      ParseFromNat(a);
      ParseFromNat(b);
    }
  }

  /** The last two characters of a rendering of at least two digits are the tens and units. */
  lemma {:induction false} TensDigit(n: nat)
    requires n >= 10
    ensures var s := FromNat(n); |s| >= 2 && s[|s| - 2] == DigitChar((n / 10) % 10)
  {
    var s := FromNat(n);
    assert s[..|s| - 1] == FromNat(n / 10);
  }
}
