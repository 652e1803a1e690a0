/** Decimal digits as the JavaScript runtime renders and reads them: the
    `toString()` of a non-negative integer and the `toFixed(2)` of an amount
    held as whole cents. */
module Numerals {

  predicate IsDigit(c: char) {
    '0' <= c <= '9'
  }

  predicate AllDigits(s: string) {
    forall i :: 0 <= i < |s| ==> IsDigit(s[i])
  }

  function DigitChar(d: nat): (c: char)
    requires d < 10
    ensures IsDigit(c) && c as int - '0' as int == d
  {
    ('0' as int + d) as char
  }

  function DigitValue(c: char): (d: nat)
    requires IsDigit(c)
    ensures d < 10 && DigitChar(d) == c
  {
    c as int - '0' as int
  }

  function Pow10(k: nat): (p: nat)
    ensures p >= 1
  {
    if k == 0 then 1 else 10 * Pow10(k - 1)
  }

  /** `n.toString()` for a non-negative integer: its decimal digits, most
      significant first, with no leading zero. */
  function NatToString(n: nat): (s: string)
    ensures |s| >= 1 && AllDigits(s)
    ensures s[0] == '0' <==> n == 0
    decreases n
  {
    if n < 10 then [DigitChar(n)] else NatToString(n / 10) + [DigitChar(n % 10)]
  }

  /** The number a string of decimal digits denotes (leading zeros allowed). */
  function DigitsValue(s: string): nat
    requires AllDigits(s)
  {
    if s == [] then 0 else 10 * DigitsValue(s[..|s| - 1]) + DigitValue(s[|s| - 1])
  }

  /** Reading back the digits `toString()` wrote gives the number again. */
  lemma {:induction false} DigitsValueOfNatToString(n: nat)
    ensures DigitsValue(NatToString(n)) == n
    decreases n
  {
    var s := NatToString(n);
    if n >= 10 {
      DigitsValueOfNatToString(n / 10);
      assert s[..|s| - 1] == NatToString(n / 10);
    }
  }

  /** A number with k + 1 decimal digits is written with exactly k + 1 characters. */
  lemma {:induction false} NatToStringLength(n: nat, k: nat)
    requires Pow10(k) <= n < Pow10(k + 1)
    ensures |NatToString(n)| == k + 1
    decreases k
  {
    if k > 0 {
      NatToStringLength(n / 10, k - 1);
    }
  }

  /** `amount.toFixed(2)` for an amount of `cents` hundredths: the whole
      units as `toString()` writes them, a point, then exactly two digits
      holding the hundredths. */
  function FormatCents(cents: nat): (s: string)
    ensures |s| >= 4 && s[|s| - 3] == '.'
    ensures AllDigits(s[..|s| - 3]) && AllDigits(s[|s| - 2..])
    ensures DigitsValue(s[..|s| - 3]) == cents / 100
    ensures DigitsValue(s[|s| - 2..]) == cents % 100
    ensures s[0] == '0' ==> |s| == 4
  {
    var whole := NatToString(cents / 100);
    var tail := [DigitChar(cents % 100 / 10), DigitChar(cents % 10)];
    var s := whole + "." + tail;
    assert s[..|s| - 3] == whole && s[|s| - 2..] == tail;
    DigitsValueOfNatToString(cents / 100);
    LastTwoDigits(cents);
    s
  }

  /** The two digits after the point denote the hundredths. */
  lemma LastTwoDigits(cents: nat)
    ensures DigitsValue([DigitChar(cents % 100 / 10), DigitChar(cents % 10)]) == cents % 100
  {
    var n := cents % 100;
    var q := cents / 100;
    var tail := [DigitChar(n / 10), DigitChar(cents % 10)];
    assert cents == 100 * q + n;
    assert n == 10 * (n / 10) + n % 10;
    LastDigit(cents, 10 * q + n / 10, n % 10);
    assert tail[..1] == [DigitChar(n / 10)] && [DigitChar(n / 10)][..0] == [];
    assert DigitsValue(tail[..1]) == n / 10;
    assert DigitsValue(tail) == 10 * (n / 10) + cents % 10;
  }

  /** Division by ten is unique: `a = 10 * k + r` with a digit `r` makes `r`
      the last digit of `a`. */
  lemma LastDigit(a: nat, k: int, r: int)
    requires a == 10 * k + r && 0 <= r < 10
    ensures a % 10 == r
  {
  }
}
