/** Decimal rendering of integers, as Python's `str(int)` and f-string interpolation produce it. */
module Decimal {

  predicate IsDigit(c: char) {
    '0' <= c <= '9'
  }

  predicate AllDigits(s: string) {
    forall i :: 0 <= i < |s| ==> IsDigit(s[i])
  }

  function DigitValue(c: char): (d: nat)
    requires IsDigit(c)
    ensures d < 10
  {
    c as int - '0' as int
  }

  function DigitChar(d: nat): (c: char)
    requires d < 10
    ensures IsDigit(c) && DigitValue(c) == d
  {
    ('0' as int + d) as char
  }

  /** The canonical decimal form of a natural number: digits only, no leading zero. */
  function NatToString(n: nat): (s: string)
    ensures |s| > 0 && AllDigits(s)
    ensures s[0] == '0' ==> n == 0 && |s| == 1
    decreases n
  {
    if n < 10 then [DigitChar(n)] else NatToString(n / 10) + [DigitChar(n % 10)]
  }

  /** `str(i)` for a Python int: a minus sign before the magnitude of a negative number. */
  function IntToString(i: int): (s: string)
    ensures |s| > 0
    ensures 0 <= i ==> AllDigits(s) && ParseDigits(s) == i && (s[0] == '0' ==> |s| == 1)
    ensures i < 0 ==> s[0] == '-' && s[1..] == NatToString(-i)
  {
    if i < 0 then "-" + NatToString(-i)
    else
      ParseNatToString(i);
      NatToString(i)
  }

  /** Reads a string of decimal digits back as a number (the inverse of `NatToString`). */
  function ParseDigits(s: string): nat
    requires AllDigits(s)
  {
    if |s| == 0 then 0 else 10 * ParseDigits(s[..|s| - 1]) + DigitValue(s[|s| - 1])
  }

  lemma {:induction false} ParseNatToString(n: nat)
    ensures ParseDigits(NatToString(n)) == n
    decreases n
  {
    var s := NatToString(n);
    if n >= 10 {
      ParseNatToString(n / 10);
      assert s[..|s| - 1] == NatToString(n / 10);
    } else {
      assert s[..|s| - 1] == [];
    }
  }

  lemma NatToStringInjective(a: nat, b: nat)
    ensures NatToString(a) == NatToString(b) ==> a == b
  {
    ParseNatToString(a);
    ParseNatToString(b);
  }

  /** Distinct integers render as distinct strings. */
  lemma IntToStringInjective(a: int, b: int)
    ensures IntToString(a) == IntToString(b) ==> a == b
  {
    if IntToString(a) == IntToString(b) {
      if a < 0 && b < 0 {
        NatToStringInjective(-a, -b);
      } else if 0 <= a && 0 <= b {
        NatToStringInjective(a, b);
      }
    }
  }
}
