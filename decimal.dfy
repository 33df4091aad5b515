/** Decimal rendering of unsigned integers, as `BigInt.toString()` produces it:
    no sign, no leading zeros, at least one digit. */
module Decimal {

  predicate IsDigit(c: char) {
    '0' <= c <= '9'
  }

  function DigitChar(d: nat): (c: char)
    requires d < 10
    ensures IsDigit(c) && c as int - '0' as int == d
  {
    ('0' as int + d) as char
  }

  function NatToString(n: nat): (r: string)
    ensures 1 <= |r|
    ensures |r| == 1 <==> n < 10
    ensures forall i :: 0 <= i < |r| ==> IsDigit(r[i])
    ensures r[|r| - 1] == DigitChar(n % 10)
    ensures 1 < |r| ==> r[0] != '0'
    decreases n
  {
    if n < 10 then [DigitChar(n)] else NatToString(n / 10) + [DigitChar(n % 10)]
  }

  /** Distinct numbers render as distinct strings, so the decimal string is a faithful store key. */
  lemma {:induction false} NatToStringInjective(a: nat, b: nat)
    requires NatToString(a) == NatToString(b)
    ensures a == b
    decreases a
  {
    var s := NatToString(a);
    assert a % 10 == b % 10 by {
      assert DigitChar(a % 10) == s[|s| - 1] == DigitChar(b % 10);
    }
    if 10 <= a {
      assert 10 <= b;
      assert NatToString(a / 10) == s[..|s| - 1] == NatToString(b / 10);
      NatToStringInjective(a / 10, b / 10);
    }
  }

  /** A single decimal digit renders as a one-character string. */
  lemma DigitToString(d: nat)
    requires d < 10
    ensures NatToString(d) == [DigitChar(d)]
  {
  }
}
