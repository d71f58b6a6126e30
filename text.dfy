/** Decimal rendering of integers, as PHP's `%d`/`date` and Java's `Integer.toString` print them. */
module Text {

  predicate IsDigit(c: char)
  {
    '0' <= c <= '9'
  }

  function DigitChar(d: nat): (c: char)
    requires d < 10
    ensures IsDigit(c) && c as int - '0' as int == d
  {
    ('0' as int + d) as char
  }

  function DigitValue(c: char): (d: nat)
    requires IsDigit(c)
    ensures d < 10 && DigitChar(d) == c
  {
    (c as int - '0' as int) as nat
  }

  /** The value of a non-empty string of decimal digits: the reference reading of a number. */
  function DigitsValue(s: string): nat
    requires forall i :: 0 <= i < |s| ==> IsDigit(s[i])
  {
    if s == [] then 0 else 10 * DigitsValue(s[..|s| - 1]) + DigitValue(s[|s| - 1])
  }

  /** The decimal representation of `n`, without leading zeros. */
  function NatStr(n: nat): (s: string)
    ensures |s| >= 1
    ensures forall i :: 0 <= i < |s| ==> IsDigit(s[i])
    ensures s[0] == '0' <==> n == 0
    ensures n < 10 <==> |s| == 1
  {
    if n < 10 then [DigitChar(n)] else NatStr(n / 10) + [DigitChar(n % 10)]
  }

  /** Java's `Integer.toString` and PHP's `%d`: a minus sign before negative values. */
  function IntStr(i: int): (s: string)
    ensures |s| >= 1
    ensures s[0] == '-' <==> i < 0
    ensures i >= 0 ==> s == NatStr(i)
  {
    if i < 0 then "-" + NatStr(-i) else NatStr(i)
  }

  /** Reading the printed digits back gives the number: the rendering loses nothing. */
  lemma {:induction false} NatStrRoundTrip(n: nat)
    ensures DigitsValue(NatStr(n)) == n
  {
    var s := NatStr(n);
    if n < 10 {
      assert s[..|s| - 1] == [];
    } else {
      NatStrRoundTrip(n / 10);
      assert s[..|s| - 1] == NatStr(n / 10);
      assert s[|s| - 1] == DigitChar(n % 10);
    }
  }

  /** Distinct numbers print differently. */
  lemma NatStrInjective(m: nat, n: nat)
    ensures NatStr(m) == NatStr(n) ==> m == n
  {
    NatStrRoundTrip(m);
    NatStrRoundTrip(n);
  }

  /** Distinct integers print differently. */
  lemma IntStrInjective(a: int, b: int)
    ensures IntStr(a) == IntStr(b) ==> a == b
  {
    if IntStr(a) == IntStr(b) {
      if a < 0 && b < 0 {
        assert IntStr(a)[1..] == NatStr(-a) && IntStr(b)[1..] == NatStr(-b);
        NatStrInjective(-a, -b);
      } else if a >= 0 && b >= 0 {
        NatStrInjective(a, b);
      }
    }
  }
}
