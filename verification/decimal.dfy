/**
  Decimal rendering of non-negative integers, as strconv.Itoa produces it,
  together with the reading that inverts it.
 */
module Decimal {

  predicate IsDigit(c: char)
  {
    '0' <= c <= '9'
  }

  predicate IsDecimal(s: string)
  {
    |s| > 0 && forall i :: 0 <= i < |s| ==> IsDigit(s[i])
  }

  function DigitChar(d: nat): (c: char)
    requires d < 10
    ensures IsDigit(c)
  {
    (48 + d) as char
  }

  function DigitValue(c: char): (d: nat)
    requires IsDigit(c)
    ensures d < 10
  {
    c as int - 48
  }

  /** The base-10 text of n, most significant digit first, without leading zeros. */
  function Itoa(n: nat): (s: string)
    ensures IsDecimal(s)
    ensures s[0] == '0' ==> n == 0
    decreases n
  {
    if n < 10 then [DigitChar(n)] else Itoa(n / 10) + [DigitChar(n % 10)]
  }

  /** The number a string of decimal digits denotes. */
  function Atoi(s: string): nat
    requires forall i :: 0 <= i < |s| ==> IsDigit(s[i])
    decreases |s|
  {
    if |s| == 0 then 0 else Atoi(s[..|s| - 1]) * 10 + DigitValue(s[|s| - 1])
  }

  /** Reading back the rendering of n gives n. */
  lemma {:induction false} AtoiItoa(n: nat)
    ensures Atoi(Itoa(n)) == n
    decreases n
  {
    if n >= 10 {
      var s := Itoa(n);
      assert s[..|s| - 1] == Itoa(n / 10);
      AtoiItoa(n / 10);
    }
  }

  /** A decimal without leading zeros denotes a positive number, unless it is "0". */
  lemma {:induction false} AtoiPositive(s: string)
    requires IsDecimal(s) && s[0] != '0'
    ensures Atoi(s) > 0
    decreases |s|
  {
    if |s| > 1 {
      AtoiPositive(s[..|s| - 1]);
    }
  }

  /**
    Itoa gives the only decimal text of a number without leading zeros:
    any such text of n is Itoa(n).
   */
  lemma {:induction false} CanonicalIsItoa(s: string)
    requires IsDecimal(s) && (s[0] != '0' || |s| == 1)
    ensures s == Itoa(Atoi(s))
    decreases |s|
  {
    if |s| > 1 {
      var t := s[..|s| - 1];
      AtoiPositive(t);
      CanonicalIsItoa(t);
      assert DigitChar(DigitValue(s[|s| - 1])) == s[|s| - 1];
      assert s == t + [s[|s| - 1]];
    } else {
      assert DigitChar(DigitValue(s[0])) == s[0];
    }
  }

  /** Distinct numbers have distinct renderings. */
  lemma ItoaInjective(m: nat, n: nat)
    ensures Itoa(m) == Itoa(n) <==> m == n
  {
    AtoiItoa(m);
    AtoiItoa(n);
  }
}
