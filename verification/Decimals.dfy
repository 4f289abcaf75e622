/**
 Runs of decimal digits.
 */
module Decimals {
  predicate Digit(c: char) { '0' <= c <= '9' }

  function DigitValue(c: char): (v: nat)
    requires Digit(c)
    ensures v < 10 && c == (v + 48) as char
  {
    c as int - 48
  }

  // Decimal digits as a number.
  function Decimal(s: string): nat
    requires forall i | 0 <= i < |s| :: Digit(s[i])
  {
    if s == [] then 0 else 10 * Decimal(s[..|s| - 1]) + DigitValue(s[|s| - 1])
  }

  function Dec(n: nat): (s: string)
    ensures s != [] && forall i | 0 <= i < |s| :: Digit(s[i])
  {
    var d := (48 + n % 10) as char;
    if n < 10 then [d] else Dec(n / 10) + [d]
  }

  lemma {:induction false} DecimalOfDec(n: nat)
    ensures Decimal(Dec(n)) == n
    decreases n
  {
    var s := Dec(n);
    if n >= 10 {
      DecimalOfDec(n / 10);
      assert s[..|s| - 1] == Dec(n / 10);
    } else {
      assert s[..|s| - 1] == [];
    }
  }

  // The end of the digits from n on.
  function DigitsEnd(s: string, n: nat): (r: nat)
    requires n <= |s|
    ensures n <= r <= |s|
    ensures forall p | n <= p < r :: Digit(s[p])
    ensures r < |s| ==> !Digit(s[r])
    decreases |s| - n
  {
    if n < |s| && Digit(s[n]) then DigitsEnd(s, n + 1) else n
  }

  lemma {:induction false} DigitsAre(s: string, n: nat, m: nat)
    requires n <= m <= |s| && (forall p | n <= p < m :: Digit(s[p])) && (m == |s| || !Digit(s[m]))
    ensures DigitsEnd(s, n) == m
    decreases m - n
  {
    if n < m {
      DigitsAre(s, n + 1, m);
    }
  }

  function Ten(n: nat): nat { if n == 0 then 1 else 10 * Ten(n - 1) }

  // Digits count tenfold from right to left: the first one for the most.
  lemma {:induction false} DecimalFromLeft(s: string)
    requires s != "" && forall i | 0 <= i < |s| :: Digit(s[i])
    ensures Decimal(s) == (s[0] as int - '0' as int) * Ten(|s| - 1) + Decimal(s[1..])
  {
    if |s| > 1 {
      var front := s[..|s| - 1];
      DecimalFromLeft(front);
      assert front[1..] == s[1..][..|s| - 2];
      TenTimes(s[0] as int - '0' as int, Ten(|s| - 2));
    } else {
      assert s[..0] == "" && s[1..] == "";
    }
  }

  lemma TenTimes(d: int, t: nat)
    ensures 10 * (d * t) == d * (10 * t)
  {
  }
}
