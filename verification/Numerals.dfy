/** Numbers written in decimal digits, and powers of ten. */
module Numerals {

  predicate IsDigit(c: char) { '0' <= c <= '9' }

  predicate AreDigits(s: string) { forall i :: 0 <= i < |s| ==> IsDigit(s[i]) }

  function DigitOf(c: char): nat { if IsDigit(c) then c as nat - '0' as nat else 0 }

  /** What the first n digits write. */
  function ValueOf(s: string, n: nat): nat
    requires n <= |s|
  {
    if n == 0 then 0 else 10 * ValueOf(s, n - 1) + DigitOf(s[n - 1])
  }

  function Value(s: string): nat { ValueOf(s, |s|) }

  function Pow10(n: nat): (p: nat)
    ensures p > 0
  {
    if n == 0 then 1 else 10 * Pow10(n - 1)
  }

  lemma {:induction false} ValueOfSame(s: string, t: string, n: nat)
    requires n <= |s| && n <= |t| && forall i :: 0 <= i < n ==> s[i] == t[i]
    ensures ValueOf(s, n) == ValueOf(t, n)
  {
    if n > 0 { ValueOfSame(s, t, n - 1); }
  }

  lemma {:induction false} PowAdds(a: nat, b: nat)
    ensures Pow10(a + b) == Pow10(a) * Pow10(b)
  {
    if b > 0 { PowAdds(a, b - 1); }
  }

  lemma {:induction false} PowGrows(a: nat, b: nat)
    requires a <= b
    ensures Pow10(a) <= Pow10(b)
  {
    if a < b { PowGrows(a, b - 1); }
  }

  lemma {:induction false} ValueBelow(s: string, n: nat)
    requires n <= |s|
    ensures ValueOf(s, n) < Pow10(n)
  {
    if n > 0 { ValueBelow(s, n - 1); }
  }

  lemma TimesTen(x: int, p: int)
    ensures x * (10 * p) == 10 * (x * p)
  {}

  /** One number's digits followed by another's. */
  lemma {:induction false} ValueConcat(a: string, b: string, n: nat)
    requires n <= |b|
    ensures ValueOf(a + b, |a| + n) == Value(a) * Pow10(n) + ValueOf(b, n)
  {
    if n == 0 {
      ValueOfSame(a + b, a, |a|);
    } else {
      var ab, x, p := a + b, Value(a), Pow10(n - 1);
      ValueConcat(a, b, n - 1);
      assert ab[|a| + n - 1] == b[n - 1];
      assert x * (10 * p) == 10 * (x * p) by { TimesTen(x, p); }
      assert ValueOf(ab, |a| + n) == 10 * ValueOf(ab, |a| + n - 1) + DigitOf(b[n - 1]);
    }
  }
}
