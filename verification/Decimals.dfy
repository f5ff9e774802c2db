/** Which decimal literals a comparison may hold: those whose exact value fits, whatever zeros pad them. */
module Decimals {
  import opened Topology
  import opened Numerals

  const MAX_SCALE := 10
  const MAX_INTEGER_DIGITS := 28

  // ---- plain decimal text ----

  /** Plain decimal text taken apart: its sign, its integer digits, and its fraction digits if it has a point. */
  datatype Parts = Parts(negative: bool, integer: string, fraction: string)

  /** What plain decimal text is made of. */
  predicate Spells(s: string, p: Parts) {
    && s == Sign(p.negative) + Unsigned(p)
    && p.integer != "" && AreDigits(p.integer) && AreDigits(p.fraction)
  }

  function Sign(negative: bool): string { if negative then "-" else "" }

  function Unsigned(p: Parts): string { p.integer + (if p.fraction == "" then "" else "." + p.fraction) }

  /** The length of the run of digits s starts with. */
  function DigitRun(s: string): (n: nat)
    ensures n <= |s|
  {
    if s != "" && IsDigit(s[0]) then 1 + DigitRun(s[1..]) else 0
  }

  function Parse(s: string): Option<Parts> {
    if s != "" && s[0] == '-' then ParseUnsigned(true, s[1..]) else ParseUnsigned(false, s)
  }

  function ParseUnsigned(negative: bool, s: string): Option<Parts> {
    var n := DigitRun(s);
    if n == 0 then None
    else if n == |s| then Some(Parts(negative, s, ""))
    else if s[n] == '.' && n + 1 < |s| && DigitRun(s[n + 1..]) == |s| - n - 1 then
      Some(Parts(negative, s[..n], s[n + 1..]))
    else None
  }

  lemma {:induction false} DigitRunIs(s: string)
    ensures AreDigits(s[..DigitRun(s)]) && (DigitRun(s) < |s| ==> !IsDigit(s[DigitRun(s)]))
  {
    if s != "" && IsDigit(s[0]) {
      DigitRunIs(s[1..]);
      var n := DigitRun(s[1..]);
      assert s[..n + 1] == [s[0]] + s[1..][..n];
    }
  }

  lemma {:induction false} DigitRunOf(a: string, b: string)
    requires AreDigits(a) && (b == "" || !IsDigit(b[0]))
    ensures DigitRun(a + b) == |a|
  {
    if a == "" {
      assert a + b == b;
    } else {
      assert (a + b)[0] == a[0] && (a + b)[1..] == a[1..] + b;
      DigitRunOf(a[1..], b);
    }
  }

  /** A text has at most one reading, and Parse finds it. */
  lemma ParseIff(s: string, p: Parts)
    ensures Parse(s) == Some(p) <==> Spells(s, p)
  {
    hide Parse, Spells;
    if Parse(s) == Some(p) { ParsedIsSpelt(s); }
    if Spells(s, p) { SpeltIsParsed(s, p); }
  }

  lemma ParsedIsSpelt(s: string)
    requires Parse(s).Some?
    ensures Spells(s, Parse(s).value)
  {
    hide ParseUnsigned, Unsigned, AreDigits;
    if s != "" && s[0] == '-' {
      assert s == "-" + s[1..];
      UnsignedIsSpelt(true, s[1..]);
    } else {
      assert s == "" + s;
      UnsignedIsSpelt(false, s);
    }
  }

  lemma UnsignedIsSpelt(negative: bool, s: string)
    requires ParseUnsigned(negative, s).Some?
    ensures var p := ParseUnsigned(negative, s).value;
            p.negative == negative && s == Unsigned(p) && p.integer != "" && AreDigits(p.integer) &&
              AreDigits(p.fraction)
  {
    var n := DigitRun(s);
    DigitRunIs(s);
    if n < |s| {
      var fraction := s[n + 1..];
      DigitRunIs(fraction);
      assert fraction[..|fraction|] == fraction;
      assert s == s[..n] + ("." + fraction);
    } else {
      assert s[..n] == s;
    }
  }

  lemma SpeltIsParsed(s: string, p: Parts)
    requires Spells(s, p)
    ensures Parse(s) == Some(p)
  {
    hide ParseUnsigned;
    var rest := Unsigned(p);
    assert rest[0] == p.integer[0];
    assert s[|Sign(p.negative)|..] == rest;
    UnsignedIsParsed(p);
  }

  lemma UnsignedIsParsed(p: Parts)
    requires p.integer != "" && AreDigits(p.integer) && AreDigits(p.fraction)
    ensures ParseUnsigned(p.negative, Unsigned(p)) == Some(p)
  {
    var tail, rest := if p.fraction == "" then "" else "." + p.fraction, Unsigned(p);
    DigitRunOf(p.integer, tail);
    if p.fraction != "" {
      assert rest[|p.integer|] == '.';
      assert rest[|p.integer| + 1..] == p.fraction;
      assert rest[..|p.integer|] == p.integer;
      DigitRunOf(p.fraction, "");
      assert p.fraction + "" == p.fraction;
    } else {
      assert rest == p.integer;
    }
  }

  // ---- padding ----

  function TrimLeft(s: string): string {
    if s != "" && s[0] == '0' then TrimLeft(s[1..]) else s
  }

  function TrimRight(s: string): string {
    if s != "" && s[|s| - 1] == '0' then TrimRight(s[..|s| - 1]) else s
  }

  /** Whether a decimal literal is one the server takes. */
  predicate CheckDecimal(s: string) {
    var p := Parse(s);
    && p.Some?
    && |TrimRight(p.value.fraction)| <= MAX_SCALE
    && |TrimLeft(p.value.integer)| <= MAX_INTEGER_DIGITS
  }

  // ---- the value of a decimal ----

  /** The exact value of plain decimal text. */
  ghost function Exact(p: Parts): real {
    var v := Value(p.integer) as real + Value(p.fraction) as real / Pow10(|p.fraction|) as real;
    if p.negative then -v else v
  }

  ghost function Magnitude(v: real): real { if v < 0.0 then -v else v }

  ghost predicate IsInteger(v: real) { v.Floor as real == v }

  /** Within 28 integer digits and 10 of scale. */
  ghost predicate Fits(v: real) {
    Magnitude(v) < Pow10(MAX_INTEGER_DIGITS) as real && IsInteger(v * Pow10(MAX_SCALE) as real)
  }

  lemma {:induction false} TrimLeftKeeps(s: string)
    requires AreDigits(s)
    ensures Value(TrimLeft(s)) == Value(s) && AreDigits(TrimLeft(s))
    ensures TrimLeft(s) == "" || TrimLeft(s)[0] != '0'
  {
    if s != "" && s[0] == '0' {
      TrimLeftKeeps(s[1..]);
      ValueConcat(s[..1], s[1..], |s| - 1);
      assert s[..1] + s[1..] == s;
      assert ValueOf(s[..1], 1) == 10 * ValueOf(s[..1], 0) + DigitOf(s[0]);
    }
  }

  /** How many digits an integer needs says how large it is. */
  lemma IntegerFits(s: string, n: nat)
    requires AreDigits(s)
    ensures |TrimLeft(s)| <= n <==> Value(s) < Pow10(n)
  {
    var t := TrimLeft(s);
    TrimLeftKeeps(s);
    ValueBelow(t, |t|);
    if |t| <= n { PowGrows(|t|, n); }
    if |t| > n {
      ValueConcat(t[..1], t[1..], |t| - 1);
      assert t[..1] + t[1..] == t;
      assert ValueOf(t[..1], 1) == 10 * ValueOf(t[..1], 0) + DigitOf(t[0]);
      AtLeast(DigitOf(t[0]), Pow10(|t| - 1));
      PowGrows(n, |t| - 1);
    }
  }

  lemma AtLeast(d: nat, p: nat)
    requires d >= 1
    ensures d * p >= p
  {}

  lemma {:induction false} TrimRightKeeps(s: string)
    requires AreDigits(s)
    ensures var t := TrimRight(s);
            |t| <= |s| && AreDigits(t) && Value(s) == Value(t) * Pow10(|s| - |t|) && (t == "" || t[|t| - 1] != '0')
  {
    if s != "" && s[|s| - 1] == '0' {
      var s', t := s[..|s| - 1], TrimRight(s);
      TrimRightKeeps(s');
      ValueOfSame(s, s', |s'|);
      assert Value(s) == 10 * Value(s');
      TimesTen(Value(t), Pow10(|s'| - |t|));
    } else {
      assert Pow10(0) == 1;
    }
  }

  /** f/d, scaled by n, is an integer. */
  ghost predicate IsWhole(f: int, n: int, d: int) { exists k: int :: f * n == k * d }

  /** How many digits a fraction needs says how fine it is. */
  lemma FractionFits(s: string, n: nat)
    requires AreDigits(s)
    ensures |TrimRight(s)| <= n <==> IsWhole(Value(s), Pow10(n), Pow10(|s|))
  {
    var t := TrimRight(s);
    var a := |t|;
    TrimRightKeeps(s);
    PowAdds(|s| - a, a);
    if a <= n {
      PowAdds(a, n - a);
      Shift(Value(t), Pow10(|s| - a), Pow10(a), Pow10(n - a));
      assert Value(s) * Pow10(n) == (Value(t) * Pow10(n - a)) * Pow10(|s|);
    } else {
      if k: int :| Value(s) * Pow10(n) == k * Pow10(|s|) {
        PowAdds(n, a - n);
        Divides(Value(t), Pow10(|s| - a), Pow10(n), Pow10(a - n), k);
        assert Pow10(a - n) == 10 * Pow10(a - n - 1);
        LastDigit(t, k, Pow10(a - n - 1));
      }
    }
  }

  lemma Shift(v: int, x: int, a: int, b: int)
    ensures (v * x) * (a * b) == (v * b) * (x * a)
  {}

  lemma Divides(v: int, x: int, p: int, q: int, k: int)
    requires x > 0 && p > 0 && (v * x) * p == k * (x * (p * q))
    ensures v == k * q
  {
    var z := x * p;
    assert z > 0;
    assert v * z == (k * q) * z;
    CancelRight(v, k * q, z);
  }

  lemma CancelRight(a: int, b: int, z: int)
    requires z > 0 && a * z == b * z
    ensures a == b
  {
    assert (a - b) * z == 0;
    if a > b { AtLeast(a - b, z); }
    if a < b { AtLeast(b - a, z); }
  }

  lemma LastDigit(t: string, k: int, q: int)
    requires t != "" && AreDigits(t) && t[|t| - 1] != '0'
    ensures Value(t) != k * (10 * q)
  {
    TimesTen(k, q);
    assert Value(t) == 10 * ValueOf(t, |t| - 1) + DigitOf(t[|t| - 1]);
  }

  // ---- accepted exactly when the value fits ----

  lemma RealScaled(i: int, f: int, p: int, n: int, k: int)
    requires p > 0 && n > 0
    ensures (i as real + f as real / p as real) * n as real == k as real <==> f * n == (k - i * n) * p
  {
    var q := f as real / p as real;
    assert q * p as real == f as real;
    assert (i as real + q) * n as real == (i * n) as real + q * n as real;
    var x := q * n as real;
    assert x * p as real == (f * n) as real;
    if (i as real + q) * n as real == k as real {
      assert x == (k - i * n) as real;
    }
    if f * n == (k - i * n) * p {
      assert x * p as real == (k - i * n) as real * p as real;
      assert x == (k - i * n) as real;
    }
  }

  lemma RealBelow(i: nat, f: nat, p: nat, bound: nat)
    requires f < p
    ensures i as real + f as real / p as real < bound as real <==> i < bound
  {
    var q := f as real / p as real;
    assert 0.0 <= q < 1.0;
  }

  lemma IntegerIs(v: real, k: int)
    requires v == k as real
    ensures IsInteger(v) && v.Floor == k
  {}

  lemma Negated(v: real)
    ensures IsInteger(-v) <==> IsInteger(v)
  {
    if IsInteger(v) { IntegerIs(-v, -v.Floor); }
    if IsInteger(-v) { IntegerIs(v, -(-v).Floor); }
  }

  /** Scaled, i + f/d is an integer exactly when the fraction is. */
  lemma WholeIff(i: nat, f: nat, d: nat, n: nat)
    requires d > 0 && n > 0
    ensures IsInteger((i as real + f as real / d as real) * n as real) <==> IsWhole(f, n, d)
  {
    hide IsInteger;
    var v := (i as real + f as real / d as real) * n as real;
    if IsInteger(v) {
      RealScaled(i, f, d, n, FloorOf(v));
      assert f * n == (FloorOf(v) - i * n) * d;
    }
    if k: int :| f * n == k * d {
      var whole := k + i * n;
      RealScaled(i, f, d, n, whole);
      IntegerIs(v, whole);
    }
  }

  ghost function FloorOf(v: real): (k: int)
    ensures IsInteger(v) ==> v == k as real
  {
    v.Floor
  }

  lemma ScaledIff(p: Parts)
    requires AreDigits(p.fraction)
    ensures IsInteger(Exact(p) * Pow10(MAX_SCALE) as real) <==> |TrimRight(p.fraction)| <= MAX_SCALE
  {
    var i, f, d, n := Value(p.integer), Value(p.fraction), Pow10(|p.fraction|), Pow10(MAX_SCALE);
    hide IsInteger, IsWhole, Pow10, TrimRight, Value;
    FractionFits(p.fraction, MAX_SCALE);
    WholeIff(i, f, d, n);
    SignIsNothing(i as real + f as real / d as real, n as real);
  }

  lemma SignIsNothing(v: real, n: real)
    ensures IsInteger((-v) * n) <==> IsInteger(v * n)
  {
    hide IsInteger;
    Negated(v * n);
    assert (-v) * n == -(v * n);
  }

  lemma BoundIff(p: Parts)
    requires AreDigits(p.integer) && AreDigits(p.fraction)
    ensures Magnitude(Exact(p)) < Pow10(MAX_INTEGER_DIGITS) as real <==> |TrimLeft(p.integer)| <= MAX_INTEGER_DIGITS
  {
    hide Pow10, TrimLeft, Value, Magnitude, Exact;
    IntegerFits(p.integer, MAX_INTEGER_DIGITS);
    FractionBelow(p);
    RealBelow(Value(p.integer), Value(p.fraction), Pow10(|p.fraction|), Pow10(MAX_INTEGER_DIGITS));
    MagnitudeIs(p);
  }

  lemma FractionBelow(p: Parts)
    ensures Value(p.fraction) < Pow10(|p.fraction|)
  {
    ValueBelow(p.fraction, |p.fraction|);
  }

  lemma MagnitudeIs(p: Parts)
    ensures Magnitude(Exact(p)) == Value(p.integer) as real + Value(p.fraction) as real / Pow10(|p.fraction|) as real
  {
    assert Value(p.fraction) as real / Pow10(|p.fraction|) as real >= 0.0;
  }

  /**
   * A literal is taken exactly when it is plain decimal text for a value v with |v| < 10^28 and v * 10^10 an
   * integer: padding zeros do not count.
   */
  lemma DecimalAcceptedIff(s: string)
    ensures CheckDecimal(s) <==>
            exists p :: Spells(s, p) && Fits(Exact(p))
  {
    hide Spells, Fits, Parse, TrimLeft, TrimRight;
    if CheckDecimal(s) {
      var p := Parse(s).value;
      ParseIff(s, p);
      FitsIff(s, p);
    }
    if p :| Spells(s, p) && Fits(Exact(p)) {
      ParseIff(s, p);
      FitsIff(s, p);
    }
  }

  lemma FitsIff(s: string, p: Parts)
    requires Spells(s, p)
    ensures Fits(Exact(p)) <==> |TrimRight(p.fraction)| <= MAX_SCALE && |TrimLeft(p.integer)| <= MAX_INTEGER_DIGITS
  {
    hide Spells, Exact, IsInteger, TrimLeft, TrimRight, Magnitude;
    DigitsOf(s, p);
    ScaledIff(p);
    BoundIff(p);
  }

  lemma DigitsOf(s: string, p: Parts)
    requires Spells(s, p)
    ensures AreDigits(p.integer) && AreDigits(p.fraction)
  {}
}
