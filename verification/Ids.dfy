/** The text of node ids: a prefix without digits and a counter that only goes up, so no two nodes share one. */
module Ids {
  import opened Topology
  import opened Layout
  import opened Numerals

  function Prefix(k: Kind): string {
    match k
    case FORK => "fork"
    case SUB_WORKFLOW => "sub"
    case DYN_FORK => "dynfork"
    case JOIN => "join"
    case END => "end"
    case _ => "n"
  }

  /** What the node created as number `id`, counting from 0, is written under. */
  function Text(k: Kind, id: Id): string { Prefix(k) + Digits(id + 1) }

  lemma OneDigit(d: nat)
    requires d < 10
    ensures IsDigit(Digit(d)) && DigitOf(Digit(d)) == d
  {}

  /** Decimal digits read back as the number they were written for. */
  lemma {:induction false} DigitsRoundTrip(n: nat)
    ensures Digits(n) != [] && AreDigits(Digits(n)) && Value(Digits(n)) == n
    decreases n
  {
    hide Digit, DigitOf, IsDigit;
    var s := Digits(n);
    OneDigit(n % 10);
    if n < 10 {
      assert s == [Digit(n)] && ValueOf(s, 0) == 0;
    } else {
      DigitsRoundTrip(n / 10);
      ValueOfSame(Digits(n / 10), s, |s| - 1);
    }
  }

  lemma PrefixHasNoDigit(k: Kind)
    ensures var p := Prefix(k); forall i :: 0 <= i < |p| ==> !IsDigit(p[i])
  {}

  /** No node of a graph is taken for one created at run time, whose id starts with '~'. */
  lemma NotCreated(k: Kind, id: Id)
    ensures Text(k, id) != "" && Text(k, id)[0] != '~'
  {}

  /** Two nodes written under the same text are the same node. */
  lemma TextsAreDistinct(k1: Kind, id1: Id, k2: Kind, id2: Id)
    requires Text(k1, id1) == Text(k2, id2)
    ensures id1 == id2
  {
    hide Prefix, Digits;
    var p1, p2, d1, d2 := Prefix(k1), Prefix(k2), Digits(id1 + 1), Digits(id2 + 1);
    PrefixHasNoDigit(k1);
    PrefixHasNoDigit(k2);
    DigitsRoundTrip(id1 + 1);
    DigitsRoundTrip(id2 + 1);
    NotShorter(p1, d1, p2, d2);
    NotShorter(p2, d2, p1, d1);
    assert d1 == (p1 + d1)[|p1|..] == (p2 + d2)[|p2|..] == d2;
  }

  /** The digits of a text start where its prefix ends. */
  lemma NotShorter(p1: string, d1: string, p2: string, d2: string)
    requires p1 + d1 == p2 + d2 && d1 != [] && IsDigit(d1[0]) && forall i :: 0 <= i < |p2| ==> !IsDigit(p2[i])
    ensures |p1| >= |p2|
  {
    var t := p1 + d1;
    assert t[|p1|] == d1[0];
    assert forall i :: 0 <= i < |p2| ==> (p2 + d2)[i] == p2[i];
  }
}
