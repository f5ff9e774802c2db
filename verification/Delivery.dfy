/** Each arm of a fork delivers one token to its join, in every interleaving. */
module Delivery {
  import opened Topology
  import opened Layout
  import opened WellFormed
  import opened Placement
  import opened Structure
  import opened Tokens
  import opened Firing
  import opened TokenRuns
  import opened Forks
  import Arms

  /** How many tokens a node puts at an id when it fires. */
  function PutsAt(g: seq<Node>, u: Id, yes: bool, v: Id): nat
    requires u < |g|
  {
    multiset(Puts(g, u, yes))[v]
  }

  /** How many tokens the turns of a run from `from` up to n put at an id, of nodes lo to top-1. */
  function Delivered(g: seq<Node>, run: seq<Turn>, from: nat, n: nat, lo: Id, top: Id, v: Id): nat
    requires n <= |run|
  {
    if n <= from then 0
    else
      var t := run[n - 1];
      Delivered(g, run, from, n - 1, lo, top, v) + (if lo <= t.node < top && t.node < |g|
                                                    then PutsAt(g, t.node, t.yes, v) else 0)
  }

  /** The step of the fork at f, known to be entered at f alone. */
  ghost predicate Known(env: Env, g: seq<Node>, s: Step, f: Id, k: Id, j: Option<Id>) {
    s.Fork? && Placed(env, g, s, f, k, j) && EnteredAt(g, 0, |g|, f, f + Size(s, j.Some?), f)
  }

  function Lo(s: Step, f: Id, i: nat): Id
    requires s.Fork? && i <= |s.arms|
  {
    f + 2 + SizeBlocks(s.arms, i, true)
  }

  /** The tokens of a fork under way. */
  function Busy(s: Step, f: Id, m: Marking): nat
    requires s.Fork?
  {
    Tok(m, f + 1) + LoadBlocks(s.arms, |s.arms|, f + 2, true, m)
  }

  // ---- what one firing puts where ----

  lemma {:induction false} PutCount(m: Marking, ids: seq<Id>, n: nat, v: Id)
    requires n <= |ids| && v < |m|
    ensures Tok(PutFirst(m, ids, n), v) == Tok(m, v) + multiset(ids[..n])[v]
  {
    if n == 0 {
      assert ids[..0] == [];
    } else {
      PutCount(m, ids, n - 1, v);
      assert ids[..n] == ids[..n - 1] + [ids[n - 1]];
    }
  }

  lemma FireCount(g: seq<Node>, m: Marking, u: Id, yes: bool, v: Id)
    requires Enabled(g, m, u, yes) && v < |g| && v != u
    ensures Tok(Fire(g, m, u, yes), v) == Tok(m, v) + PutsAt(g, u, yes, v)
  {
    hide Puts, PutFirst;
    var puts := Puts(g, u, yes);
    PutCount(m[u := m[u] - Takes(g[u])], puts, |puts|, v);
    assert puts[..|puts|] == puts;
  }

  /** A token put inside a fork, past the fork's own node, comes from inside. */
  lemma PutsFromInside(env: Env, g: seq<Node>, s: Step, f: Id, k: Id, j: Option<Id>, u: Id, yes: bool, v: Id)
    requires Known(env, g, s, f, k, j) && u < |g| && f < v < f + Size(s, j.Some?) && v in Puts(g, u, yes)
    ensures f <= u < f + Size(s, j.Some?)
  {
    hide Fits, Size, Rank;
    var n := g[u];
    NoNextAtFork(env, g, s, f, k, j);
    if n.kind == DYN_FORK && !yes {
      var x, w := n.next.value, g[n.next.value].next.value;
      assert EdgeTo(g, w, v);
      assert EdgeTo(g, x, w);
      assert EdgeTo(g, u, x);
    } else {
      assert EdgeTo(g, u, v);
    }
  }

  /** A node outside a fork puts no token inside it but at the fork. */
  lemma NothingEnters(env: Env, g: seq<Node>, s: Step, f: Id, k: Id, j: Option<Id>, u: Id, yes: bool, v: Id)
    requires Known(env, g, s, f, k, j) && u < |g| && Away(u, f, f + Size(s, j.Some?)) && f < v < f + Size(s, j.Some?)
    ensures v !in Puts(g, u, yes)
  {
    hide Known, Puts, Size;
    if v in Puts(g, u, yes) { PutsFromInside(env, g, s, f, k, j, u, yes, v); }
  }

  lemma NoNextAtFork(env: Env, g: seq<Node>, s: Step, f: Id, k: Id, j: Option<Id>)
    requires Known(env, g, s, f, k, j)
    ensures f < |g| && g[f].next.None?
  {
    hide EmitBlocks;
    ForkParts(env, g, s, f, k, j);
  }

  /** A node outside a fork, and the fork's combine, leave the tokens of its join and its arms as they are. */
  lemma ForkUntouched(env: Env, g: seq<Node>, s: Step, f: Id, k: Id, j: Option<Id>, m: Marking, u: Id, yes: bool)
    requires Known(env, g, s, f, k, j) && Enabled(g, m, u, yes)
    requires var top := f + Size(s, j.Some?); Away(u, f, top) || u == top - 1
    ensures var m' := Fire(g, m, u, yes);
            && Busy(s, f, m') == Busy(s, f, m) && forall i :: 0 <= i < |s.arms| ==>
              ArmLoad(s, f, i, m') == ArmLoad(s, f, i, m)
  {
    hide EmitBlocks, Fire, Puts, LoadBlocks, LoadBlock, SizeBlocks, Takes, EnteredAt;
    var m', mid := Fire(g, m, u, yes), f + 2 + SizeBlocks(s.arms, |s.arms|, true);
    ForkParts(env, g, s, f, k, j);
    forall v: Id | f + 1 <= v < mid ensures Tok(m, v) == Tok(m', v) {
      FireCount(g, m, u, yes, v);
      if u == mid { CombinePuts(env, g, s, f, k, j, yes); } else { NothingEnters(env, g, s, f, k, j, u, yes, v); }
    }
    LoadBlocksSame(s.arms, |s.arms|, f + 2, true, m, m');
    forall i | 0 <= i < |s.arms| ensures ArmLoad(s, f, i, m') == ArmLoad(s, f, i, m) {
      SizeBlocksGrows(s.arms, i + 1, |s.arms|, true);
      ArmSame(s, f, i, m, m');
    }
  }

  lemma CombinePuts(env: Env, g: seq<Node>, s: Step, f: Id, k: Id, j: Option<Id>, yes: bool)
    requires Known(env, g, s, f, k, j)
    ensures var mid := f + Size(s, j.Some?) - 1; mid < |g| && Puts(g, mid, yes) == [k]
  {
    hide EmitBlocks, SizeBlocks;
    ForkParts(env, g, s, f, k, j);
  }

  lemma ArmSame(s: Step, f: Id, i: nat, a: Marking, b: Marking)
    requires s.Fork? && i < |s.arms| && SameOn(a, b, Lo(s, f, i), Lo(s, f, i + 1))
    ensures ArmLoad(s, f, i, a) == ArmLoad(s, f, i, b)
  {
    hide LoadSeq, SizeSeq;
    var steps := s.arms[i].steps;
    BlockWith(s.arms, i, true);
    LoadSeqSame(steps, |steps|, Lo(s, f, i), true, a, b);
  }

  /** A node of arm i fires: what the arm puts at the join it no longer holds. */
  lemma ArmFires(env: Env, g: seq<Node>, s: Step, f: Id, k: Id, j: Option<Id>, m: Marking, i: nat, u: Id, yes: bool)
    requires Known(env, g, s, f, k, j) && Enabled(g, m, u, yes) && i < |s.arms| && Lo(s, f, i) <= u < Lo(s, f, i + 1)
    requires Sound(s, f, j.Some?, m)
    ensures var m' := Fire(g, m, u, yes);
            && ArmLoad(s, f, i, m') + PutsAt(g, u, yes, f + 1) == ArmLoad(s, f, i, m)
            && Busy(s, f, m') == Busy(s, f, m)
            && forall x :: 0 <= x < |s.arms| && x != i ==> ArmLoad(s, f, x, m') == ArmLoad(s, f, x, m)
  {
    hide Fire, Puts, LoadBlock, LoadBlocks, SoundBlocks, Light, SizeBlocks, Sound, ArmLoad, Placed, EnteredAt, Put,
      Takes;
    var m' := Fire(g, m, u, yes);
    var out := ArmFiresTo(env, g, s, f, k, j, m, i, u, yes);
    FireCount(g, m, u, yes, f + 1);
    PutAt(m, f + 1);
    forall x | 0 <= x < |s.arms| && x != i ensures ArmLoad(s, f, x, m') == ArmLoad(s, f, x, m) {
      if x < i { SizeBlocksGrows(s.arms, x + 1, i, true); } else { SizeBlocksGrows(s.arms, i + 1, x, true); }
      ArmSame(s, f, x, m, m');
    }
    BusyStays(env, g, s, f, k, j, m, i, u, yes);
  }

  lemma ArmFiresTo(env: Env, g: seq<Node>, s: Step, f: Id, k: Id, j: Option<Id>, m: Marking, i: nat, u: Id, yes: bool)
    returns (out: Option<Id>)
    requires Known(env, g, s, f, k, j) && Enabled(g, m, u, yes) && i < |s.arms| && Lo(s, f, i) <= u < Lo(s, f, i + 1)
    requires Sound(s, f, j.Some?, m)
    ensures var m' := Fire(g, m, u, yes);
            && ArmLoad(s, f, i, m') + Count(out) == ArmLoad(s, f, i, m) && (out.Some? ==> out.value == f + 1)
            && Outside(Sent(m, out), m', Lo(s, f, i), Lo(s, f, i + 1))
    ensures u != f + 1 && f + 1 < |g|
  {
    hide Fire, Puts, LoadSeq, LoadBlocks, SoundSeq, SoundBlocks, Light, SizeBlocks, SizeSeq, Put, Takes, PlacedSeq,
      EnteredAt;
    var steps := s.arms[i].steps;
    ArmPlaced(env, g, s, f, k, j, i);
    PlacedFires(env, g, steps, Lo(s, f, i), f + 1, Some(f + 1));
    BlockWith(s.arms, i, true);
    BlockIsSound(s.arms, |s.arms|, i, f + 2, true, m);
    out := FireSeq(env, g, steps, |steps|, Lo(s, f, i), f + 1, f + 1, Some(f + 1), m, u, yes);
    InsideGraph(env, g, s, f, k, j);
  }

  lemma PlacedFires(env: Env, g: seq<Node>, steps: seq<Step>, c: Id, k: Id, j: Option<Id>)
    requires PlacedSeq(env, g, steps, c, k, j)
    ensures ShapeSeq(steps) && AtSeq(env, g, steps, c, k, j)
    ensures var hi := c + SizeSeq(steps, |steps|, j.Some?); Away(k, c, hi) && (j.Some? ==> Away(j.value, c, hi))
  {}

  lemma InsideGraph(env: Env, g: seq<Node>, s: Step, f: Id, k: Id, j: Option<Id>)
    requires Known(env, g, s, f, k, j)
    ensures f + 1 < f + Size(s, j.Some?) <= |g| && f + Size(s, j.Some?) == Lo(s, f, |s.arms|) + 1
  {}

  lemma BusyStays(env: Env, g: seq<Node>, s: Step, f: Id, k: Id, j: Option<Id>, m: Marking, i: nat, u: Id, yes: bool)
    requires Known(env, g, s, f, k, j) && Enabled(g, m, u, yes) && i < |s.arms| && Lo(s, f, i) <= u < Lo(s, f, i + 1)
    requires Sound(s, f, j.Some?, m)
    ensures Busy(s, f, Fire(g, m, u, yes)) == Busy(s, f, m)
  {
    hide EmitBlocks, Fire, LoadBlocks, SoundBlocks, Light, SizeBlocks, Put, Takes, EnteredAt, Rank, Onward;
    ForkParts(env, g, s, f, k, j);
    SizeBlocksGrows(s.arms, i + 1, |s.arms|, true);
    SizeBlocksGrows(s.arms, 0, i, true);
    var out := FireBlocks(env, g, s.arms, |s.arms|, f + 2, f + 1, Some(f + 1), m, u, yes);
    PutAt(m, f + 1);
  }

  // ---- between a fork and its join ----

  /** Any firing but the fork's and the join's keeps the fork busy, and an arm's delivery is what it held before. */
  lemma BetweenForkAndJoin(env: Env, g: seq<Node>, s: Step, f: Id, k: Id, j: Option<Id>, m: Marking, i: nat, u: Id,
                           yes: bool)
    requires Known(env, g, s, f, k, j) && Enabled(g, m, u, yes) && i < |s.arms| && u != f && u != f + 1
    requires Sound(s, f, j.Some?, m)
    ensures var m' := Fire(g, m, u, yes);
            var sent := if Lo(s, f, i) <= u < Lo(s, f, i + 1) then PutsAt(g, u, yes, f + 1) else 0;
            Busy(s, f, m') == Busy(s, f, m) && ArmLoad(s, f, i, m') + sent == ArmLoad(s, f, i, m)
  {
    hide Fire, Puts, ArmLoad, Sound, Placed, EnteredAt, Takes, SizeBlocks, Busy;
    var top := f + Size(s, j.Some?);
    InsideGraph(env, g, s, f, k, j);
    SizeBlocksGrows(s.arms, i + 1, |s.arms|, true);
    SizeBlocksGrows(s.arms, 0, i, true);
    if Away(u, f, top) || u == top - 1 {
      ForkUntouched(env, g, s, f, k, j, m, u, yes);
    } else {
      var x := ArmWithNode(s, f, u);
      ArmFires(env, g, s, f, k, j, m, x, u, yes);
      if x < i { SizeBlocksGrows(s.arms, x + 1, i, true); }
      if x > i { SizeBlocksGrows(s.arms, i + 1, x, true); }
    }
  }

  lemma ArmWithNode(s: Step, f: Id, u: Id) returns (x: nat)
    requires s.Fork? && f + 1 < u < Lo(s, f, |s.arms|)
    ensures x < |s.arms| && Lo(s, f, x) <= u < Lo(s, f, x + 1)
  {
    x := BlockAt(s.arms, |s.arms|, f + 2, true, u);
  }

  lemma {:induction false} RunPrefix(g: seq<Node>, start: Id, run: seq<Turn>, n: nat, m: nat)
    requires n <= m <= |run| && Run(g, start, run, m).Some?
    ensures Run(g, start, run, n).Some?
  {
    hide Enabled, Fire;
    if n < m { RunPrefix(g, start, run, n, m - 1); }
  }

  /** The marking before a turn of a run, the turn, and the marking after it, with the fork at f sound in it. */
  lemma TurnAt(env: Env, steps: seq<Step>, run: seq<Turn>, n: nat, x: nat, s: Step, f: Id, k: Id, j: Option<Id>)
    returns (m: Marking)
    requires steps != [] && ShapeSeq(steps) && x < n <= |run| &&
             Run(Program(env, steps), EntrySeq(steps, 0), run, n).Some?
    requires forall m: Marking ::
               |m| == |Program(env, steps)| && SoundSeq(steps, |steps|, 0, false, m) &&
                 LoadSeq(steps, |steps|, 0, false, m) <= 1 ==>
               Sound(s, f, j.Some?, m) && Load(s, f, j.Some?, m) <= 1
    ensures var g, start := Program(env, steps), EntrySeq(steps, 0);
            && Run(g, start, run, x) == Some(m) && Enabled(g, m, run[x].node, run[x].yes)
            && Run(g, start, run, x + 1) == Some(Fire(g, m, run[x].node, run[x].yes))
            && Sound(s, f, j.Some?, m) && Load(s, f, j.Some?, m) <= 1
  {
    hide Program, EntrySeq, Enabled, Fire, SoundSeq, LoadSeq, Sound, Load;
    var g, start := Program(env, steps), EntrySeq(steps, 0);
    RunPrefix(g, start, run, x + 1, n);
    m := Run(g, start, run, x).value;
    RunsAreBalanced(env, steps, run, x);
  }

  /** From when a fork fired until its join does, what arm i has delivered and what it still holds is one token. */
  lemma {:induction false} ArmHoldsOrDelivered(env: Env, steps: seq<Step>, run: seq<Turn>, p: nat, n: nat, s: Step,
                                               f: Id, k: Id,
                                               j: Option<Id>, i: nat)
    requires steps != [] && ShapeSeq(steps) && p < n <= |run| &&
             Run(Program(env, steps), EntrySeq(steps, 0), run, n).Some?
    requires Known(env, Program(env, steps), s, f, k, j) && i < |s.arms|
    requires forall m: Marking ::
               |m| == |Program(env, steps)| && SoundSeq(steps, |steps|, 0, false, m) &&
                 LoadSeq(steps, |steps|, 0, false, m) <= 1 ==>
               Sound(s, f, j.Some?, m) && Load(s, f, j.Some?, m) <= 1
    requires run[p].node == f && forall x :: p < x < n ==> run[x].node != f + 1
    ensures var g := Program(env, steps);
            var m := Run(g, EntrySeq(steps, 0), run, n).value;
            Busy(s, f, m) > 0 &&
              Delivered(g, run, p + 1, n, Lo(s, f, i), Lo(s, f, i + 1), f + 1) + ArmLoad(s, f, i, m) == 1
    decreases n
  {
    hide Program, EntrySeq, Enabled, Fire, SoundSeq, LoadSeq, Sound, Load, Placed, EnteredAt, ArmLoad, Run, PutsAt, Lo,
      Busy;
    var g := Program(env, steps);
    var m := TurnAt(env, steps, run, n, n - 1, s, f, k, j);
    var t := run[n - 1];
    if n == p + 1 {
      ForkGives(env, g, s, f, k, j, m, t.yes, i);
    } else {
      ArmHoldsOrDelivered(env, steps, run, p, n - 1, s, f, k, j, i);
      BusyForkWaits(s, f, j.Some?, m);
      TurnsInGraph(g, m, t);
      BetweenForkAndJoin(env, g, s, f, k, j, m, i, t.node, t.yes);
    }
  }

  lemma TurnsInGraph(g: seq<Node>, m: Marking, t: Turn)
    requires Enabled(g, m, t.node, t.yes)
    ensures t.node < |g| == |m| && m[t.node] > 0
  {}

  /** A fork whose arms are under way holds no token of its own. */
  lemma BusyForkWaits(s: Step, f: Id, inArm: bool, m: Marking)
    requires s.Fork? && Load(s, f, inArm, m) <= 1 && Busy(s, f, m) > 0
    ensures Tok(m, f) == 0
  {
    hide LoadBlocks, SizeBlocks;
  }

  lemma ForkGives(env: Env, g: seq<Node>, s: Step, f: Id, k: Id, j: Option<Id>, m: Marking, yes: bool, i: nat)
    requires Known(env, g, s, f, k, j) && Enabled(g, m, f, yes) && i < |s.arms|
    requires Sound(s, f, j.Some?, m) && Load(s, f, j.Some?, m) <= 1
    ensures var m' := Fire(g, m, f, yes); Busy(s, f, m') > 0 && ArmLoad(s, f, i, m') == 1
  {
    hide Fire, Sound, Load, LoadBlocks, LoadBlock, EnteredAt, Rank, Onward, At;
    FireForkNode(env, g, s, f, k, j, m, yes);
    var m' := Fire(g, m, f, yes);
    assert ArmLoad(s, f, i, m') == 1;
    BlockShare(s.arms, |s.arms|, i, f + 2, true, m');
  }

  /**
   * In every interleaving, from a firing of a FORK to the next firing of its JOIN, each arm, between its bounds in the
   * graph, puts exactly one token at that JOIN.
   */
  lemma EachArmDeliversOnce(env: Env, steps: seq<Step>, run: seq<Turn>, p: nat, q: nat) returns (bounds: seq<Id>)
    requires steps != [] && ShapeSeq(steps) && p < q < |run|
    requires Run(Program(env, steps), EntrySeq(steps, 0), run, |run|).Some?
    requires run[p].node < |Program(env, steps)| && Program(env, steps)[run[p].node].kind == FORK
    requires run[q].node == run[p].node + 1 && forall x :: p < x < q ==> run[x].node != run[p].node + 1
    ensures var g, f := Program(env, steps), run[p].node;
            && Arms.Bounds(g, f, bounds)
            && forall i :: 0 <= i < |g[f].branches| ==>
              Delivered(g, run, p + 1, q, bounds[i], bounds[i + 1], f + 1) == 1
  {
    hide Program, EntrySeq, Enabled, Fire, SoundSeq, LoadSeq, Sound, Load, Run, EnteredAt, Arms.Bounds, Fits, Delivered;
    var g, f := Program(env, steps), run[p].node;
    var s, k, j := FindFork(env, steps, f);
    bounds := Arms.ArmBounds(s.arms, f);
    Arms.ForkIsClosed(env, g, s, f, k, j);
    ForkBranches(env, g, s, f, k, j);
    RunPrefix(g, EntrySeq(steps, 0), run, q, |run|);
    forall i | 0 <= i < |s.arms| ensures Delivered(g, run, p + 1, q, bounds[i], bounds[i + 1], f + 1) == 1 {
      ArmHoldsOrDelivered(env, steps, run, p, q, s, f, k, j, i);
      var m := TurnAt(env, steps, run, |run|, q, s, f, k, j);
      JoinFindsNothing(env, g, s, f, k, j, m, run[q].yes, i);
    }
  }

  lemma ForkBranches(env: Env, g: seq<Node>, s: Step, f: Id, k: Id, j: Option<Id>)
    requires Known(env, g, s, f, k, j)
    ensures f < |g| && |g[f].branches| == |s.arms|
  {
    hide EmitBlocks;
    ForkParts(env, g, s, f, k, j);
  }

  lemma JoinFindsNothing(env: Env, g: seq<Node>, s: Step, f: Id, k: Id, j: Option<Id>, m: Marking, yes: bool, i: nat)
    requires Known(env, g, s, f, k, j) && Enabled(g, m, f + 1, yes) && i < |s.arms|
    requires Sound(s, f, j.Some?, m) && Load(s, f, j.Some?, m) <= 1
    ensures ArmLoad(s, f, i, m) == 0
  {
    hide Fire, Sound, Load, LoadBlocks, LoadBlock, Enabled, EnteredAt, Rank, Onward, At, ArmLoad;
    FireJoinNode(env, g, s, f, k, j, m, yes);
  }
}
