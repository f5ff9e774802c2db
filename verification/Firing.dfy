/**
 * One node fires. Whichever node of a step it is, and whatever answer it got, the tokens of every fork in the step
 * still add up, and the token that moved stays in the step or goes out to where the step goes on to, or to the join
 * around it when a gate stopped it. So the first steps of a sequence and the arms of a fork keep their sums too.
 */
module Firing {
  import opened Topology
  import opened Layout
  import opened WellFormed
  import opened Placement
  import opened Structure
  import opened Tokens

  ghost predicate Outside(a: Marking, b: Marking, lo: Id, hi: Id) {
    |a| == |b| && forall u: Id :: u < lo || hi <= u ==> Tok(a, u) == Tok(b, u)
  }

  ghost predicate Away(x: Id, lo: Id, hi: Id) { x < lo || hi <= x }

  function Sent(m: Marking, out: Option<Id>): Marking { if out.Some? then Put(m, out.value) else m }

  function Count(out: Option<Id>): nat { if out.Some? then 1 else 0 }

  ghost predicate CanFire(env: Env, g: seq<Node>, s: Step, c: Id, k: Id, j: Option<Id>, m: Marking, u: Id, yes: bool) {
    var hi := c + Size(s, j.Some?);
    && Shape(s) && At(env, g, s, c, k, j) && c <= u < hi && Enabled(g, m, u, yes)
    && Sound(s, c, j.Some?, m) && Load(s, c, j.Some?, m) <= 1
    && Away(k, c, hi) && (j.Some? ==> Away(j.value, c, hi))
  }

  /** Firing a node of a step keeps the step sound; a token either stays in the step or goes out to k or j. */
  ghost predicate FiresTo(s: Step, c: Id, k: Id, j: Option<Id>, m: Marking, m': Marking, out: Option<Id>) {
    && Sound(s, c, j.Some?, m') && Load(s, c, j.Some?, m') + Count(out) == Load(s, c, j.Some?, m)
    && (out.Some? ==> out.value == k || out == j)
    && Outside(Sent(m, out), m', c, c + Size(s, j.Some?))
  }

  function Take(m: Marking, u: Id): (r: Marking)
    requires u < |m| && m[u] > 0
    ensures |r| == |m|
  {
    m[u := m[u] - 1]
  }

  lemma {:induction false} SumTake(m: Marking, c: Id, n: nat, u: Id)
    requires c <= u < c + n && u < |m| && m[u] > 0
    ensures Sum(Take(m, u), c, n) + 1 == Sum(m, c, n)
  {
    if u == c + n - 1 { SumSame(m, Take(m, u), c, n - 1); } else { SumTake(m, c, n - 1, u); }
  }

  /** A node that passes one token on to one place. */
  lemma Passes(g: seq<Node>, m: Marking, u: Id, yes: bool, v: Id)
    requires Enabled(g, m, u, yes) && Takes(g[u]) == 1 && Puts(g, u, yes) == [v]
    ensures Fire(g, m, u, yes) == Put(Take(m, u), v)
  {
    assert PutFirst(Take(m, u), [v], 0) == Take(m, u);
  }

  /** A token moves from u in a range to v. */
  lemma SumMove(m: Marking, c: Id, n: nat, u: Id, v: Id)
    requires c <= u < c + n <= |m| && m[u] > 0
    ensures var m' := Put(Take(m, u), v);
            if Away(v, c, c + n) then Sum(m', c, n) + 1 == Sum(m, c, n) && Outside(Put(m, v), m', c, c + n)
            else Sum(m', c, n) == Sum(m, c, n) && Outside(m, m', c, c + n)
  {
    SumTake(m, c, n, u);
    if Away(v, c, c + n) {
      SumSame(Take(m, u), Put(Take(m, u), v), c, n);
    } else {
      SumPut(Take(m, u), c, n, v);
    }
  }

  lemma SimpleLoad(s: Step, c: Id, inArm: bool, m: Marking)
    requires s.Task? || s.Gate? || s.Sleep? || s.SubFlow?
    ensures Load(s, c, inArm, m) == Sum(m, c, Size(s, inArm)) && Sound(s, c, inArm, m)
  {
    assert Sum(m, c, 0) == 0;
  }

  /** In a step of plain nodes, a token moves to the next of them or out. */
  lemma FireSimple(s: Step, c: Id, k: Id, j: Option<Id>, m: Marking, m': Marking, u: Id, v: Id)
    returns (out: Option<Id>)
    requires s.Task? || s.Gate? || s.Sleep? || s.SubFlow?
    requires c <= u < c + Size(s, j.Some?) <= |m| && m[u] > 0 && m' == Put(Take(m, u), v)
    requires !Away(v, c, c + Size(s, j.Some?)) || v == k || j == Some(v)
    ensures FiresTo(s, c, k, j, m, m', out)
  {
    hide Load, Sound, Put, Take, Sum, Size;
    SimpleLoad(s, c, j.Some?, m);
    SimpleLoad(s, c, j.Some?, m');
    SumMove(m, c, Size(s, j.Some?), u, v);
    out := if Away(v, c, c + Size(s, j.Some?)) then Some(v) else None;
  }

  lemma FireTask(env: Env, g: seq<Node>, s: Step, c: Id, k: Id, j: Option<Id>, m: Marking, u: Id, yes: bool)
    returns (out: Option<Id>)
    requires s.Task? && CanFire(env, g, s, c, k, j, m, u, yes)
    ensures FiresTo(s, c, k, j, m, Fire(g, m, u, yes), out)
  {
    hide Emit, Load, Sound, FiresTo, Fire;
    TaskParts(env, g, s, c, k, j);
    var v := if u == c + Size(s, j.Some?) - 1 then k else u + 1;
    Passes(g, m, u, yes, v);
    out := FireSimple(s, c, k, j, m, Fire(g, m, u, yes), u, v);
  }

  lemma FireGate(env: Env, g: seq<Node>, s: Step, c: Id, k: Id, j: Option<Id>, m: Marking, u: Id, yes: bool)
    returns (out: Option<Id>)
    requires s.Gate? && CanFire(env, g, s, c, k, j, m, u, yes)
    ensures FiresTo(s, c, k, j, m, Fire(g, m, u, yes), out)
  {
    hide Emit, Load, Sound, FiresTo, Fire;
    GateParts(env, g, s, c, k, j);
    var v := if yes then k else if j.Some? then j.value else c + 1;
    Passes(g, m, u, yes, v);
    out := FireSimple(s, c, k, j, m, Fire(g, m, u, yes), u, v);
  }

  lemma FirePlain(env: Env, g: seq<Node>, s: Step, c: Id, k: Id, j: Option<Id>, m: Marking, u: Id, yes: bool)
    returns (out: Option<Id>)
    requires (s.Sleep? || s.SubFlow?) && CanFire(env, g, s, c, k, j, m, u, yes)
    ensures FiresTo(s, c, k, j, m, Fire(g, m, u, yes), out)
  {
    hide Emit, Load, Sound, FiresTo, Fire;
    PlainParts(env, g, s, c, k, j);
    Passes(g, m, u, yes, k);
    out := FireSimple(s, c, k, j, m, Fire(g, m, u, yes), u, k);
  }

  /** What a token does to ids away from it. */
  lemma Moved(m: Marking, u: Id, v: Id)
    requires u < |m| && m[u] > 0
    ensures var m' := Put(Take(m, u), v);
            && (forall x: Id :: x != u && x != v ==> Tok(m', x) == Tok(m, x))
            && (forall x: Id :: x != u ==> Tok(Take(m, u), x) == Tok(m, x))
            && Tok(Take(m, u), u) + 1 == Tok(m, u)
            && (v != u ==> Tok(m', u) + 1 == Tok(m, u) && Tok(m', v) == (if v < |m| then Tok(m, v) + 1 else 0))
            && (forall x: Id :: x != u ==> Tok(Put(m, v), x) == Tok(m', x))
  {}

  lemma {:induction false} FireSignal(env: Env, g: seq<Node>, s: Step, c: Id, k: Id, j: Option<Id>, m: Marking, u: Id,
                                      yes: bool)
    returns (out: Option<Id>)
    requires s.Signal? && CanFire(env, g, s, c, k, j, m, u, yes)
    ensures FiresTo(s, c, k, j, m, Fire(g, m, u, yes), out)
    decreases s, 0
  {
    hide Emit, EmitSeq, EntrySeq, Put, Take, Fire, LoadSeq, SoundSeq;
    SignalParts(env, g, s, c, k, j);
    if u == c {
      out := FireSignalNode(env, g, s, c, k, j, m, yes);
    } else {
      out := FireSeq(env, g, s.escalation, |s.escalation|, c + 1, k, k, j, m, u, yes);
      SentElsewhere(m, out, k, j, c, c + 1);
    }
  }

  lemma FireSignalNode(env: Env, g: seq<Node>, s: Step, c: Id, k: Id, j: Option<Id>, m: Marking, yes: bool)
    returns (out: Option<Id>)
    requires s.Signal? && CanFire(env, g, s, c, k, j, m, c, yes)
    ensures FiresTo(s, c, k, j, m, Fire(g, m, c, yes), out)
  {
    hide Emit, EmitSeq, EntrySeq, Put, Take, Fire, LoadSeq, SoundSeq;
    SignalParts(env, g, s, c, k, j);
    var esc, inArm := s.escalation, j.Some?;
    var v := if yes then k else EntrySeq(esc, c + 1);
    Passes(g, m, c, yes, v);
    Moved(m, c, v);
    LoadSeqSame(esc, |esc|, c + 1, inArm, m, Take(m, c));
    if yes {
      LoadSeqSame(esc, |esc|, c + 1, inArm, m, Put(Take(m, c), k));
      out := Some(k);
    } else {
      EntrySeqIsStep(env, g, esc, c + 1, k, j);
      EnterSeq(env, g, esc, c + 1, k, j, Take(m, c));
      out := None;
    }
  }

  /** What FiresTo says of a step, said of the first n steps of a sequence. */
  ghost predicate SeqFiresTo(steps: seq<Step>, n: nat, c: Id, k: Id, j: Option<Id>, m: Marking, m': Marking,
                             out: Option<Id>)
    requires n <= |steps|
  {
    && SoundSeq(steps, n, c, j.Some?, m')
    && LoadSeq(steps, n, c, j.Some?, m') + Count(out) == LoadSeq(steps, n, c, j.Some?, m)
    && (out.Some? ==> out.value == k || out == j)
    && Outside(Sent(m, out), m', c, c + SizeSeq(steps, n, j.Some?))
  }

  lemma {:induction false} FireSeq(env: Env, g: seq<Node>, steps: seq<Step>, n: nat, c: Id, k: Id, kn: Id,
                                   j: Option<Id>,
                                   m: Marking, u: Id, yes: bool)
    returns (out: Option<Id>)
    requires n <= |steps| && ShapeSeq(steps) && AtSeq(env, g, steps, c, k, j)
    requires c <= u < c + SizeSeq(steps, n, j.Some?) && Enabled(g, m, u, yes)
    requires SoundSeq(steps, n, c, j.Some?, m) && LoadSeq(steps, n, c, j.Some?, m) <= 1
    requires kn == (if n < |steps| then Entry(steps[n], c + SizeSeq(steps, n, j.Some?)) else k)
    requires var hi := c + SizeSeq(steps, |steps|, j.Some?); Away(k, c, hi) && (j.Some? ==> Away(j.value, c, hi))
    ensures SeqFiresTo(steps, n, c, kn, j, m, Fire(g, m, u, yes), out)
    decreases steps, n
  {
    hide Emit, EmitSeq, Entry, Size, Put, Fire, Load, Sound, FiresTo;
    var s, ci, m' := steps[n - 1], c + SizeSeq(steps, n - 1, j.Some?), Fire(g, m, u, yes);
    StepOf(env, g, steps, n - 1, c, k, j);
    SizeGrows(steps, n, |steps|, j.Some?);
    if n < |steps| { NextEntry(env, g, steps, n, c, k, j); }
    if u >= ci {
      out := FireStep(env, g, s, ci, kn, j, m, u, yes);
      SeqFiresLast(steps, n, c, kn, j, m, m', out);
    } else {
      EntryIsStep(env, g, s, ci, kn, j);
      var sent := FireSeq(env, g, steps, n - 1, c, k, Entry(s, ci), j, m, u, yes);
      out := SeqFiresOn(env, g, steps, n, c, kn, j, m, m', sent);
    }
  }

  /** A node of the last step fired. */
  lemma SeqFiresLast(steps: seq<Step>, n: nat, c: Id, k: Id, j: Option<Id>, m: Marking, m': Marking, out: Option<Id>)
    requires 0 < n <= |steps| && SoundSeq(steps, n, c, j.Some?, m)
    requires FiresTo(steps[n - 1], c + SizeSeq(steps, n - 1, j.Some?), k, j, m, m', out)
    requires var hi := c + SizeSeq(steps, n, j.Some?); Away(k, c, hi) && (j.Some? ==> Away(j.value, c, hi))
    ensures SeqFiresTo(steps, n, c, k, j, m, m', out)
  {
    hide Size, Put, Load, Sound;
    SentElsewhere(m, out, k, j, c, c + SizeSeq(steps, n, j.Some?));
    LoadSeqSame(steps, n - 1, c, j.Some?, m, m');
  }

  /** A node of an earlier step fired: the token may have entered the last step. */
  lemma SeqFiresOn(env: Env, g: seq<Node>, steps: seq<Step>, n: nat, c: Id, k: Id, j: Option<Id>, m: Marking,
                   m': Marking,
                   sent: Option<Id>) returns (out: Option<Id>)
    requires 0 < n <= |steps| && SoundSeq(steps, n, c, j.Some?, m) && LoadSeq(steps, n, c, j.Some?, m) <= 1 &&
             |m| == |g|
    requires var s, ci := steps[n - 1], c + SizeSeq(steps, n - 1, j.Some?);
             && Shape(s) && At(env, g, s, ci, k, j)
             && ci <= Entry(s, ci) < c + SizeSeq(steps, n, j.Some?)
             && SeqFiresTo(steps, n - 1, c, Entry(s, ci), j, m, m', sent)
    requires j.Some? ==> Away(j.value, c, c + SizeSeq(steps, n, j.Some?))
    ensures SeqFiresTo(steps, n, c, k, j, m, m', out)
  {
    hide Emit, Entry, Size, Put, Load, Sound;
    var s, ci, inArm := steps[n - 1], c + SizeSeq(steps, n - 1, j.Some?), j.Some?;
    if sent == Some(Entry(s, ci)) {
      EnterStep(env, g, s, ci, k, j, m);
      LoadSame(s, ci, inArm, Put(m, Entry(s, ci)), m');
      PutElsewhere(m, Entry(s, ci));
      out := None;
    } else {
      if sent.Some? { PutElsewhere(m, sent.value); }
      LoadSame(s, ci, inArm, m, m');
      out := sent;
    }
  }

  lemma SentElsewhere(m: Marking, out: Option<Id>, k: Id, j: Option<Id>, lo: Id, hi: Id)
    requires out.Some? ==> out.value == k || out == j
    requires Away(k, lo, hi) && (j.Some? ==> Away(j.value, lo, hi))
    ensures SameOn(m, Sent(m, out), lo, hi)
  {}

  /** What FiresTo says of a step, said of the first n blocks of a fork or a choice. */
  ghost predicate BlocksFireTo(blocks: seq<Block>, n: nat, c: Id, k: Id, j: Option<Id>, m: Marking, m': Marking,
                               out: Option<Id>)
    requires n <= |blocks|
  {
    && SoundBlocks(blocks, n, c, j.Some?, m') && Light(blocks, n, c, j.Some?, m')
    && LoadBlocks(blocks, n, c, j.Some?, m') + Count(out) == LoadBlocks(blocks, n, c, j.Some?, m)
    && (out.Some? ==> out.value == k || out == j)
    && Outside(Sent(m, out), m', c, c + SizeBlocks(blocks, n, j.Some?))
  }

  lemma {:induction false} FireBlocks(env: Env, g: seq<Node>, blocks: seq<Block>, n: nat, c: Id, k: Id, j: Option<Id>,
                                      m: Marking, u: Id, yes: bool)
    returns (out: Option<Id>)
    requires n <= |blocks| && ShapeBlocks(blocks) && Has(g, c, EmitBlocks(env, blocks, |blocks|, c, Some(k), j))
    requires c <= u < c + SizeBlocks(blocks, n, j.Some?) && Enabled(g, m, u, yes)
    requires SoundBlocks(blocks, n, c, j.Some?, m) && Light(blocks, n, c, j.Some?, m)
    requires var hi := c + SizeBlocks(blocks, |blocks|, j.Some?); Away(k, c, hi) && (j.Some? ==> Away(j.value, c, hi))
    ensures BlocksFireTo(blocks, n, c, k, j, m, Fire(g, m, u, yes), out)
    decreases blocks, n
  {
    hide Emit, EmitSeq, EmitBlocks, SizeSeq, Put, Fire, LoadSeq, SoundSeq, BlocksFireTo;
    var steps, ci, m' := blocks[n - 1].steps, c + SizeBlocks(blocks, n - 1, j.Some?), Fire(g, m, u, yes);
    SizeBlocksGrows(blocks, n, |blocks|, j.Some?);
    if u >= ci {
      BlockPart(env, g, blocks, |blocks|, n - 1, c, k, j);
      out := FireSeq(env, g, steps, |steps|, ci, k, k, j, m, u, yes);
      BlocksFireLast(blocks, n, c, k, j, m, m', out);
    } else {
      out := FireBlocks(env, g, blocks, n - 1, c, k, j, m, u, yes);
      BlocksFireEarlier(blocks, n, c, k, j, m, m', out);
    }
  }

  lemma BlocksFireLast(blocks: seq<Block>, n: nat, c: Id, k: Id, j: Option<Id>, m: Marking, m': Marking,
                       out: Option<Id>)
    requires 0 < n <= |blocks| && SoundBlocks(blocks, n, c, j.Some?, m) && Light(blocks, n, c, j.Some?, m)
    requires var steps := blocks[n - 1].steps;
             SeqFiresTo(steps, |steps|, c + SizeBlocks(blocks, n - 1, j.Some?), k, j, m, m', out)
    requires var hi := c + SizeBlocks(blocks, n, j.Some?); Away(k, c, hi) && (j.Some? ==> Away(j.value, c, hi))
    ensures BlocksFireTo(blocks, n, c, k, j, m, m', out)
  {
    hide SizeSeq, Put, LoadSeq, SoundSeq;
    SentElsewhere(m, out, k, j, c, c + SizeBlocks(blocks, n, j.Some?));
    LoadBlocksSame(blocks, n - 1, c, j.Some?, m, m');
    assert Outside(Sent(m, out), m', c, c + SizeBlocks(blocks, n, j.Some?));
    assert LoadBlock(blocks, n - 1, c, j.Some?, m') + Count(out) == LoadBlock(blocks, n - 1, c, j.Some?, m);
    assert Light(blocks, n, c, j.Some?, m');
    assert SoundBlocks(blocks, n, c, j.Some?, m');
    assert LoadBlocks(blocks, n, c, j.Some?, m') + Count(out) == LoadBlocks(blocks, n, c, j.Some?, m);
  }

  lemma BlocksFireEarlier(blocks: seq<Block>, n: nat, c: Id, k: Id, j: Option<Id>, m: Marking, m': Marking,
                          out: Option<Id>)
    requires 0 < n <= |blocks| && SoundBlocks(blocks, n, c, j.Some?, m) && Light(blocks, n, c, j.Some?, m)
    requires BlocksFireTo(blocks, n - 1, c, k, j, m, m', out)
    requires var hi := c + SizeBlocks(blocks, n, j.Some?); Away(k, c, hi) && (j.Some? ==> Away(j.value, c, hi))
    ensures BlocksFireTo(blocks, n, c, k, j, m, m', out)
  {
    hide SizeSeq, Put, LoadSeq, SoundSeq;
    var steps, ci, hi := blocks[n - 1].steps, c + SizeBlocks(blocks, n - 1, j.Some?),
      c + SizeBlocks(blocks, n, j.Some?);
    SentElsewhere(m, out, k, j, c, hi);
    LoadSeqSame(steps, |steps|, ci, j.Some?, m, m');
    assert Outside(Sent(m, out), m', c, hi);
    assert LoadBlock(blocks, n - 1, c, j.Some?, m') == LoadBlock(blocks, n - 1, c, j.Some?, m);
    assert Light(blocks, n, c, j.Some?, m');
    assert SoundBlocks(blocks, n, c, j.Some?, m');
    assert LoadBlocks(blocks, n, c, j.Some?, m') + Count(out) == LoadBlocks(blocks, n, c, j.Some?, m);
  }

  lemma {:induction false} PutFirstOutside(m: Marking, ids: seq<Id>, n: nat, lo: Id, hi: Id)
    requires n <= |ids| && forall i :: 0 <= i < n ==> lo <= ids[i] < hi
    ensures Outside(m, PutFirst(m, ids, n), lo, hi)
  {
    if n > 0 { PutFirstOutside(m, ids, n - 1, lo, hi); }
  }

  lemma ForkStarts(env: Env, g: seq<Node>, arms: seq<Block>, c: Id, join: Id)
    requires ShapeBlocks(arms) && Has(g, c, EmitBlocks(env, arms, |arms|, c, Some(join), Some(join)))
    ensures var ids := Starts(arms, |arms|, c, true);
            forall i :: 0 <= i < |ids| ==> c <= ids[i] < c + SizeBlocks(arms, |arms|, true)
  {
    hide EmitBlocks, SizeBlocks, BlockStart;
    forall i | 0 <= i < |arms| ensures c <= BlockStart(arms, i, c, true) < c + SizeBlocks(arms, |arms|, true) {
      BlockEntry(env, g, arms, i, c, join, Some(join));
      SizeBlocksGrows(arms, i + 1, |arms|, true);
    }
  }

  /** As many tokens as blocks, and none with more than one: one in each. */
  lemma {:induction false} OneInEach(blocks: seq<Block>, n: nat, c: Id, inArm: bool, m: Marking)
    requires n <= |blocks| && Light(blocks, n, c, inArm, m)
    ensures LoadBlocks(blocks, n, c, inArm, m) <= n
    ensures LoadBlocks(blocks, n, c, inArm, m) == n ==> forall i :: 0 <= i < n ==>
            LoadBlock(blocks, i, c, inArm, m) == 1
    decreases n
  {
    hide LoadBlock;
    if n > 0 { OneInEach(blocks, n - 1, c, inArm, m); }
  }

  lemma NoneInAny(blocks: seq<Block>, c: Id, inArm: bool, m: Marking)
    requires LoadBlocks(blocks, |blocks|, c, inArm, m) == 0
    ensures forall i :: 0 <= i < |blocks| ==> LoadBlock(blocks, i, c, inArm, m) == 0
  {
    hide LoadBlock, LoadBlocks;
    forall i | 0 <= i < |blocks| ensures LoadBlock(blocks, i, c, inArm, m) == 0 {
      BlockShare(blocks, |blocks|, i, c, inArm, m);
    }
  }

  /** How many tokens arm i of a fork laid out from id c holds. */
  function ArmLoad(s: Step, c: Id, i: nat, m: Marking): nat
    requires s.Fork? && i < |s.arms|
  {
    LoadBlock(s.arms, i, c + 2, true, m)
  }

  /** So many tokens wait at the join of a fork, and so many are in each of its arms. */
  ghost predicate ArmsHold(s: Step, c: Id, m: Marking, atJoin: nat, each: nat)
    requires s.Fork?
  {
    Tok(m, c + 1) == atJoin && forall i :: 0 <= i < |s.arms| ==> ArmLoad(s, c, i, m) == each
  }

  /** The FORK itself: every arm gets its one token, and its join has none. */
  lemma FireForkNode(env: Env, g: seq<Node>, s: Step, c: Id, k: Id, j: Option<Id>, m: Marking, yes: bool)
    requires s.Fork? && CanFire(env, g, s, c, k, j, m, c, yes)
    ensures FiresTo(s, c, k, j, m, Fire(g, m, c, yes), None)
    ensures ArmsHold(s, c, Fire(g, m, c, yes), 0, 1)
  {
    hide Emit, EmitBlocks, SizeBlocks, BlockStart, Put, PutFirst, LoadBlocks, LoadBlock, SoundBlocks, Light;
    var arms, t := s.arms, Take(m, c);
    ForkParts(env, g, s, c, k, j);
    LoadBlocksSame(arms, |arms|, c + 2, true, m, t);
    EnterAll(env, g, arms, |arms|, c + 2, c + 1, t);
    ForkStarts(env, g, arms, c + 2, c + 1);
    PutFirstOutside(t, Starts(arms, |arms|, c + 2, true), |arms|, c + 2, c + 2 + SizeBlocks(arms, |arms|, true));
    OneInEach(arms, |arms|, c + 2, true, Fire(g, m, c, yes));
  }

  /** The JOIN: it takes what every arm delivered, so the arms are empty again. */
  lemma FireJoinNode(env: Env, g: seq<Node>, s: Step, c: Id, k: Id, j: Option<Id>, m: Marking, yes: bool)
    requires s.Fork? && CanFire(env, g, s, c, k, j, m, c + 1, yes)
    ensures FiresTo(s, c, k, j, m, Fire(g, m, c + 1, yes), None)
    ensures ArmsHold(s, c, m, |s.arms|, 0) && ArmsHold(s, c, Fire(g, m, c + 1, yes), 0, 0)
  {
    hide Emit, EmitBlocks, SizeBlocks, LoadBlocks, LoadBlock, SoundBlocks, Light;
    var arms, mid := s.arms, c + 2 + SizeBlocks(s.arms, |s.arms|, true);
    ForkParts(env, g, s, c, k, j);
    var t := m[c + 1 := m[c + 1] - |arms|];
    var m' := Fire(g, m, c + 1, yes);
    assert PutFirst(t, [mid], 0) == t;
    assert m' == Put(t, mid);
    LoadBlocksSame(arms, |arms|, c + 2, true, m, m');
    NoneInAny(arms, c + 2, true, m);
    NoneInAny(arms, c + 2, true, m');
  }

  lemma FireForkMerge(env: Env, g: seq<Node>, s: Step, c: Id, k: Id, j: Option<Id>, m: Marking, yes: bool)
    requires s.Fork? && CanFire(env, g, s, c, k, j, m, c + 2 + SizeBlocks(s.arms, |s.arms|, true), yes)
    ensures FiresTo(s, c, k, j, m, Fire(g, m, c + 2 + SizeBlocks(s.arms, |s.arms|, true), yes), Some(k))
  {
    hide Emit, EmitBlocks, SizeBlocks, LoadBlocks, SoundBlocks, Light, Fire, Put, Take;
    var arms, mid := s.arms, c + 2 + SizeBlocks(s.arms, |s.arms|, true);
    ForkParts(env, g, s, c, k, j);
    Passes(g, m, mid, yes, k);
    Moved(m, mid, k);
    LoadBlocksSame(arms, |arms|, c + 2, true, m, Fire(g, m, mid, yes));
  }

  lemma {:induction false} FireFork(env: Env, g: seq<Node>, s: Step, c: Id, k: Id, j: Option<Id>, m: Marking, u: Id,
                                    yes: bool)
    returns (out: Option<Id>)
    requires s.Fork? && CanFire(env, g, s, c, k, j, m, u, yes)
    ensures FiresTo(s, c, k, j, m, Fire(g, m, u, yes), out)
    decreases s, 0
  {
    hide Emit, EmitBlocks, SizeBlocks, LoadBlocks, SoundBlocks, Light, Fire, Put, Take;
    var arms, mid := s.arms, c + 2 + SizeBlocks(s.arms, |s.arms|, true);
    ForkParts(env, g, s, c, k, j);
    out := None;
    if u == c {
      FireForkNode(env, g, s, c, k, j, m, yes);
    } else if u == c + 1 {
      FireJoinNode(env, g, s, c, k, j, m, yes);
    } else if u == mid {
      FireForkMerge(env, g, s, c, k, j, m, yes);
      out := Some(k);
    } else {
      var sent := FireBlocks(env, g, arms, |arms|, c + 2, c + 1, Some(c + 1), m, u, yes);
      PutAt(m, c + 1);
    }
  }

  lemma PutAt(m: Marking, u: Id)
    requires u < |m|
    ensures Tok(Put(m, u), u) == Tok(m, u) + 1 && forall v: Id :: v != u ==> Tok(Put(m, u), v) == Tok(m, v)
  {}

  /** The forEach takes an item, or there is none to take. */
  lemma FireDynFork(env: Env, g: seq<Node>, s: Step, c: Id, k: Id, j: Option<Id>, m: Marking, yes: bool)
    returns (out: Option<Id>)
    requires s.ForEach? && CanFire(env, g, s, c, k, j, m, c, yes)
    ensures FiresTo(s, c, k, j, m, Fire(g, m, c, yes), out)
  {
    hide Emit, EmitSeq, SizeSeq, EntrySeq, LoadSeq, SoundSeq, Fire, Put, Take, Sum;
    var body := s.body;
    ForEachParts(env, g, s, c, k, j);
    EntrySeqIsStep(env, g, body, c + 2, c + 1, Some(c + 1));
    var v := if yes then EntrySeq(body, c + 2) else k;
    Passes(g, m, c, yes, v);
    Moved(m, c, v);
    TwoSums(m, c);
    TwoSums(Fire(g, m, c, yes), c);
    LoadSeqSame(body, |body|, c + 2, true, m, Take(m, c));
    if yes {
      EnterSeq(env, g, body, c + 2, c + 1, Some(c + 1), Take(m, c));
      out := None;
    } else {
      LoadSeqSame(body, |body|, c + 2, true, m, Fire(g, m, c, yes));
      out := Some(k);
    }
  }

  /** Its join and its merge pass the token on. */
  lemma FireDynJoin(env: Env, g: seq<Node>, s: Step, c: Id, k: Id, j: Option<Id>, m: Marking, u: Id, yes: bool)
    returns (out: Option<Id>)
    requires s.ForEach? && CanFire(env, g, s, c, k, j, m, u, yes)
    requires u == c + 1 || u == c + 2 + SizeSeq(s.body, |s.body|, true)
    ensures FiresTo(s, c, k, j, m, Fire(g, m, u, yes), out)
  {
    hide Emit, EmitSeq, SizeSeq, EntrySeq, LoadSeq, SoundSeq, Fire, Put, Take, Sum;
    var body, mid := s.body, c + 2 + SizeSeq(s.body, |s.body|, true);
    ForEachParts(env, g, s, c, k, j);
    var v := if u == c + 1 then mid else k;
    Passes(g, m, u, yes, v);
    Moved(m, u, v);
    TwoSums(m, c);
    TwoSums(Fire(g, m, u, yes), c);
    LoadSeqSame(body, |body|, c + 2, true, m, Fire(g, m, u, yes));
    out := if u == c + 1 then None else Some(k);
  }

  lemma TwoSums(m: Marking, c: Id)
    ensures Sum(m, c, 2) == Tok(m, c) + Tok(m, c + 1)
  {
    assert Sum(m, c, 1) == Tok(m, c) + Sum(m, c, 0);
  }

  lemma {:induction false} FireForEach(env: Env, g: seq<Node>, s: Step, c: Id, k: Id, j: Option<Id>, m: Marking, u: Id,
                                       yes: bool)
    returns (out: Option<Id>)
    requires s.ForEach? && CanFire(env, g, s, c, k, j, m, u, yes)
    ensures FiresTo(s, c, k, j, m, Fire(g, m, u, yes), out)
    decreases s, 0
  {
    hide Emit, EmitSeq, SizeSeq, LoadSeq, SoundSeq, Fire, Put, Take, Sum;
    var body, mid := s.body, c + 2 + SizeSeq(s.body, |s.body|, true);
    ForEachParts(env, g, s, c, k, j);
    if u == c {
      out := FireDynFork(env, g, s, c, k, j, m, yes);
    } else if u == c + 1 || u == mid {
      out := FireDynJoin(env, g, s, c, k, j, m, u, yes);
    } else {
      var sent := FireSeq(env, g, body, |body|, c + 2, c + 1, c + 1, Some(c + 1), m, u, yes);
      PutAt(m, c + 1);
      TwoSums(m, c);
      TwoSums(Fire(g, m, u, yes), c);
      out := None;
    }
  }

  /** The condition of a loop sends the token back to the body, or past the loop. */
  lemma FireCondition(env: Env, g: seq<Node>, s: Step, c: Id, k: Id, j: Option<Id>, m: Marking, yes: bool)
    returns (out: Option<Id>)
    requires s.Loop? && CanFire(env, g, s, c, k, j, m, c + SizeSeq(s.body, |s.body|, j.Some?), yes)
    ensures FiresTo(s, c, k, j, m, Fire(g, m, c + SizeSeq(s.body, |s.body|, j.Some?), yes), out)
  {
    hide Emit, EmitSeq, SizeSeq, EntrySeq, LoadSeq, SoundSeq, Fire, Put, Take;
    var body, mid, inArm := s.body, c + SizeSeq(s.body, |s.body|, j.Some?), j.Some?;
    LoopParts(env, g, s, c, k, j);
    var v := if yes then EntrySeq(body, c) else k;
    EntrySeqIsStep(env, g, body, c, mid, j);
    Passes(g, m, mid, yes, v);
    Moved(m, mid, v);
    LoadSeqSame(body, |body|, c, inArm, m, Take(m, mid));
    if yes {
      EnterSeq(env, g, body, c, mid, j, Take(m, mid));
      out := None;
    } else {
      LoadSeqSame(body, |body|, c, inArm, m, Fire(g, m, mid, yes));
      out := Some(k);
    }
  }

  lemma {:induction false} FireLoop(env: Env, g: seq<Node>, s: Step, c: Id, k: Id, j: Option<Id>, m: Marking, u: Id,
                                    yes: bool)
    returns (out: Option<Id>)
    requires s.Loop? && CanFire(env, g, s, c, k, j, m, u, yes)
    ensures FiresTo(s, c, k, j, m, Fire(g, m, u, yes), out)
    decreases s, 0
  {
    hide Emit, EmitSeq, SizeSeq, EntrySeq, LoadSeq, SoundSeq, Fire, Put, Take;
    var body, mid := s.body, c + SizeSeq(s.body, |s.body|, j.Some?);
    LoopParts(env, g, s, c, k, j);
    if u == mid {
      out := FireCondition(env, g, s, c, k, j, m, yes);
    } else {
      var sent := FireSeq(env, g, body, |body|, c, mid, mid, j, m, u, yes);
      PutAt(m, mid);
      if sent.Some? { PutElsewhere(m, sent.value); }
      out := if sent == Some(mid) then None else sent;
    }
  }

  lemma {:induction false} FireChoose(env: Env, g: seq<Node>, s: Step, c: Id, k: Id, j: Option<Id>, m: Marking, u: Id,
                                      yes: bool)
    returns (out: Option<Id>)
    requires s.Choose? && CanFire(env, g, s, c, k, j, m, u, yes)
    ensures FiresTo(s, c, k, j, m, Fire(g, m, u, yes), out)
    decreases s, 0
  {
    hide Emit, EmitBlocks, SizeBlocks, LoadBlocks, SoundBlocks, Light, Fire, Put, Take, Sum;
    var cases, n := s.cases, Guards(s.cases);
    ChooseParts(env, g, s, c, k, j);
    if u < c + n {
      out := FireGuard(env, g, s, c, k, j, m, u - c, yes);
    } else {
      LightWhenFew(cases, |cases|, c + n, j.Some?, m);
      out := FireBlocks(env, g, cases, |cases|, c + n, k, j, m, u, yes);
      SentElsewhere(m, out, k, j, c, c + n);
      SumSame(m, Fire(g, m, u, yes), c, n);
    }
  }

  /** A guard passes the token to its case, to the next guard or to the otherwise, or out of the choice. */
  lemma FireGuard(env: Env, g: seq<Node>, s: Step, c: Id, k: Id, j: Option<Id>, m: Marking, i: nat, yes: bool)
    returns (out: Option<Id>)
    requires s.Choose? && i < Guards(s.cases) && CanFire(env, g, s, c, k, j, m, c + i, yes)
    ensures FiresTo(s, c, k, j, m, Fire(g, m, c + i, yes), out)
  {
    hide Emit, EmitBlocks, SizeBlocks, BlockStart, LoadBlocks, SoundBlocks, Light, Fire, Put, Take, Sum;
    var cases, n, u := s.cases, Guards(s.cases), c + i;
    GuardOf(env, g, s, i, c, k, j);
    ChooseParts(env, g, s, c, k, j);
    if !yes && i + 1 == n && !HasDefault(cases) {
      Passes(g, m, u, yes, k);
      Moved(m, u, k);
      SumMove(m, c, n, u, k);
      LoadBlocksSame(cases, |cases|, c + n, j.Some?, m, Fire(g, m, u, yes));
      out := Some(k);
    } else if !yes && i + 1 < n {
      Passes(g, m, u, yes, u + 1);
      Moved(m, u, u + 1);
      SumMove(m, c, n, u, u + 1);
      LoadBlocksSame(cases, |cases|, c + n, j.Some?, m, Fire(g, m, u, yes));
      out := None;
    } else {
      EnterCase(env, g, s, c, k, j, m, i, if yes then i else i + 1, yes);
      out := None;
    }
  }

  lemma EnterCase(env: Env, g: seq<Node>, s: Step, c: Id, k: Id, j: Option<Id>, m: Marking, i: nat, x: nat, yes: bool)
    requires s.Choose? && i < Guards(s.cases) && x < |s.cases| && CanFire(env, g, s, c, k, j, m, c + i, yes)
    requires x == (if yes then i else i + 1) && (yes || (i + 1 == Guards(s.cases) && HasDefault(s.cases)))
    ensures FiresTo(s, c, k, j, m, Fire(g, m, c + i, yes), None)
  {
    hide Emit, EmitBlocks, SizeBlocks, BlockStart, LoadBlocks, LoadBlock, SoundBlocks, Light, Fire, Put, Take, Sum;
    var cases, n, u, inArm := s.cases, Guards(s.cases), c + i, j.Some?;
    var v := BlockStart(cases, x, c + n, inArm);
    GuardOf(env, g, s, i, c, k, j);
    ChooseParts(env, g, s, c, k, j);
    Passes(g, m, u, yes, v);
    BlockEntry(env, g, cases, x, c + n, k, j);
    SizeBlocksGrows(cases, x + 1, |cases|, inArm);
    assert SizeBlocks(cases, x, inArm) >= 0;
    SumMove(m, c, n, u, v);
    Moved(m, u, v);
    CaseTakes(env, g, s, c, k, j, m, i, x);
  }

  /** A token taken from a guard makes one more in the case it is put into. */
  lemma CaseTakes(env: Env, g: seq<Node>, s: Step, c: Id, k: Id, j: Option<Id>, m: Marking, i: nat, x: nat)
    requires s.Choose? && i < Guards(s.cases) && x < |s.cases| && ShapeBlocks(s.cases)
    requires Has(g, c + Guards(s.cases), EmitBlocks(env, s.cases, |s.cases|, c + Guards(s.cases), Some(k), j))
    requires c + Guards(s.cases) + SizeBlocks(s.cases, |s.cases|, j.Some?) <= |m| == |g| && m[c + i] > 0
    requires var n := Guards(s.cases);
             && SoundBlocks(s.cases, |s.cases|, c + n, j.Some?, m)
             && Sum(m, c, n) + LoadBlocks(s.cases, |s.cases|, c + n, j.Some?, m) <= 1
    ensures var cases, n := s.cases, Guards(s.cases);
            var m' := Put(Take(m, c + i), BlockStart(cases, x, c + n, j.Some?));
            && SoundBlocks(cases, |cases|, c + n, j.Some?, m')
            && LoadBlocks(cases, |cases|, c + n, j.Some?, m') == LoadBlocks(cases, |cases|, c + n, j.Some?, m) + 1
  {
    hide EmitBlocks, SizeBlocks, BlockStart, LoadBlocks, LoadBlock, SoundBlocks, Light, Put, Sum;
    var cases, n, u, inArm := s.cases, Guards(s.cases), c + i, j.Some?;
    var t := Take(m, u);
    SumTake(m, c, n, u);
    LoadBlocksSame(cases, |cases|, c + n, inArm, m, t);
    LightWhenFew(cases, |cases|, c + n, inArm, t);
    BlockShare(cases, |cases|, x, c + n, inArm, t);
    EnterBlock(env, g, cases, |cases|, x, c + n, k, j, t);
  }

  lemma {:induction false} FireStep(env: Env, g: seq<Node>, s: Step, c: Id, k: Id, j: Option<Id>, m: Marking, u: Id,
                                    yes: bool)
    returns (out: Option<Id>)
    requires CanFire(env, g, s, c, k, j, m, u, yes)
    ensures FiresTo(s, c, k, j, m, Fire(g, m, u, yes), out)
    decreases s, 1
  {
    hide Emit, EmitSeq, EmitBlocks, Load, Sound, FiresTo, Fire, Size;
    match s
    case Task(_, _, _, _, _) => out := FireTask(env, g, s, c, k, j, m, u, yes);
    case Gate(_, _, _) => out := FireGate(env, g, s, c, k, j, m, u, yes);
    case Sleep(_, _) => out := FirePlain(env, g, s, c, k, j, m, u, yes);
    case SubFlow(_, _) => out := FirePlain(env, g, s, c, k, j, m, u, yes);
    case Signal(_, _, _) => out := FireSignal(env, g, s, c, k, j, m, u, yes);
    case Fork(_, _) => out := FireFork(env, g, s, c, k, j, m, u, yes);
    case ForEach(_, _, _, _) => out := FireForEach(env, g, s, c, k, j, m, u, yes);
    case Choose(_) => out := FireChoose(env, g, s, c, k, j, m, u, yes);
    case Loop(_, _, _) => out := FireLoop(env, g, s, c, k, j, m, u, yes);
  }
}
