/**
 * Where a fork of a flow is. Going down from the whole flow to the step a fork belongs to, three things are kept at
 * each level: where the part goes on to is outside of it, no edge from outside comes into it but to its entry, and
 * tokens that are sound in the whole are sound in the part. So they hold of the fork itself.
 */
module Forks {
  import opened Topology
  import opened Layout
  import opened WellFormed
  import opened Placement
  import opened Structure
  import opened Tokens
  import opened Firing

  /** A step in the graph that goes on to places outside of it. */
  ghost predicate Placed(env: Env, g: seq<Node>, s: Step, c: Id, k: Id, j: Option<Id>) {
    var hi := c + Size(s, j.Some?);
    Fits(env, g, s, c, k, j) && hi <= |g| && Away(k, c, hi) && (j.Some? ==> Away(j.value, c, hi))
  }

  ghost predicate PlacedSeq(env: Env, g: seq<Node>, steps: seq<Step>, c: Id, k: Id, j: Option<Id>) {
    var hi := c + SizeSeq(steps, |steps|, j.Some?);
    && ShapeSeq(steps) && AtSeq(env, g, steps, c, k, j) && hi <= |g|
    && Onward(g, hi, k) && Away(k, c, hi) && (j.Some? ==> Onward(g, hi, j.value) && Away(j.value, c, hi))
  }

  /** Of the ids c to hi-1, those outside lo to top-1 have no edge into these but to the entry. */
  ghost predicate EnteredAt(g: seq<Node>, c: Id, hi: Id, lo: Id, top: Id, entry: Id) {
    forall u: Id, v: Id :: c <= u < hi && Away(u, lo, top) && EdgeTo(g, u, v) && lo <= v < top ==> v == entry
  }

  /** A sequence inside a step. */
  ghost predicate Inside(env: Env, g: seq<Node>, s: Step, c: Id, k: Id, j: Option<Id>,
                         steps: seq<Step>, c': Id, k': Id, j': Option<Id>) {
    var hi, hi' := c + Size(s, j.Some?), c' + SizeSeq(steps, |steps|, j'.Some?);
    && PlacedSeq(env, g, steps, c', k', j') && steps != []
    && c <= c' && hi' <= hi && hi' - c' < hi - c
    && EnteredAt(g, c, hi, c', hi', EntrySeq(steps, c'))
    && (Away(Entry(s, c), c', hi') || Entry(s, c) == EntrySeq(steps, c'))
  }

  /** Tokens that are sound in a step, and one at most, are so in a sequence inside it. */
  ghost predicate SoundInside(g: seq<Node>, s: Step, c: Id, j: Option<Id>, steps: seq<Step>, c': Id, j': Option<Id>) {
    forall m: Marking :: |m| == |g| && Sound(s, c, j.Some?, m) && Load(s, c, j.Some?, m) <= 1 ==>
      SoundSeq(steps, |steps|, c', j'.Some?, m) && LoadSeq(steps, |steps|, c', j'.Some?, m) <= 1
  }

  lemma {:induction false} BlockIsSound(blocks: seq<Block>, n: nat, i: nat, c: Id, inArm: bool, m: Marking)
    requires i < n <= |blocks| && SoundBlocks(blocks, n, c, inArm, m) && Light(blocks, n, c, inArm, m)
    ensures var steps, ci := blocks[i].steps, c + SizeBlocks(blocks, i, inArm);
            SoundSeq(steps, |steps|, ci, inArm, m) && LoadSeq(steps, |steps|, ci, inArm, m) <= 1
  {
    hide SoundSeq, LoadSeq, SizeSeq;
    if i < n - 1 { BlockIsSound(blocks, n - 1, i, c, inArm, m); }
  }

  lemma {:induction false} StepIsSound(steps: seq<Step>, n: nat, i: nat, c: Id, inArm: bool, m: Marking)
    requires i < n <= |steps| && SoundSeq(steps, n, c, inArm, m) && LoadSeq(steps, n, c, inArm, m) <= 1
    ensures var ci := c + SizeSeq(steps, i, inArm); Sound(steps[i], ci, inArm, m) && Load(steps[i], ci, inArm, m) <= 1
  {
    hide Sound, Load, Size;
    if i < n - 1 { StepIsSound(steps, n - 1, i, c, inArm, m); }
  }

  // ---- the sequences inside a step ----

  lemma InSignal(env: Env, g: seq<Node>, s: Step, c: Id, k: Id, j: Option<Id>)
    requires s.Signal? && s.escalation != [] && Placed(env, g, s, c, k, j)
    ensures Inside(env, g, s, c, k, j, s.escalation, c + 1, k, j)
    ensures SoundInside(g, s, c, j, s.escalation, c + 1, j)
  {
    hide Emit, EmitSeq, EntrySeq, SizeSeq, SoundSeq, LoadSeq, Rank;
    SignalParts(env, g, s, c, k, j);
  }

  lemma InForEach(env: Env, g: seq<Node>, s: Step, c: Id, k: Id, j: Option<Id>)
    requires s.ForEach? && Placed(env, g, s, c, k, j)
    ensures Inside(env, g, s, c, k, j, s.body, c + 2, c + 1, Some(c + 1))
    ensures SoundInside(g, s, c, j, s.body, c + 2, Some(c + 1))
  {
    hide Emit, EmitSeq, EntrySeq, SizeSeq, SoundSeq, LoadSeq, Sum;
    ForEachParts(env, g, s, c, k, j);
  }

  lemma InLoop(env: Env, g: seq<Node>, s: Step, c: Id, k: Id, j: Option<Id>)
    requires s.Loop? && Placed(env, g, s, c, k, j)
    ensures Inside(env, g, s, c, k, j, s.body, c, c + SizeSeq(s.body, |s.body|, j.Some?), j)
    ensures SoundInside(g, s, c, j, s.body, c, j)
  {
    hide Emit, EmitSeq, EntrySeq, SizeSeq, SoundSeq, LoadSeq;
    LoopParts(env, g, s, c, k, j);
  }

  lemma InArm(env: Env, g: seq<Node>, s: Step, c: Id, k: Id, j: Option<Id>, i: nat)
    requires s.Fork? && i < |s.arms| && Placed(env, g, s, c, k, j)
    ensures Inside(env, g, s, c, k, j, s.arms[i].steps, c + 2 + SizeBlocks(s.arms, i, true), c + 1, Some(c + 1))
  {
    hide PlacedSeq, EntrySeq, SizeSeq, SizeBlocks, EnteredAt, Fits;
    var arms := s.arms;
    ArmPlaced(env, g, s, c, k, j, i);
    BlockWith(arms, i, true);
    SizeBlocksGrows(arms, i + 1, |arms|, true);
    ArmEntered(env, g, s, c, k, j, i);
  }

  lemma BlockWith(blocks: seq<Block>, i: nat, inArm: bool)
    requires i < |blocks|
    ensures SizeBlocks(blocks, i + 1, inArm) ==
            SizeBlocks(blocks, i, inArm) + SizeSeq(blocks[i].steps, |blocks[i].steps|, inArm)
  {}

  lemma ArmPlaced(env: Env, g: seq<Node>, s: Step, c: Id, k: Id, j: Option<Id>, i: nat)
    requires s.Fork? && i < |s.arms| && Placed(env, g, s, c, k, j)
    ensures PlacedSeq(env, g, s.arms[i].steps, c + 2 + SizeBlocks(s.arms, i, true), c + 1, Some(c + 1)) &&
            s.arms[i].steps != []
  {
    hide Emit, EmitBlocks, EmitSeq, AtSeq, At, Has, SizeSeq, SizeBlocks;
    ForkParts(env, g, s, c, k, j);
    ArmOf(env, g, s, i, c, k, j);
    BlockWith(s.arms, i, true);
    BlockShape(s.arms, i);
    SizeBlocksGrows(s.arms, i + 1, |s.arms|, true);
  }

  lemma SoundInArm(g: seq<Node>, s: Step, c: Id, j: Option<Id>, i: nat)
    requires s.Fork? && i < |s.arms|
    ensures SoundInside(g, s, c, j, s.arms[i].steps, c + 2 + SizeBlocks(s.arms, i, true), Some(c + 1))
  {
    hide SizeBlocks, SizeSeq, SoundSeq, LoadSeq, SoundBlocks, LoadBlocks, Light;
    var arms := s.arms;
    forall m: Marking | |m| == |g| && Sound(s, c, j.Some?, m) && Load(s, c, j.Some?, m) <= 1
      ensures var steps, ci := arms[i].steps, c + 2 + SizeBlocks(arms, i, true);
              SoundSeq(steps, |steps|, ci, true, m) && LoadSeq(steps, |steps|, ci, true, m) <= 1
    {
      BlockIsSound(arms, |arms|, i, c + 2, true, m);
    }
  }

  /** An arm of a fork is entered from the fork alone. */
  lemma ArmEntered(env: Env, g: seq<Node>, s: Step, c: Id, k: Id, j: Option<Id>, i: nat)
    requires s.Fork? && i < |s.arms| && Placed(env, g, s, c, k, j)
    ensures var lo := c + 2 + SizeBlocks(s.arms, i, true);
            EnteredAt(g, c, c + Size(s, j.Some?), lo, c + 2 + SizeBlocks(s.arms, i + 1, true),
                      EntrySeq(s.arms[i].steps, lo))
  {
    hide Emit, EmitBlocks, EntrySeq, SizeSeq, Local, Rank;
    var arms, lo, top := s.arms, c + 2 + SizeBlocks(s.arms, i, true), c + 2 + SizeBlocks(s.arms, i + 1, true);
    ForkParts(env, g, s, c, k, j);
    SizeBlocksGrows(arms, i + 1, |arms|, true);
    forall u: Id, v: Id | c <= u < c + Size(s, j.Some?) && Away(u, lo, top) && EdgeTo(g, u, v) && lo <= v < top
      ensures v == EntrySeq(arms[i].steps, lo)
    {
      if u == c {
        var x :| 0 <= x < |arms| && v == BlockStart(arms, x, c + 2, true);
        ArmEntry(env, g, s, x, c, k, j);
        if x < i { SizeBlocksGrows(arms, x + 1, i, true); }
        if x > i { SizeBlocksGrows(arms, i + 1, x, true); }
      } else if c + 2 <= u < c + 2 + SizeBlocks(arms, |arms|, true) {
        var x := BlockAt(arms, |arms|, c + 2, true, u);
        InOtherArm(env, g, s, c, k, j, x, u, v);
        if x < i { SizeBlocksGrows(arms, x + 1, i, true); }
        if x > i { SizeBlocksGrows(arms, i + 1, x, true); }
      }
    }
  }

  /** An edge out of a node of arm x stays in the arm or goes to the join. */
  lemma InOtherArm(env: Env, g: seq<Node>, s: Step, c: Id, k: Id, j: Option<Id>, x: nat, u: Id, v: Id)
    requires s.Fork? && x < |s.arms| && Fits(env, g, s, c, k, j) && EdgeTo(g, u, v)
    requires c + 2 + SizeBlocks(s.arms, x, true) <= u < c + 2 + SizeBlocks(s.arms, x + 1, true)
    ensures c + 2 + SizeBlocks(s.arms, x, true) <= v < c + 2 + SizeBlocks(s.arms, x + 1, true) || v == c + 1
  {
    hide Emit, EmitBlocks, EmitSeq, SizeSeq;
    var lo, steps := c + 2 + SizeBlocks(s.arms, x, true), s.arms[x].steps;
    ForkParts(env, g, s, c, k, j);
    ArmOf(env, g, s, x, c, k, j);
    BlockShape(s.arms, x);
    SizeBlocksGrows(s.arms, x + 1, |s.arms|, true);
    LocalSeq(env, g, steps, lo, c + 1, Some(c + 1));
    assert Local(g, u, lo, lo + SizeSeq(steps, |steps|, true), c + 1, Some(c + 1));
  }

  lemma InCase(env: Env, g: seq<Node>, s: Step, c: Id, k: Id, j: Option<Id>, i: nat)
    requires s.Choose? && i < |s.cases| && Placed(env, g, s, c, k, j)
    ensures Inside(env, g, s, c, k, j, s.cases[i].steps, c + Guards(s.cases) + SizeBlocks(s.cases, i, j.Some?), k, j)
  {
    hide PlacedSeq, EntrySeq, SizeSeq, SizeBlocks, EnteredAt, Fits;
    CasePlaced(env, g, s, c, k, j, i);
    BlockWith(s.cases, i, j.Some?);
    SizeBlocksGrows(s.cases, i + 1, |s.cases|, j.Some?);
    CaseEntered(env, g, s, c, k, j, i);
  }

  lemma CasePlaced(env: Env, g: seq<Node>, s: Step, c: Id, k: Id, j: Option<Id>, i: nat)
    requires s.Choose? && i < |s.cases| && Placed(env, g, s, c, k, j)
    ensures PlacedSeq(env, g, s.cases[i].steps, c + Guards(s.cases) + SizeBlocks(s.cases, i, j.Some?), k, j)
    ensures s.cases[i].steps != [] && Guards(s.cases) > 0
  {
    hide Emit, EmitBlocks, EmitSeq, AtSeq, At, Has, SizeSeq, SizeBlocks, Rank;
    CaseOf(env, g, s, i, c, k, j);
    BlockWith(s.cases, i, j.Some?);
    BlockShape(s.cases, i);
    SizeBlocksGrows(s.cases, i + 1, |s.cases|, j.Some?);
  }

  lemma SoundInCase(g: seq<Node>, s: Step, c: Id, j: Option<Id>, i: nat)
    requires s.Choose? && i < |s.cases|
    ensures SoundInside(g, s, c, j, s.cases[i].steps, c + Guards(s.cases) + SizeBlocks(s.cases, i, j.Some?), j)
  {
    hide SizeBlocks, SizeSeq, SoundSeq, LoadSeq, SoundBlocks, LoadBlocks, Light, Sum;
    var cases, b := s.cases, c + Guards(s.cases);
    forall m: Marking | |m| == |g| && Sound(s, c, j.Some?, m) && Load(s, c, j.Some?, m) <= 1
      ensures var steps, ci := cases[i].steps, b + SizeBlocks(cases, i, j.Some?);
              SoundSeq(steps, |steps|, ci, j.Some?, m) && LoadSeq(steps, |steps|, ci, j.Some?, m) <= 1
    {
      LightWhenFew(cases, |cases|, b, j.Some?, m);
      BlockIsSound(cases, |cases|, i, b, j.Some?, m);
    }
  }

  /** A case of a choice is entered from the guards alone. */
  lemma CaseEntered(env: Env, g: seq<Node>, s: Step, c: Id, k: Id, j: Option<Id>, i: nat)
    requires s.Choose? && i < |s.cases| && Placed(env, g, s, c, k, j)
    ensures var lo := c + Guards(s.cases) + SizeBlocks(s.cases, i, j.Some?);
            EnteredAt(g, c, c + Size(s, j.Some?), lo, c + Guards(s.cases) + SizeBlocks(s.cases, i + 1, j.Some?),
                      EntrySeq(s.cases[i].steps, lo))
  {
    hide Emit, EmitBlocks, EntrySeq, SizeSeq, Local, Rank;
    var cases, b, inArm := s.cases, c + Guards(s.cases), j.Some?;
    var lo, top := b + SizeBlocks(cases, i, inArm), b + SizeBlocks(cases, i + 1, inArm);
    SizeBlocksGrows(cases, i + 1, |cases|, inArm);
    forall u: Id, v: Id | c <= u < c + Size(s, inArm) && Away(u, lo, top) && EdgeTo(g, u, v) && lo <= v < top
      ensures v == EntrySeq(cases[i].steps, lo)
    {
      if u < b {
        GuardEnters(env, g, s, c, k, j, i, u - c, v);
      } else {
        var x := BlockAt(cases, |cases|, b, inArm, u);
        InOtherCase(env, g, s, c, k, j, x, u, v);
        if x < i { SizeBlocksGrows(cases, x + 1, i, inArm); }
        if x > i { SizeBlocksGrows(cases, i + 1, x, inArm); }
      }
    }
  }

  lemma GuardEnters(env: Env, g: seq<Node>, s: Step, c: Id, k: Id, j: Option<Id>, i: nat, guard: nat, v: Id)
    requires s.Choose? && i < |s.cases| && guard < Guards(s.cases) && Placed(env, g, s, c, k, j) &&
             EdgeTo(g, c + guard, v)
    requires var b := c + Guards(s.cases);
             b + SizeBlocks(s.cases, i, j.Some?) <= v < b + SizeBlocks(s.cases, i + 1, j.Some?)
    ensures v == EntrySeq(s.cases[i].steps, c + Guards(s.cases) + SizeBlocks(s.cases, i, j.Some?))
  {
    hide Emit, EmitBlocks, EntrySeq, SizeSeq, SizeBlocks, Rank;
    var cases, b := s.cases, c + Guards(s.cases);
    GuardOf(env, g, s, guard, c, k, j);
    ChooseParts(env, g, s, c, k, j);
    SizeBlocksGrows(cases, i + 1, |cases|, j.Some?);
    SizeBlocksGrows(cases, 0, i, j.Some?);
    forall x | (x == guard || x == guard + 1) && x < |cases| && v == BlockStart(cases, x, b, j.Some?) ensures x == i {
      BlockEntry(env, g, cases, x, b, k, j);
      if x < i { SizeBlocksGrows(cases, x + 1, i, j.Some?); }
      if x > i { SizeBlocksGrows(cases, i + 1, x, j.Some?); }
    }
  }

  lemma InOtherCase(env: Env, g: seq<Node>, s: Step, c: Id, k: Id, j: Option<Id>, x: nat, u: Id, v: Id)
    requires s.Choose? && x < |s.cases| && Fits(env, g, s, c, k, j) && EdgeTo(g, u, v)
    requires var b := c + Guards(s.cases);
             b + SizeBlocks(s.cases, x, j.Some?) <= u < b + SizeBlocks(s.cases, x + 1, j.Some?)
    ensures var b := c + Guards(s.cases);
            b + SizeBlocks(s.cases, x, j.Some?) <= v < b + SizeBlocks(s.cases, x + 1, j.Some?) || v == k || j == Some(v)
  {
    hide Emit, EmitBlocks, EmitSeq, SizeSeq, Rank;
    var lo, steps := c + Guards(s.cases) + SizeBlocks(s.cases, x, j.Some?), s.cases[x].steps;
    CaseOf(env, g, s, x, c, k, j);
    BlockShape(s.cases, x);
    SizeBlocksGrows(s.cases, x + 1, |s.cases|, j.Some?);
    LocalSeq(env, g, steps, lo, k, j);
    assert Local(g, u, lo, lo + SizeSeq(steps, |steps|, j.Some?), k, j);
  }

  // ---- the steps of a sequence ----

  /** Step i of a sequence: placed, and entered from the other steps at its entry alone. */
  lemma InSeq(env: Env, g: seq<Node>, steps: seq<Step>, c: Id, k: Id, j: Option<Id>, i: nat) returns (ci: Id, next: Id)
    requires i < |steps| && PlacedSeq(env, g, steps, c, k, j)
    ensures ci == c + SizeSeq(steps, i, j.Some?) && ci + Size(steps[i], j.Some?) == c + SizeSeq(steps, i + 1, j.Some?)
    ensures ci + Size(steps[i], j.Some?) <= c + SizeSeq(steps, |steps|, j.Some?)
    ensures Placed(env, g, steps[i], ci, next, j)
    ensures EnteredAt(g, c, c + SizeSeq(steps, |steps|, j.Some?), ci, ci + Size(steps[i], j.Some?), Entry(steps[i], ci))
    ensures Away(EntrySeq(steps, c), ci, ci + Size(steps[i], j.Some?)) || EntrySeq(steps, c) == Entry(steps[i], ci)
  {
    hide AtSeq, Entry, Size, SizeSeq, Rank, Local, Fits, ShapeSeq;
    var hi := c + SizeSeq(steps, |steps|, j.Some?);
    ci, next := StepFits(env, g, steps, i, c, k, j);
    NextIsAway(env, g, steps, c, k, j, i);
    FirstIsFirst(env, g, steps, c, k, j, i);
    forall u: Id, v: Id | c <= u < hi && Away(u, ci, ci + Size(steps[i], j.Some?)) && EdgeTo(g, u, v) &&
                          ci <= v < ci + Size(steps[i], j.Some?)
      ensures v == Entry(steps[i], ci)
    {
      var x := StepAt(steps, |steps|, c, j.Some?, u);
      OtherStepGoesOn(env, g, steps, c, k, j, x, u, v);
      if x < i { SizeGrows(steps, x + 1, i, j.Some?); }
      if x > i { SizeGrows(steps, i + 1, x, j.Some?); }
      if x + 1 != i && x + 1 < |steps| {
        NextEntry(env, g, steps, x + 1, c, k, j);
        EntryInStep(env, g, steps, c, k, j, x + 1);
        if x + 1 < i { SizeGrows(steps, x + 2, i, j.Some?); }
      }
    }
  }

  /** The entry of step i lies in step i. */
  lemma EntryInStep(env: Env, g: seq<Node>, steps: seq<Step>, c: Id, k: Id, j: Option<Id>, i: nat)
    requires i < |steps| && ShapeSeq(steps) && AtSeq(env, g, steps, c, k, j)
    ensures var ci := c + SizeSeq(steps, i, j.Some?); ci <= Entry(steps[i], ci) < c + SizeSeq(steps, i + 1, j.Some?)
  {
    hide AtSeq, At, Entry, Size, SizeSeq, Rank, Shape, Cont;
    StepOf(env, g, steps, i, c, k, j);
    SizeWith(steps, i, j.Some?);
    EntryIsStep(env, g, steps[i], c + SizeSeq(steps, i, j.Some?), Cont(steps, i, c, k, j.Some?), j);
  }

  /** Where a step of a sequence goes on to is outside of it. */
  lemma NextIsAway(env: Env, g: seq<Node>, steps: seq<Step>, c: Id, k: Id, j: Option<Id>, i: nat)
    requires i < |steps| && PlacedSeq(env, g, steps, c, k, j)
    ensures Away(Cont(steps, i, c, k, j.Some?), c + SizeSeq(steps, i, j.Some?), c + SizeSeq(steps, i + 1, j.Some?))
  {
    hide AtSeq, Entry, Size, SizeSeq, Rank, Onward;
    SizeGrows(steps, i, i + 1, j.Some?);
    SizeGrows(steps, i + 1, |steps|, j.Some?);
    if i + 1 < |steps| { NextEntry(env, g, steps, i + 1, c, k, j); }
  }

  lemma FirstIsFirst(env: Env, g: seq<Node>, steps: seq<Step>, c: Id, k: Id, j: Option<Id>, i: nat)
    requires i < |steps| && PlacedSeq(env, g, steps, c, k, j)
    ensures var ci := c + SizeSeq(steps, i, j.Some?);
            Away(EntrySeq(steps, c), ci, c + SizeSeq(steps, i + 1, j.Some?)) ||
              EntrySeq(steps, c) == Entry(steps[i], ci)
  {
    hide AtSeq, Entry, Size, Rank, Onward;
    EntryInStep(env, g, steps, c, k, j, 0);
    assert SizeSeq(steps, 0, j.Some?) == 0;
    if i > 0 { SizeGrows(steps, 1, i, j.Some?); }
  }

  /** An edge out of a node of step x stays in the step, goes on to the next, or leaves the sequence. */
  lemma OtherStepGoesOn(env: Env, g: seq<Node>, steps: seq<Step>, c: Id, k: Id, j: Option<Id>, x: nat, u: Id, v: Id)
    requires x < |steps| && PlacedSeq(env, g, steps, c, k, j) && EdgeTo(g, u, v)
    requires c + SizeSeq(steps, x, j.Some?) <= u < c + SizeSeq(steps, x + 1, j.Some?)
    ensures || c + SizeSeq(steps, x, j.Some?) <= v < c + SizeSeq(steps, x + 1, j.Some?)
            || v == Cont(steps, x, c, k, j.Some?) || j == Some(v)
  {
    hide AtSeq, Entry, Size, SizeSeq, Rank, Onward, Fits;
    var cx, next := StepFits(env, g, steps, x, c, k, j);
    LocalStep(env, g, steps[x], cx, next, j);
    assert Local(g, u, cx, cx + Size(steps[x], j.Some?), next, j);
  }

  // ---- down to a fork ----

  /** The step of the fork at f, in a part of the graph at ids c to hi-1 that is entered at `entry`. */
  ghost predicate Found(env: Env, g: seq<Node>, c: Id, hi: Id, entry: Id, s: Step, f: Id, k: Id, j: Option<Id>) {
    var top := f + Size(s, j.Some?);
    && s.Fork? && Placed(env, g, s, f, k, j) && c <= f && top <= hi
    && EnteredAt(g, c, hi, f, top, f) && (Away(entry, f, top) || entry == f)
  }

  /** What is found in a part is found in the whole. */
  lemma FoundInPart(env: Env, g: seq<Node>, c: Id, hi: Id, entry: Id, c': Id, hi': Id, entry': Id, s: Step, f: Id,
                    k: Id,
                    j: Option<Id>)
    requires c <= c' && hi' <= hi && EnteredAt(g, c, hi, c', hi', entry') && (Away(entry, c', hi') || entry == entry')
    requires Found(env, g, c', hi', entry', s, f, k, j)
    ensures Found(env, g, c, hi, entry, s, f, k, j)
  {
    hide Fits, Size;
  }

  /** The sequence of a step that holds the fork at f. */
  lemma PartWith(env: Env, g: seq<Node>, s: Step, c: Id, k: Id, j: Option<Id>, f: Id)
    returns (steps: seq<Step>, c': Id, k': Id, j': Option<Id>)
    requires Placed(env, g, s, c, k, j) && c <= f < c + Size(s, j.Some?) && g[f].kind == FORK && !(s.Fork? && f == c)
    ensures Inside(env, g, s, c, k, j, steps, c', k', j') && SoundInside(g, s, c, j, steps, c', j')
    ensures c' <= f < c' + SizeSeq(steps, |steps|, j'.Some?)
  {
    hide Emit, EmitSeq, EntrySeq, Inside, SoundInside, Rank, Onward;
    match s
    case Task(_, _, _, _, _) => TaskParts(env, g, s, c, k, j);
    case Gate(_, _, _) => GateParts(env, g, s, c, k, j);
    case Sleep(_, _) => PlainParts(env, g, s, c, k, j);
    case SubFlow(_, _) => PlainParts(env, g, s, c, k, j);
    case Signal(_, _, escalation) =>
      SignalParts(env, g, s, c, k, j);
      AtNothing(escalation, c + 1, j.Some?);
      InSignal(env, g, s, c, k, j);
      return escalation, c + 1, k, j;
    case Fork(_, _) => steps, c', k', j' := ArmWith(env, g, s, c, k, j, f);
    case ForEach(_, _, body, _) =>
      ForEachParts(env, g, s, c, k, j);
      InForEach(env, g, s, c, k, j);
      return body, c + 2, c + 1, Some(c + 1);
    case Choose(_) => steps, c', k', j' := CaseWith(env, g, s, c, k, j, f);
    case Loop(_, _, body) =>
      LoopParts(env, g, s, c, k, j);
      InLoop(env, g, s, c, k, j);
      return body, c, c + SizeSeq(body, |body|, j.Some?), j;
  }

  lemma ArmWith(env: Env, g: seq<Node>, s: Step, c: Id, k: Id, j: Option<Id>, f: Id)
    returns (steps: seq<Step>, c': Id, k': Id, j': Option<Id>)
    requires s.Fork? && Placed(env, g, s, c, k, j) && c < f < c + Size(s, j.Some?) && g[f].kind == FORK
    ensures Inside(env, g, s, c, k, j, steps, c', k', j') && SoundInside(g, s, c, j, steps, c', j')
    ensures c' <= f < c' + SizeSeq(steps, |steps|, j'.Some?)
  {
    hide Emit, EmitBlocks, SizeSeq, Inside, SoundInside, Rank, Onward;
    var arms := s.arms;
    ForkParts(env, g, s, c, k, j);
    var i := BlockAt(arms, |arms|, c + 2, true, f);
    BlockWith(arms, i, true);
    InArm(env, g, s, c, k, j, i);
    SoundInArm(g, s, c, j, i);
    return arms[i].steps, c + 2 + SizeBlocks(arms, i, true), c + 1, Some(c + 1);
  }

  lemma CaseWith(env: Env, g: seq<Node>, s: Step, c: Id, k: Id, j: Option<Id>, f: Id)
    returns (steps: seq<Step>, c': Id, k': Id, j': Option<Id>)
    requires s.Choose? && Placed(env, g, s, c, k, j) && c <= f < c + Size(s, j.Some?) && g[f].kind == FORK
    ensures Inside(env, g, s, c, k, j, steps, c', k', j') && SoundInside(g, s, c, j, steps, c', j')
    ensures c' <= f < c' + SizeSeq(steps, |steps|, j'.Some?)
  {
    hide Emit, EmitBlocks, EmitGuard, SizeSeq, Inside, SoundInside, Rank, Onward;
    var cases, b := s.cases, c + Guards(s.cases);
    if f < b {
      GuardOf(env, g, s, f - c, c, k, j);
      GuardIsNoFork(env, cases, f - c, c, k, j);
    }
    var i := BlockAt(cases, |cases|, b, j.Some?, f);
    BlockWith(cases, i, j.Some?);
    InCase(env, g, s, c, k, j, i);
    SoundInCase(g, s, c, j, i);
    return cases[i].steps, b + SizeBlocks(cases, i, j.Some?), k, j;
  }

  lemma GuardIsNoFork(env: Env, cases: seq<Block>, i: nat, c: Id, k: Id, j: Option<Id>)
    requires i < Guards(cases)
    ensures EmitGuard(env, cases, i, c, Some(k), j.Some?).kind == PREDICATE
  {}

  lemma AtNothing(steps: seq<Step>, c: Id, inArm: bool)
    ensures steps == [] ==> SizeSeq(steps, |steps|, inArm) == 0
  {}

  lemma {:induction false} FindInStep(env: Env, g: seq<Node>, s: Step, c: Id, k: Id, j: Option<Id>, f: Id)
    returns (s': Step, k': Id, j': Option<Id>)
    requires Placed(env, g, s, c, k, j) && c <= f < c + Size(s, j.Some?) && g[f].kind == FORK
    ensures Found(env, g, c, c + Size(s, j.Some?), Entry(s, c), s', f, k', j')
    ensures forall m: Marking :: |m| == |g| && Sound(s, c, j.Some?, m) && Load(s, c, j.Some?, m) <= 1 ==>
              Sound(s', f, j'.Some?, m) && Load(s', f, j'.Some?, m) <= 1
    decreases Size(s, j.Some?), 0
  {
    hide Fits, Sound, Load, PlacedSeq, EntrySeq, SoundSeq, LoadSeq;
    if s.Fork? && f == c {
      s', k', j' := s, k, j;
    } else {
      hide Size;
      var steps, c', kc, jc := PartWith(env, g, s, c, k, j, f);
      s', k', j' := FindInSeq(env, g, steps, c', kc, jc, f);
      FoundInPart(env, g, c, c + Size(s, j.Some?), Entry(s, c), c', c' + SizeSeq(steps, |steps|, jc.Some?),
                  EntrySeq(steps, c'),
                  s', f, k', j');
    }
  }

  lemma {:induction false} FindInSeq(env: Env, g: seq<Node>, steps: seq<Step>, c: Id, k: Id, j: Option<Id>, f: Id)
    returns (s': Step, k': Id, j': Option<Id>)
    requires PlacedSeq(env, g, steps, c, k, j) && c <= f < c + SizeSeq(steps, |steps|, j.Some?) && g[f].kind == FORK
    ensures Found(env, g, c, c + SizeSeq(steps, |steps|, j.Some?), EntrySeq(steps, c), s', f, k', j')
    ensures forall m: Marking ::
              |m| == |g| && SoundSeq(steps, |steps|, c, j.Some?, m) && LoadSeq(steps, |steps|, c, j.Some?, m) <= 1 ==>
              Sound(s', f, j'.Some?, m) && Load(s', f, j'.Some?, m) <= 1
    decreases SizeSeq(steps, |steps|, j.Some?), 1
  {
    hide Fits, Sound, Load, EntrySeq, Entry, SoundSeq, LoadSeq, Size, SizeSeq, AtSeq, ShapeSeq, Found;
    var i := StepAt(steps, |steps|, c, j.Some?, f);
    var ci, next := InSeq(env, g, steps, c, k, j, i);
    s', k', j' := FindInStep(env, g, steps[i], ci, next, j, f);
    FoundInPart(env, g, c, c + SizeSeq(steps, |steps|, j.Some?), EntrySeq(steps, c), ci, ci + Size(steps[i], j.Some?),
                Entry(steps[i], ci), s', f, k', j');
    forall m: Marking | |m| == |g| && SoundSeq(steps, |steps|, c, j.Some?, m) &&
      LoadSeq(steps, |steps|, c, j.Some?, m) <= 1
      ensures Sound(s', f, j'.Some?, m) && Load(s', f, j'.Some?, m) <= 1
    {
      StepIsSound(steps, |steps|, i, c, j.Some?, m);
    }
  }

  /** The step of a fork of a compiled flow. */
  lemma FindFork(env: Env, steps: seq<Step>, f: Id) returns (s: Step, k: Id, j: Option<Id>)
    requires ShapeSeq(steps) && f < |Program(env, steps)| && Program(env, steps)[f].kind == FORK
    ensures var g, last := Program(env, steps), SizeSeq(steps, |steps|, false);
            && s.Fork? && Placed(env, g, s, f, k, j) && EnteredAt(g, 0, |g|, f, f + Size(s, j.Some?), f)
            && forall m: Marking ::
                 |m| == |g| && SoundSeq(steps, |steps|, 0, false, m) && LoadSeq(steps, |steps|, 0, false, m) <= 1 ==>
                 Sound(s, f, j.Some?, m) && Load(s, f, j.Some?, m) <= 1
  {
    hide Emit, EmitSeq, Program, Sound, Load, EntrySeq, SoundSeq, LoadSeq, Size, SizeSeq, Fits, AtSeq;
    var g, last := Program(env, steps), SizeSeq(steps, |steps|, false);
    ProgramParts(env, steps);
    s, k, j := FindInSeq(env, g, steps, 0, last, None, f);
  }
}
