/** Every run of a program's tokens, in every interleaving: it ends once, or can go on. */
module TokenRuns {
  import opened Topology
  import opened Layout
  import opened WellFormed
  import opened Placement
  import opened Structure
  import opened Tokens
  import opened Firing

  // ---- a step that holds no token ----

  ghost predicate Empty(m: Marking, lo: Id, hi: Id) { forall u: Id :: lo <= u < hi ==> Tok(m, u) == 0 }

  lemma {:induction false} EmptySum(m: Marking, c: Id, n: nat)
    requires Sum(m, c, n) == 0
    ensures Empty(m, c, c + n)
  {
    if n > 0 { EmptySum(m, c, n - 1); }
  }

  lemma {:induction false} EmptyStep(s: Step, c: Id, inArm: bool, m: Marking)
    requires Sound(s, c, inArm, m) && Load(s, c, inArm, m) == 0
    ensures Empty(m, c, c + Size(s, inArm))
    decreases s
  {
    hide LoadSeq, LoadBlocks, SoundSeq, SoundBlocks, Light, Sum, SizeSeq, SizeBlocks;
    match s
    case Task(_, _, _, _, combine) => EmptySum(m, c, if combine == "" then 1 else 3);
    case Gate(_, _, _) => EmptySum(m, c, if inArm then 1 else 2);
    case Sleep(_, _) =>
    case SubFlow(_, _) =>
    case Signal(_, _, escalation) => EmptySeq(escalation, |escalation|, c + 1, inArm, m);
    case Fork(arms, _) => EmptyBlocks(arms, |arms|, c + 2, true, m);
    case ForEach(_, _, body, _) =>
      EmptySum(m, c, 2);
      EmptySeq(body, |body|, c + 2, true, m);
    case Choose(cases) =>
      EmptySum(m, c, Guards(cases));
      EmptyBlocks(cases, |cases|, c + Guards(cases), inArm, m);
    case Loop(_, _, body) => EmptySeq(body, |body|, c, inArm, m);
  }

  lemma {:induction false} EmptySeq(steps: seq<Step>, n: nat, c: Id, inArm: bool, m: Marking)
    requires n <= |steps| && SoundSeq(steps, n, c, inArm, m) && LoadSeq(steps, n, c, inArm, m) == 0
    ensures Empty(m, c, c + SizeSeq(steps, n, inArm))
    decreases steps, n
  {
    hide Load, Sound, Size;
    if n > 0 {
      EmptySeq(steps, n - 1, c, inArm, m);
      EmptyStep(steps[n - 1], c + SizeSeq(steps, n - 1, inArm), inArm, m);
    }
  }

  lemma {:induction false} EmptyBlocks(blocks: seq<Block>, n: nat, c: Id, inArm: bool, m: Marking)
    requires n <= |blocks| && SoundBlocks(blocks, n, c, inArm, m) && LoadBlocks(blocks, n, c, inArm, m) == 0
    ensures Empty(m, c, c + SizeBlocks(blocks, n, inArm))
    decreases blocks, n
  {
    hide LoadSeq, SoundSeq, SizeSeq;
    if n > 0 {
      EmptyBlocks(blocks, n - 1, c, inArm, m);
      EmptySeq(blocks[n - 1].steps, |blocks[n - 1].steps|, c + SizeBlocks(blocks, n - 1, inArm), inArm, m);
    }
  }

  // ---- a token at an END is the only one ----

  ghost predicate Only(m: Marking, lo: Id, hi: Id, u: Id) {
    Tok(m, u) == 1 && forall v: Id :: lo <= v < hi && v != u ==> Tok(m, v) == 0
  }

  ghost predicate Ended(g: seq<Node>, m: Marking, u: Id) { u < |g| && g[u].kind == END && Tok(m, u) > 0 }

  lemma {:induction false} SumOnly(m: Marking, c: Id, n: nat, u: Id)
    requires c <= u < c + n && Tok(m, u) > 0 && Sum(m, c, n) <= 1
    ensures Only(m, c, c + n, u) && Sum(m, c, n) == 1
  {
    if u == c + n - 1 { EmptySum(m, c, n - 1); } else { SumOnly(m, c, n - 1, u); }
  }

  lemma {:induction false} EndIsLast(env: Env, g: seq<Node>, s: Step, c: Id, k: Id, j: Option<Id>, m: Marking, u: Id)
    requires Shape(s) && At(env, g, s, c, k, j) && c <= u < c + Size(s, j.Some?) && Ended(g, m, u)
    requires Sound(s, c, j.Some?, m) && Load(s, c, j.Some?, m) <= 1
    ensures j.None? && Only(m, c, c + Size(s, j.Some?), u) && Load(s, c, j.Some?, m) == 1
    decreases s, 1
  {
    hide Emit, EmitSeq, EmitBlocks, LoadSeq, SoundSeq, LoadBlocks, SoundBlocks, SizeSeq, SizeBlocks, EntrySeq, Sum,
      Light;
    match s
    case Task(_, _, _, _, _) => TaskParts(env, g, s, c, k, j);
    case Gate(_, _, _) =>
      GateParts(env, g, s, c, k, j);
      SumOnly(m, c, 2, u);
    case Sleep(_, _) => PlainParts(env, g, s, c, k, j);
    case SubFlow(_, _) => PlainParts(env, g, s, c, k, j);
    case Signal(_, _, escalation) =>
      SignalParts(env, g, s, c, k, j);
      AtNothing(escalation, c + 1, j.Some?, m);
      EndIsLastSeq(env, g, escalation, |escalation|, c + 1, k, j, m, u);
    case Fork(arms, _) =>
      NoEndInFork(env, g, s, c, k, j, m, u);
    case ForEach(_, _, body, _) =>
      NoEndInForEach(env, g, s, c, k, j, m, u);
    case Choose(cases) => EndIsLastChoose(env, g, s, c, k, j, m, u);
    case Loop(_, _, body) =>
      LoopParts(env, g, s, c, k, j);
      EndIsLastSeq(env, g, body, |body|, c, c + SizeSeq(body, |body|, j.Some?), j, m, u);
  }

  lemma {:induction false} NoEndInFork(env: Env, g: seq<Node>, s: Step, c: Id, k: Id, j: Option<Id>, m: Marking, u: Id)
    requires s.Fork? && Shape(s) && At(env, g, s, c, k, j) && c <= u < c + Size(s, j.Some?) && Sound(s, c, j.Some?, m)
    ensures !Ended(g, m, u)
    decreases s, 0
  {
    hide Emit, EmitBlocks, LoadBlocks, SoundBlocks, SizeBlocks, Light;
    var arms := s.arms;
    ForkParts(env, g, s, c, k, j);
    if Ended(g, m, u) { EndIsLastBlocks(env, g, arms, |arms|, c + 2, c + 1, Some(c + 1), m, u); }
  }

  lemma {:induction false} NoEndInForEach(env: Env, g: seq<Node>, s: Step, c: Id, k: Id, j: Option<Id>, m: Marking,
                                          u: Id)
    requires s.ForEach? && Shape(s) && At(env, g, s, c, k, j) && c <= u < c + Size(s, j.Some?)
    requires Sound(s, c, j.Some?, m) && Load(s, c, j.Some?, m) <= 1
    ensures !Ended(g, m, u)
    decreases s, 0
  {
    hide Emit, EmitSeq, LoadSeq, SoundSeq, SizeSeq, EntrySeq, Sum;
    var body := s.body;
    ForEachParts(env, g, s, c, k, j);
    if Ended(g, m, u) { EndIsLastSeq(env, g, body, |body|, c + 2, c + 1, Some(c + 1), m, u); }
  }

  lemma {:induction false} EndIsLastChoose(env: Env, g: seq<Node>, s: Step, c: Id, k: Id, j: Option<Id>, m: Marking,
                                           u: Id)
    requires s.Choose? && Shape(s) && At(env, g, s, c, k, j) && c <= u < c + Size(s, j.Some?) && Ended(g, m, u)
    requires Sound(s, c, j.Some?, m) && Load(s, c, j.Some?, m) <= 1
    ensures j.None? && Only(m, c, c + Size(s, j.Some?), u) && Load(s, c, j.Some?, m) == 1
    decreases s, 0
  {
    hide Emit, EmitBlocks, LoadBlocks, SoundBlocks, SizeBlocks, Sum, Light, EmitGuard;
    var cases, n := s.cases, Guards(s.cases);
    ChooseParts(env, g, s, c, k, j);
    if u < c + n {
      GuardOf(env, g, s, u - c, c, k, j);
      EmitGuardKind(env, cases, u - c, c, k, j);
    }
    LightWhenFew(cases, |cases|, c + n, j.Some?, m);
    EndIsLastBlocks(env, g, cases, |cases|, c + n, k, j, m, u);
    EmptySum(m, c, n);
  }

  lemma EmitGuardKind(env: Env, cases: seq<Block>, i: nat, c: Id, k: Id, j: Option<Id>)
    requires i < Guards(cases)
    ensures EmitGuard(env, cases, i, c, Some(k), j.Some?).kind == PREDICATE
  {}

  lemma {:induction false} EndIsLastSeq(env: Env, g: seq<Node>, steps: seq<Step>, n: nat, c: Id, k: Id, j: Option<Id>,
                                        m: Marking,
                                        u: Id)
    requires n <= |steps| && ShapeSeq(steps) && AtSeq(env, g, steps, c, k, j)
    requires c <= u < c + SizeSeq(steps, n, j.Some?) && Ended(g, m, u)
    requires SoundSeq(steps, n, c, j.Some?, m) && LoadSeq(steps, n, c, j.Some?, m) <= 1
    ensures j.None? && Only(m, c, c + SizeSeq(steps, n, j.Some?), u) && LoadSeq(steps, n, c, j.Some?, m) == 1
    decreases steps, n
  {
    hide Emit, EmitSeq, Entry, Size, Load, Sound;
    var s, ci := steps[n - 1], c + SizeSeq(steps, n - 1, j.Some?);
    if u >= ci {
      StepOf(env, g, steps, n - 1, c, k, j);
      EndIsLast(env, g, s, ci, Cont(steps, n - 1, c, k, j.Some?), j, m, u);
      EmptySeq(steps, n - 1, c, j.Some?, m);
    } else {
      EndIsLastSeq(env, g, steps, n - 1, c, k, j, m, u);
      EmptyStep(s, ci, j.Some?, m);
    }
  }

  lemma {:induction false} EndIsLastBlocks(env: Env, g: seq<Node>, blocks: seq<Block>, n: nat, c: Id, k: Id,
                                           j: Option<Id>,
                                           m: Marking, u: Id)
    requires n <= |blocks| && ShapeBlocks(blocks) && Has(g, c, EmitBlocks(env, blocks, |blocks|, c, Some(k), j))
    requires c <= u < c + SizeBlocks(blocks, n, j.Some?) && Ended(g, m, u)
    requires SoundBlocks(blocks, n, c, j.Some?, m) && Light(blocks, n, c, j.Some?, m)
    requires j.None? ==> LoadBlocks(blocks, n, c, j.Some?, m) <= 1
    ensures j.None? && Only(m, c, c + SizeBlocks(blocks, n, j.Some?), u) && LoadBlocks(blocks, n, c, j.Some?, m) == 1
    decreases blocks, n
  {
    hide EmitSeq, EmitBlocks, SizeSeq, LoadSeq, SoundSeq;
    var steps, ci := blocks[n - 1].steps, c + SizeBlocks(blocks, n - 1, j.Some?);
    if u >= ci {
      BlockPart(env, g, blocks, |blocks|, n - 1, c, k, j);
      EndIsLastSeq(env, g, steps, |steps|, ci, k, j, m, u);
      EmptyBlocks(blocks, n - 1, c, j.Some?, m);
    } else {
      EndIsLastBlocks(env, g, blocks, n - 1, c, k, j, m, u);
      EmptySeq(steps, |steps|, ci, j.Some?, m);
    }
  }

  // ---- no node holds more tokens than it takes ----

  lemma {:induction false} SumBounds(m: Marking, c: Id, n: nat, u: Id)
    requires c <= u < c + n
    ensures Tok(m, u) <= Sum(m, c, n)
  {
    if u < c + n - 1 { SumBounds(m, c, n - 1, u); }
  }

  lemma {:induction false} NoMoreThanTaken(env: Env, g: seq<Node>, s: Step, c: Id, k: Id, j: Option<Id>, m: Marking,
                                           u: Id)
    requires Shape(s) && At(env, g, s, c, k, j) && c <= u < c + Size(s, j.Some?) && u < |g|
    requires Sound(s, c, j.Some?, m) && Load(s, c, j.Some?, m) <= 1
    ensures Tok(m, u) <= Takes(g[u])
    decreases s, 1
  {
    hide Emit, EmitSeq, EmitBlocks, LoadSeq, SoundSeq, LoadBlocks, SoundBlocks, SizeSeq, SizeBlocks, EntrySeq, Sum,
      Light;
    match s
    case Task(_, _, _, _, combine) => SumBounds(m, c, if combine == "" then 1 else 3, u);
    case Gate(_, _, _) => SumBounds(m, c, if j.Some? then 1 else 2, u);
    case Sleep(_, _) =>
    case SubFlow(_, _) =>
    case Signal(_, _, escalation) =>
      if u > c {
        SignalParts(env, g, s, c, k, j);
        AtNothing(escalation, c + 1, j.Some?, m);
        NoMoreThanTakenSeq(env, g, escalation, |escalation|, c + 1, k, j, m, u);
      }
    case Fork(_, _) => NoMoreThanTakenFork(env, g, s, c, k, j, m, u);
    case ForEach(_, _, body, _) =>
      if u < c + 2 {
        SumBounds(m, c, 2, u);
      } else if u < c + 2 + SizeSeq(body, |body|, true) {
        ForEachParts(env, g, s, c, k, j);
        NoMoreThanTakenSeq(env, g, body, |body|, c + 2, c + 1, Some(c + 1), m, u);
      }
    case Choose(_) => NoMoreThanTakenChoose(env, g, s, c, k, j, m, u);
    case Loop(_, _, body) =>
      if u < c + SizeSeq(body, |body|, j.Some?) {
        LoopParts(env, g, s, c, k, j);
        NoMoreThanTakenSeq(env, g, body, |body|, c, c + SizeSeq(body, |body|, j.Some?), j, m, u);
      }
  }

  lemma {:induction false} NoMoreThanTakenFork(env: Env, g: seq<Node>, s: Step, c: Id, k: Id, j: Option<Id>, m: Marking,
                                               u: Id)
    requires s.Fork? && Shape(s) && At(env, g, s, c, k, j) && c <= u < c + Size(s, j.Some?) && u < |g|
    requires Sound(s, c, j.Some?, m) && Load(s, c, j.Some?, m) <= 1
    ensures Tok(m, u) <= Takes(g[u])
    decreases s, 0
  {
    hide Emit, EmitBlocks, LoadBlocks, SoundBlocks, SizeBlocks, Light;
    var arms := s.arms;
    ForkParts(env, g, s, c, k, j);
    if c + 1 < u < c + 2 + SizeBlocks(arms, |arms|, true) {
      NoMoreThanTakenBlocks(env, g, arms, |arms|, c + 2, c + 1, Some(c + 1), m, u);
    }
  }

  lemma {:induction false} NoMoreThanTakenChoose(env: Env, g: seq<Node>, s: Step, c: Id, k: Id, j: Option<Id>,
                                                 m: Marking, u: Id)
    requires s.Choose? && Shape(s) && At(env, g, s, c, k, j) && c <= u < c + Size(s, j.Some?) && u < |g|
    requires Sound(s, c, j.Some?, m) && Load(s, c, j.Some?, m) <= 1
    ensures Tok(m, u) <= Takes(g[u])
    decreases s, 0
  {
    hide Emit, EmitBlocks, LoadBlocks, SoundBlocks, SizeBlocks, Sum, Light;
    var cases, n := s.cases, Guards(s.cases);
    if u < c + n {
      SumBounds(m, c, n, u);
    } else {
      ChooseParts(env, g, s, c, k, j);
      LightWhenFew(cases, |cases|, c + n, j.Some?, m);
      NoMoreThanTakenBlocks(env, g, cases, |cases|, c + n, k, j, m, u);
    }
  }

  lemma {:induction false} NoMoreThanTakenSeq(env: Env, g: seq<Node>, steps: seq<Step>, n: nat, c: Id, k: Id,
                                              j: Option<Id>,
                                              m: Marking, u: Id)
    requires n <= |steps| && ShapeSeq(steps) && AtSeq(env, g, steps, c, k, j) &&
             c <= u < c + SizeSeq(steps, n, j.Some?) && u < |g|
    requires SoundSeq(steps, n, c, j.Some?, m) && LoadSeq(steps, n, c, j.Some?, m) <= 1
    ensures Tok(m, u) <= Takes(g[u])
    decreases steps, n
  {
    hide Emit, EmitSeq, Entry, Size, Load, Sound, Takes;
    if u >= c + SizeSeq(steps, n - 1, j.Some?) {
      StepOf(env, g, steps, n - 1, c, k, j);
      NoMoreThanTaken(env, g, steps[n - 1], c + SizeSeq(steps, n - 1, j.Some?), Cont(steps, n - 1, c, k, j.Some?), j, m,
                      u);
    } else {
      NoMoreThanTakenSeq(env, g, steps, n - 1, c, k, j, m, u);
    }
  }

  lemma {:induction false} NoMoreThanTakenBlocks(env: Env, g: seq<Node>, blocks: seq<Block>, n: nat, c: Id, k: Id,
                                                 j: Option<Id>, m: Marking, u: Id)
    requires n <= |blocks| && ShapeBlocks(blocks) && Has(g, c, EmitBlocks(env, blocks, |blocks|, c, Some(k), j))
    requires c <= u < c + SizeBlocks(blocks, n, j.Some?) && u < |g|
    requires SoundBlocks(blocks, n, c, j.Some?, m) && Light(blocks, n, c, j.Some?, m)
    ensures Tok(m, u) <= Takes(g[u])
    decreases blocks, n
  {
    hide EmitSeq, EmitBlocks, SizeSeq, LoadSeq, SoundSeq, Takes;
    if u >= c + SizeBlocks(blocks, n - 1, j.Some?) {
      var steps := blocks[n - 1].steps;
      BlockPart(env, g, blocks, |blocks|, n - 1, c, k, j);
      NoMoreThanTakenSeq(env, g, steps, |steps|, c + SizeBlocks(blocks, n - 1, j.Some?), k, j, m, u);
    } else {
      NoMoreThanTakenBlocks(env, g, blocks, n - 1, c, k, j, m, u);
    }
  }

  // ---- a step that holds a token can go on ----

  /** A node that can fire, or an END that holds a token. */
  ghost predicate Alive(g: seq<Node>, m: Marking, u: Id) { Enabled(g, m, u, true) || Ended(g, m, u) }

  lemma {:induction false} SumFind(m: Marking, c: Id, n: nat) returns (u: Id)
    requires Sum(m, c, n) > 0
    ensures c <= u < c + n && Tok(m, u) > 0
  {
    if Tok(m, c + n - 1) > 0 { u := c + n - 1; } else { u := SumFind(m, c, n - 1); }
  }

  lemma {:induction false} GoesOn(env: Env, g: seq<Node>, s: Step, c: Id, k: Id, j: Option<Id>, m: Marking)
    returns (u: Id)
    requires Shape(s) && At(env, g, s, c, k, j) && |m| == |g|
    requires Sound(s, c, j.Some?, m) && Load(s, c, j.Some?, m) > 0
    ensures Alive(g, m, u)
    decreases s, 1
  {
    hide Emit, EmitSeq, EmitBlocks, LoadSeq, SoundSeq, LoadBlocks, SoundBlocks, SizeSeq, SizeBlocks, EntrySeq, Sum,
      Light;
    u := c;
    match s
    case Task(_, _, _, _, combine) =>
      TaskParts(env, g, s, c, k, j);
      u := SumFind(m, c, if combine == "" then 1 else 3);
    case Gate(_, _, _) =>
      GateParts(env, g, s, c, k, j);
      u := SumFind(m, c, if j.Some? then 1 else 2);
    case Sleep(_, _) => PlainParts(env, g, s, c, k, j);
    case SubFlow(_, _) => PlainParts(env, g, s, c, k, j);
    case Signal(_, _, escalation) =>
      SignalParts(env, g, s, c, k, j);
      if Tok(m, c) == 0 {
        AtNothing(escalation, c + 1, j.Some?, m);
        u := GoesOnSeq(env, g, escalation, |escalation|, c + 1, k, j, m);
      }
    case Fork(_, _) => u := ForkGoesOn(env, g, s, c, k, j, m);
    case ForEach(_, _, _, _) => u := ForEachGoesOn(env, g, s, c, k, j, m);
    case Choose(_) => u := ChooseGoesOn(env, g, s, c, k, j, m);
    case Loop(_, _, body) =>
      var mid := c + SizeSeq(body, |body|, j.Some?);
      LoopParts(env, g, s, c, k, j);
      if Tok(m, mid) > 0 { u := mid; } else { u := GoesOnSeq(env, g, body, |body|, c, mid, j, m); }
  }

  lemma {:induction false} ForkGoesOn(env: Env, g: seq<Node>, s: Step, c: Id, k: Id, j: Option<Id>, m: Marking)
    returns (u: Id)
    requires s.Fork? && Shape(s) && At(env, g, s, c, k, j) && |m| == |g|
    requires Sound(s, c, j.Some?, m) && Load(s, c, j.Some?, m) > 0
    ensures Alive(g, m, u)
    decreases s, 0
  {
    hide Emit, EmitBlocks, LoadBlocks, SoundBlocks, SizeBlocks, Light;
    var arms, mid := s.arms, c + 2 + SizeBlocks(s.arms, |s.arms|, true);
    ForkParts(env, g, s, c, k, j);
    if Tok(m, c) > 0 { u := c; }
    else if Tok(m, mid) > 0 { u := mid; }
    else if LoadBlocks(arms, |arms|, c + 2, true, m) > 0 {
      u := GoesOnBlocks(env, g, arms, |arms|, c + 2, c + 1, Some(c + 1), m);
    } else {
      u := c + 1;
    }
  }

  lemma {:induction false} ChooseGoesOn(env: Env, g: seq<Node>, s: Step, c: Id, k: Id, j: Option<Id>, m: Marking)
    returns (u: Id)
    requires s.Choose? && Shape(s) && At(env, g, s, c, k, j) && |m| == |g|
    requires Sound(s, c, j.Some?, m) && Load(s, c, j.Some?, m) > 0
    ensures Alive(g, m, u)
    decreases s, 0
  {
    hide Emit, EmitBlocks, LoadBlocks, SoundBlocks, SizeBlocks, Sum, EmitGuard;
    var cases, n := s.cases, Guards(s.cases);
    ChooseParts(env, g, s, c, k, j);
    if Sum(m, c, n) > 0 {
      u := SumFind(m, c, n);
      GuardOf(env, g, s, u - c, c, k, j);
      EmitGuardKind(env, cases, u - c, c, k, j);
    } else {
      u := GoesOnBlocks(env, g, cases, |cases|, c + n, k, j, m);
    }
  }

  lemma {:induction false} ForEachGoesOn(env: Env, g: seq<Node>, s: Step, c: Id, k: Id, j: Option<Id>, m: Marking)
    returns (u: Id)
    requires s.ForEach? && Shape(s) && At(env, g, s, c, k, j) && |m| == |g|
    requires Sound(s, c, j.Some?, m) && Load(s, c, j.Some?, m) > 0
    ensures Alive(g, m, u)
    decreases s, 0
  {
    hide Emit, EmitSeq, LoadSeq, SoundSeq, SizeSeq, EntrySeq, Sum;
    var body, mid := s.body, c + 2 + SizeSeq(s.body, |s.body|, true);
    ForEachParts(env, g, s, c, k, j);
    if Tok(m, mid) > 0 { u := mid; }
    else if Sum(m, c, 2) > 0 { u := SumFind(m, c, 2); }
    else { u := GoesOnSeq(env, g, body, |body|, c + 2, c + 1, Some(c + 1), m); }
  }

  lemma AtNothing(steps: seq<Step>, c: Id, inArm: bool, m: Marking)
    ensures steps == [] ==> LoadSeq(steps, |steps|, c, inArm, m) == 0 && SizeSeq(steps, |steps|, inArm) == 0
  {}

  lemma {:induction false} GoesOnSeq(env: Env, g: seq<Node>, steps: seq<Step>, n: nat, c: Id, k: Id, j: Option<Id>,
                                     m: Marking)
    returns (u: Id)
    requires n <= |steps| && ShapeSeq(steps) && AtSeq(env, g, steps, c, k, j) && |m| == |g|
    requires SoundSeq(steps, n, c, j.Some?, m) && LoadSeq(steps, n, c, j.Some?, m) > 0
    ensures Alive(g, m, u)
    decreases steps, n
  {
    hide Emit, EmitSeq, Entry, Size, Load, Sound, Alive;
    var s, ci := steps[n - 1], c + SizeSeq(steps, n - 1, j.Some?);
    if Load(s, ci, j.Some?, m) > 0 {
      StepOf(env, g, steps, n - 1, c, k, j);
      u := GoesOn(env, g, s, ci, Cont(steps, n - 1, c, k, j.Some?), j, m);
    } else {
      u := GoesOnSeq(env, g, steps, n - 1, c, k, j, m);
    }
  }

  lemma {:induction false} GoesOnBlocks(env: Env, g: seq<Node>, blocks: seq<Block>, n: nat, c: Id, k: Id, j: Option<Id>,
                                        m: Marking)
    returns (u: Id)
    requires n <= |blocks| && ShapeBlocks(blocks) && Has(g, c, EmitBlocks(env, blocks, |blocks|, c, Some(k), j)) &&
             |m| == |g|
    requires SoundBlocks(blocks, n, c, j.Some?, m) && LoadBlocks(blocks, n, c, j.Some?, m) > 0
    ensures Alive(g, m, u)
    decreases blocks, n
  {
    hide EmitSeq, EmitBlocks, SizeSeq, LoadSeq, SoundSeq, Alive;
    if LoadBlock(blocks, n - 1, c, j.Some?, m) > 0 {
      BlockPart(env, g, blocks, |blocks|, n - 1, c, k, j);
      u := GoesOnSeq(env, g, blocks[n - 1].steps, |blocks[n - 1].steps|, c + SizeBlocks(blocks, n - 1, j.Some?), k, j,
                     m);
    } else {
      u := GoesOnBlocks(env, g, blocks, n - 1, c, k, j, m);
    }
  }

  // ---- every run of a program ----

  /** One node's turn to fire, with the answer it got. */
  datatype Turn = Turn(node: Id, yes: bool)

  /**
   * The marking after the first n firings of a run, in whatever order they come; None if one of them could not happen.
   */
  ghost function Run(g: seq<Node>, start: Id, run: seq<Turn>, n: nat): (m: Option<Marking>)
    requires n <= |run|
    ensures m.Some? ==> |m.value| == |g|
  {
    if n == 0 then Some(Put(seq(|g|, _ => 0), start))
    else
      var m, f := Run(g, start, run, n - 1), run[n - 1];
      if m.Some? && Enabled(g, m.value, f.node, f.yes) then Some(Fire(g, m.value, f.node, f.yes)) else None
  }

  /** The tokens of a program add up to one for the whole flow, and within every fork to one for each arm. */
  ghost predicate Balanced(steps: seq<Step>, m: Marking) {
    var last := SizeSeq(steps, |steps|, false);
    && |m| == last + 1 && SoundSeq(steps, |steps|, 0, false, m)
    && LoadSeq(steps, |steps|, 0, false, m) + m[last] == 1
  }

  lemma {:induction false} NothingIsSound(steps: seq<Step>, n: nat, c: Id, inArm: bool, m: Marking)
    requires n <= |steps| && Empty(m, c, c + SizeSeq(steps, n, inArm))
    ensures SoundSeq(steps, n, c, inArm, m) && LoadSeq(steps, n, c, inArm, m) == 0
    decreases steps, n
  {
    hide Load, Sound, Size;
    if n > 0 {
      NothingIsSound(steps, n - 1, c, inArm, m);
      NothingInStep(steps[n - 1], c + SizeSeq(steps, n - 1, inArm), inArm, m);
    }
  }

  lemma {:induction false} NoSum(m: Marking, c: Id, n: nat)
    requires Empty(m, c, c + n)
    ensures Sum(m, c, n) == 0
  {
    if n > 0 { NoSum(m, c, n - 1); }
  }

  lemma {:induction false} NothingInStep(s: Step, c: Id, inArm: bool, m: Marking)
    requires Empty(m, c, c + Size(s, inArm))
    ensures Sound(s, c, inArm, m) && Load(s, c, inArm, m) == 0
    decreases s
  {
    hide LoadSeq, LoadBlocks, SoundSeq, SoundBlocks, Light, Sum, SizeSeq, SizeBlocks;
    match s
    case Task(_, _, _, _, combine) => NoSum(m, c, if combine == "" then 1 else 3);
    case Gate(_, _, _) => NoSum(m, c, if inArm then 1 else 2);
    case Sleep(_, _) =>
    case SubFlow(_, _) =>
    case Signal(_, _, escalation) => NothingIsSound(escalation, |escalation|, c + 1, inArm, m);
    case Fork(arms, _) => NothingInBlocks(arms, |arms|, c + 2, true, m);
    case ForEach(_, _, body, _) =>
      NoSum(m, c, 2);
      NothingIsSound(body, |body|, c + 2, true, m);
    case Choose(cases) =>
      NoSum(m, c, Guards(cases));
      NothingInBlocks(cases, |cases|, c + Guards(cases), inArm, m);
    case Loop(_, _, body) => NothingIsSound(body, |body|, c, inArm, m);
  }

  lemma {:induction false} NothingInBlocks(blocks: seq<Block>, n: nat, c: Id, inArm: bool, m: Marking)
    requires n <= |blocks| && Empty(m, c, c + SizeBlocks(blocks, n, inArm))
    ensures SoundBlocks(blocks, n, c, inArm, m) && LoadBlocks(blocks, n, c, inArm, m) == 0 &&
            Light(blocks, n, c, inArm, m)
    decreases blocks, n
  {
    hide LoadSeq, SoundSeq, SizeSeq;
    if n > 0 {
      NothingInBlocks(blocks, n - 1, c, inArm, m);
      NothingIsSound(blocks[n - 1].steps, |blocks[n - 1].steps|, c + SizeBlocks(blocks, n - 1, inArm), inArm, m);
    }
  }

  /** Every marking of every run, in every interleaving, is balanced. */
  lemma {:induction false} RunsAreBalanced(env: Env, steps: seq<Step>, run: seq<Turn>, n: nat)
    requires steps != [] && ShapeSeq(steps) && n <= |run|
    ensures var m := Run(Program(env, steps), EntrySeq(steps, 0), run, n); m.Some? ==> Balanced(steps, m.value)
  {
    hide EmitSeq, SizeSeq, EntrySeq, LoadSeq, SoundSeq, Fire, Enabled;
    var g, last, start := Program(env, steps), SizeSeq(steps, |steps|, false), EntrySeq(steps, 0);
    ProgramParts(env, steps);
    if n == 0 {
      var none := seq(|g|, _ => 0);
      NothingIsSound(steps, |steps|, 0, false, none);
      EnterSeq(env, g, steps, 0, last, None, none);
      EntrySeqIsStep(env, g, steps, 0, last, None);
    } else {
      RunsAreBalanced(env, steps, run, n - 1);
      var was, f := Run(g, start, run, n - 1), run[n - 1];
      if was.Some? && Enabled(g, was.value, f.node, f.yes) { KeepsBalance(env, steps, was.value, f.node, f.yes); }
    }
  }

  /** Every node that fires keeps the balance. */
  lemma KeepsBalance(env: Env, steps: seq<Step>, m: Marking, u: Id, yes: bool)
    requires steps != [] && ShapeSeq(steps) && Balanced(steps, m) && Enabled(Program(env, steps), m, u, yes)
    ensures Balanced(steps, Fire(Program(env, steps), m, u, yes))
  {
    hide EmitSeq, SizeSeq, LoadSeq, SoundSeq, Fire;
    var g, last := Program(env, steps), SizeSeq(steps, |steps|, false);
    ProgramParts(env, steps);
    var out := FireSeq(env, g, steps, |steps|, 0, last, last, None, m, u, yes);
    PutAt(m, last);
    assert out.Some? ==> out.value == last;
  }

  /**
   * However the arms interleave: a run that reached an END holds that token and no other, nowhere; a run that did
   * not can go on. So a run that cannot go on has ended, once, and has stranded no token.
   */
  lemma RunsEndOnce(env: Env, steps: seq<Step>, run: seq<Turn>)
    requires steps != [] && ShapeSeq(steps)
    ensures var g := Program(env, steps);
            var m := Run(g, EntrySeq(steps, 0), run, |run|);
            m.Some? ==>
              if exists u: Id :: Ended(g, m.value, u)
              then exists u: Id :: Ended(g, m.value, u) && Only(m.value, 0, |g|, u)
              else exists u: Id :: Enabled(g, m.value, u, true)
  {
    hide EmitSeq, SizeSeq, LoadSeq, SoundSeq, Enabled, EntrySeq;
    var g, last := Program(env, steps), SizeSeq(steps, |steps|, false);
    var m := Run(g, EntrySeq(steps, 0), run, |run|);
    ProgramParts(env, steps);
    if m.Some? {
      RunsAreBalanced(env, steps, run, |run|);
      if u: Id :| Ended(g, m.value, u) {
        if u == last {
          EmptySeq(steps, |steps|, 0, false, m.value);
        } else {
          EndIsLastSeq(env, g, steps, |steps|, 0, last, None, m.value, u);
        }
        assert Only(m.value, 0, |g|, u);
      } else {
        assert !Ended(g, m.value, last);
        var u := GoesOnSeq(env, g, steps, |steps|, 0, last, None, m.value);
        assert Enabled(g, m.value, u, true);
      }
    }
  }

  /** In every run, every node but a join of a fork holds at most one token, and that join at most one for each arm. */
  lemma RunsOverfillNothing(env: Env, steps: seq<Step>, run: seq<Turn>, u: Id)
    requires steps != [] && ShapeSeq(steps) && u < |Program(env, steps)|
    ensures var g := Program(env, steps);
            var m := Run(g, EntrySeq(steps, 0), run, |run|);
            m.Some? ==> m.value[u] <= Takes(g[u])
  {
    hide EmitSeq, SizeSeq, LoadSeq, SoundSeq, EntrySeq;
    var g, last := Program(env, steps), SizeSeq(steps, |steps|, false);
    var m := Run(g, EntrySeq(steps, 0), run, |run|);
    ProgramParts(env, steps);
    if m.Some? {
      RunsAreBalanced(env, steps, run, |run|);
      if u < last { NoMoreThanTakenSeq(env, g, steps, |steps|, 0, last, None, m.value, u); }
    }
  }
}
