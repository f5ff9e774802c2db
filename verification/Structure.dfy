/**
 * The shape of every compiled graph: no edge dangles, edges stay inside the step they belong to, and loops are the
 * only cycles.
 */
module Structure {
  import opened Topology
  import opened Layout
  import opened WellFormed
  import opened Placement

  /** There is an edge from u to v. */
  ghost predicate EdgeTo(g: seq<Node>, u: Id, v: Id) {
    u < |g| && (g[u].next == Some(v) || g[u].alt == Some(v) || v in g[u].branches)
  }

  predicate IsCondition(n: Node) { n.info.Work? && n.info.loopBudget.Some? }

  /** The true edge of a loop's condition, back to the start of its body. */
  ghost predicate BackEdge(g: seq<Node>, u: Id, v: Id) {
    u < |g| && IsCondition(g[u]) && g[u].next == Some(v) && g[u].alt != Some(v)
  }

  /** Every edge the kind of a node requires is set. */
  ghost predicate Complete(n: Node) {
    match n.kind
    case PREDICATE => n.next.Some? && n.alt.Some?
    case FORK => |n.branches| >= 2
    case DYN_FORK => n.next.Some? && |n.branches| == 1
    case END => n.next.None? && n.alt.None? && n.branches == []
    case _ => n.next.Some?
  }

  /**
   * A place in an order every edge but the loops' back edges goes up in. Ids will not do: a join has a smaller
   * id than its arms, so it is placed just before the combine it goes on to.
   */
  function Rank(g: seq<Node>, u: Id): int {
    if u < |g| && g[u].kind == JOIN && g[u].next.Some? then 2 * g[u].next.value - 1 else 2 * u
  }

  /** A node of a fragment at ids lo to hi-1 that goes on to k, or to j when stopped. */
  ghost predicate Local(g: seq<Node>, u: Id, lo: Id, hi: Id, k: Id, j: Option<Id>) {
    && u < |g| && Complete(g[u])
    && (g[u].kind == END ==> j.None?)
    && (forall v: Id :: EdgeTo(g, u, v) ==> (lo <= v < hi || v == k || j == Some(v)))
    && (forall v: Id :: EdgeTo(g, u, v) && !BackEdge(g, u, v) ==> Rank(g, u) < Rank(g, v))
  }

  /** A place the fragment up to id hi-1 may go on to. */
  ghost predicate Onward(g: seq<Node>, hi: Id, k: Id) {
    k < |g| && Rank(g, k) >= 2 * hi - 1
  }

  ghost predicate Contained(g: seq<Node>, lo: Id, hi: Id, k: Id, j: Option<Id>) {
    hi <= |g| && forall u :: lo <= u < hi ==> Local(g, u, lo, hi, k, j)
  }

  /** A fragment inside a larger one. */
  lemma Widen(g: seq<Node>, u: Id, lo: Id, hi: Id, k: Id, j: Option<Id>, lo': Id, hi': Id, k': Id, j': Option<Id>)
    requires Local(g, u, lo, hi, k, j) && lo' <= lo && hi <= hi'
    requires lo' <= k < hi' || k == k' || Some(k) == j'
    requires j == j' || (j.Some? && lo' <= j.value < hi')
    ensures Local(g, u, lo', hi', k', j')
  {}

  // ---- a step is entered at a node of its own that is no join and no END ----

  lemma {:induction false} EntryIsStep(env: Env, g: seq<Node>, s: Step, c: Id, k: Id, j: Option<Id>)
    requires At(env, g, s, c, k, j) && Shape(s)
    ensures c <= Entry(s, c) < c + Size(s, j.Some?) <= |g|
    ensures g[Entry(s, c)].kind != JOIN && g[Entry(s, c)].kind != END
    ensures Rank(g, Entry(s, c)) == 2 * Entry(s, c)
    decreases s
  {
    hide Emit, EmitSeq, EmitBlocks, BlockStart, Starts;
    match s
    case Task(_, _, _, _, _) => TaskParts(env, g, s, c, k, j);
    case Gate(_, _, _) => GateParts(env, g, s, c, k, j);
    case Sleep(_, _) => PlainParts(env, g, s, c, k, j);
    case SubFlow(_, _) => PlainParts(env, g, s, c, k, j);
    case Signal(_, _, _) => SignalParts(env, g, s, c, k, j);
    case Fork(_, _) => ForkParts(env, g, s, c, k, j);
    case ForEach(_, _, _, _) => ForEachParts(env, g, s, c, k, j);
    case Choose(_) => GuardOf(env, g, s, 0, c, k, j);
    case Loop(_, _, body) =>
      LoopParts(env, g, s, c, k, j);
      EntrySeqIsStep(env, g, body, c, c + SizeSeq(body, |body|, j.Some?), j);
  }

  lemma {:induction false} EntrySeqIsStep(env: Env, g: seq<Node>, steps: seq<Step>, c: Id, k: Id, j: Option<Id>)
    requires AtSeq(env, g, steps, c, k, j) && ShapeSeq(steps) && steps != []
    ensures c <= EntrySeq(steps, c) < c + SizeSeq(steps, |steps|, j.Some?) <= |g|
    ensures g[EntrySeq(steps, c)].kind != JOIN && g[EntrySeq(steps, c)].kind != END
    ensures Rank(g, EntrySeq(steps, c)) == 2 * EntrySeq(steps, c)
    decreases steps
  {
    hide Emit, EmitSeq;
    StepOf(env, g, steps, 0, c, k, j);
    assert SizeSeq(steps, 0, j.Some?) == 0 && SizeSeq(steps, 1, j.Some?) == Size(steps[0], j.Some?);
    EntryIsStep(env, g, steps[0], c, Cont(steps, 0, c, k, j.Some?), j);
    SizeGrows(steps, 1, |steps|, j.Some?);
  }

  lemma {:induction false} SizeGrows(steps: seq<Step>, i: nat, n: nat, inArm: bool)
    requires i <= n <= |steps|
    ensures SizeSeq(steps, i, inArm) <= SizeSeq(steps, n, inArm)
  {
    if i < n { SizeGrows(steps, i, n - 1, inArm); }
  }

  lemma {:induction false} SizeBlocksGrows(blocks: seq<Block>, i: nat, n: nat, inArm: bool)
    requires i <= n <= |blocks|
    ensures SizeBlocks(blocks, i, inArm) <= SizeBlocks(blocks, n, inArm)
  {
    if i < n { SizeBlocksGrows(blocks, i, n - 1, inArm); }
  }

  /** The step an id of a sequence belongs to. */
  lemma {:induction false} StepAt(steps: seq<Step>, n: nat, c: Id, inArm: bool, u: Id) returns (i: nat)
    requires n <= |steps| && c <= u < c + SizeSeq(steps, n, inArm)
    ensures i < n && c + SizeSeq(steps, i, inArm) <= u < c + SizeSeq(steps, i + 1, inArm)
  {
    i := n - 1;
    if u < c + SizeSeq(steps, n - 1, inArm) { i := StepAt(steps, n - 1, c, inArm, u); }
  }

  /** The block an id of blocks laid out side by side belongs to. */
  lemma {:induction false} BlockAt(blocks: seq<Block>, n: nat, c: Id, inArm: bool, u: Id) returns (i: nat)
    requires n <= |blocks| && c <= u < c + SizeBlocks(blocks, n, inArm)
    ensures i < n && c + SizeBlocks(blocks, i, inArm) <= u < c + SizeBlocks(blocks, i + 1, inArm)
  {
    i := n - 1;
    if u < c + SizeBlocks(blocks, n - 1, inArm) { i := BlockAt(blocks, n - 1, c, inArm, u); }
  }

  // ---- edges stay inside a fragment, are complete, and go up in rank ----

  /** What the local lemmas need: the fragment is in the graph, and where it goes on to is above it. */
  ghost predicate Fits(env: Env, g: seq<Node>, s: Step, c: Id, k: Id, j: Option<Id>) {
    && Shape(s) && At(env, g, s, c, k, j)
    && Onward(g, c + Size(s, j.Some?), k) && (j.Some? ==> Onward(g, c + Size(s, j.Some?), j.value))
  }

  lemma LocalTask(env: Env, g: seq<Node>, s: Step, c: Id, k: Id, j: Option<Id>)
    requires s.Task? && Fits(env, g, s, c, k, j)
    ensures Contained(g, c, c + Size(s, j.Some?), k, j)
  {
    TaskParts(env, g, s, c, k, j);
  }

  lemma LocalGate(env: Env, g: seq<Node>, s: Step, c: Id, k: Id, j: Option<Id>)
    requires s.Gate? && Fits(env, g, s, c, k, j)
    ensures Contained(g, c, c + Size(s, j.Some?), k, j)
  {
    GateParts(env, g, s, c, k, j);
  }

  lemma LocalPlain(env: Env, g: seq<Node>, s: Step, c: Id, k: Id, j: Option<Id>)
    requires (s.Sleep? || s.SubFlow?) && Fits(env, g, s, c, k, j)
    ensures Contained(g, c, c + Size(s, j.Some?), k, j)
  {
    PlainParts(env, g, s, c, k, j);
  }

  lemma {:induction false} LocalSignal(env: Env, g: seq<Node>, s: Step, c: Id, k: Id, j: Option<Id>)
    requires s.Signal? && Fits(env, g, s, c, k, j)
    ensures Contained(g, c, c + Size(s, j.Some?), k, j)
    decreases s, 0
  {
    hide Emit, EmitSeq, EntrySeq;
    SignalParts(env, g, s, c, k, j);
    var hi, esc := c + Size(s, j.Some?), s.escalation;
    assert hi == c + 1 + SizeSeq(esc, |esc|, j.Some?);
    if esc == [] {
      assert hi == c + 1;
    } else {
      EntrySeqIsStep(env, g, esc, c + 1, k, j);
      LocalSeq(env, g, esc, c + 1, k, j);
    }
    assert Local(g, c, c, hi, k, j);
    forall u | c <= u < hi ensures Local(g, u, c, hi, k, j) {
      if u > c {
        assert Local(g, u, c + 1, hi, k, j);
        Widen(g, u, c + 1, hi, k, j, c, hi, k, j);
      }
    }
  }

  lemma {:induction false} LocalFork(env: Env, g: seq<Node>, s: Step, c: Id, k: Id, j: Option<Id>)
    requires s.Fork? && Fits(env, g, s, c, k, j)
    ensures Contained(g, c, c + Size(s, j.Some?), k, j)
    decreases s, 0
  {
    hide Emit, EmitSeq, EmitBlocks, Local, Starts;
    ForkParts(env, g, s, c, k, j);
    var hi := c + Size(s, j.Some?);
    forall u | c <= u < hi ensures Local(g, u, c, hi, k, j) {
      if c + 2 <= u < hi - 1 { LocalInArm(env, g, s, c, k, j, u); } else { LocalForkEnds(env, g, s, c, k, j, u); }
    }
  }

  /** The fork, its join and its combine. */
  lemma LocalForkEnds(env: Env, g: seq<Node>, s: Step, c: Id, k: Id, j: Option<Id>, u: Id)
    requires s.Fork? && Fits(env, g, s, c, k, j)
    requires u == c || u == c + 1 || u == c + Size(s, j.Some?) - 1
    ensures Local(g, u, c, c + Size(s, j.Some?), k, j)
  {
    hide Emit, EmitSeq, EmitBlocks, BlockStart;
    ForkParts(env, g, s, c, k, j);
    forall v | v in g[c].branches ensures c + 2 <= v < c + Size(s, j.Some?) - 1 && Rank(g, v) == 2 * v {
      var i :| 0 <= i < |s.arms| && v == BlockStart(s.arms, i, c + 2, true);
      ArmEntry(env, g, s, i, c, k, j);
    }
  }

  lemma ArmEntry(env: Env, g: seq<Node>, s: Step, i: nat, c: Id, k: Id, j: Option<Id>)
    requires s.Fork? && i < |s.arms| && Shape(s) && At(env, g, s, c, k, j)
    ensures var v, ci := BlockStart(s.arms, i, c + 2, true), c + 2 + SizeBlocks(s.arms, i, true);
            && c + 2 <= ci <= v < c + 2 + SizeBlocks(s.arms, i + 1, true) < c + Size(s, j.Some?) <= |g|
            && Rank(g, v) == 2 * v
  {
    hide Emit, EmitSeq, EmitBlocks;
    ForkParts(env, g, s, c, k, j);
    ArmOf(env, g, s, i, c, k, j);
    BlockShape(s.arms, i);
    SizeBlocksGrows(s.arms, i + 1, |s.arms|, true);
    EntrySeqIsStep(env, g, s.arms[i].steps, c + 2 + SizeBlocks(s.arms, i, true), c + 1, Some(c + 1));
  }

  lemma BlockShape(blocks: seq<Block>, i: nat)
    requires ShapeBlocks(blocks) && i < |blocks|
    ensures ShapeSeq(blocks[i].steps) && blocks[i].steps != []
  {}

  lemma {:induction false} LocalInArm(env: Env, g: seq<Node>, s: Step, c: Id, k: Id, j: Option<Id>, u: Id)
    requires s.Fork? && Fits(env, g, s, c, k, j)
    requires c + 2 <= u < c + 2 + SizeBlocks(s.arms, |s.arms|, true)
    ensures Local(g, u, c, c + Size(s, j.Some?), k, j)
    decreases s.arms, |s.arms| + 1
  {
    hide Emit, EmitSeq, EmitBlocks, SizeSeq, Local;
    ForkParts(env, g, s, c, k, j);
    var i := BlockAt(s.arms, |s.arms|, c + 2, true, u);
    var ci, steps := c + 2 + SizeBlocks(s.arms, i, true), s.arms[i].steps;
    ArmOf(env, g, s, i, c, k, j);
    BlockShape(s.arms, i);
    SizeBlocksGrows(s.arms, i + 1, |s.arms|, true);
    LocalSeq(env, g, steps, ci, c + 1, Some(c + 1));
    Widen(g, u, ci, ci + SizeSeq(steps, |steps|, true), c + 1, Some(c + 1), c, c + Size(s, j.Some?), k, j);
  }

  lemma {:induction false} LocalForEach(env: Env, g: seq<Node>, s: Step, c: Id, k: Id, j: Option<Id>)
    requires s.ForEach? && Fits(env, g, s, c, k, j)
    ensures Contained(g, c, c + Size(s, j.Some?), k, j)
    decreases s, 0
  {
    hide Emit, EmitSeq, Local;
    ForEachParts(env, g, s, c, k, j);
    var hi, m := c + Size(s, j.Some?), c + 2 + SizeSeq(s.body, |s.body|, true);
    LocalSeq(env, g, s.body, c + 2, c + 1, Some(c + 1));
    forall u | c <= u < hi ensures Local(g, u, c, hi, k, j) {
      if c + 2 <= u < m {
        Widen(g, u, c + 2, m, c + 1, Some(c + 1), c, hi, k, j);
      } else {
        LocalForEachEnds(env, g, s, c, k, j, u);
      }
    }
  }

  /** The forEach's fork, its join and its combine. */
  lemma LocalForEachEnds(env: Env, g: seq<Node>, s: Step, c: Id, k: Id, j: Option<Id>, u: Id)
    requires s.ForEach? && Fits(env, g, s, c, k, j)
    requires u == c || u == c + 1 || u == c + Size(s, j.Some?) - 1
    ensures Local(g, u, c, c + Size(s, j.Some?), k, j)
  {
    hide Emit, EmitSeq, EntrySeq;
    ForEachParts(env, g, s, c, k, j);
    EntrySeqIsStep(env, g, s.body, c + 2, c + 1, Some(c + 1));
  }

  lemma {:induction false} LocalChoose(env: Env, g: seq<Node>, s: Step, c: Id, k: Id, j: Option<Id>)
    requires s.Choose? && Fits(env, g, s, c, k, j)
    ensures Contained(g, c, c + Size(s, j.Some?), k, j)
    decreases s, 0
  {
    hide Emit, EmitSeq, EmitBlocks;
    ChooseParts(env, g, s, c, k, j);
    var hi := c + Size(s, j.Some?);
    forall u | c <= u < hi ensures Local(g, u, c, hi, k, j) {
      if u < c + Guards(s.cases) {
        LocalGuard(env, g, s, u - c, c, k, j);
      } else {
        LocalInCase(env, g, s, c, k, j, u);
      }
    }
  }

  lemma CaseEntry(env: Env, g: seq<Node>, s: Step, i: nat, c: Id, k: Id, j: Option<Id>)
    requires s.Choose? && i < |s.cases| && Fits(env, g, s, c, k, j)
    ensures var v := BlockStart(s.cases, i, c + Guards(s.cases), j.Some?);
            c + Guards(s.cases) <= v < c + Size(s, j.Some?) <= |g| && Rank(g, v) == 2 * v
  {
    hide Emit, EmitSeq, EmitBlocks;
    CaseOf(env, g, s, i, c, k, j);
    BlockShape(s.cases, i);
    SizeBlocksGrows(s.cases, i + 1, |s.cases|, j.Some?);
    ChooseParts(env, g, s, c, k, j);
    EntrySeqIsStep(env, g, s.cases[i].steps, c + Guards(s.cases) + SizeBlocks(s.cases, i, j.Some?), k, j);
  }

  lemma LocalGuard(env: Env, g: seq<Node>, s: Step, i: nat, c: Id, k: Id, j: Option<Id>)
    requires s.Choose? && i < Guards(s.cases) && Fits(env, g, s, c, k, j)
    ensures Local(g, c + i, c, c + Size(s, j.Some?), k, j)
  {
    hide Emit, EmitSeq, EmitBlocks, BlockStart, Size, SizeBlocks, ShapeBlocks, Has;
    GuardOf(env, g, s, i, c, k, j);
    CaseEntry(env, g, s, i, c, k, j);
    if i + 1 < Guards(s.cases) {
      GuardOf(env, g, s, i + 1, c, k, j);
    } else if HasDefault(s.cases) {
      CaseEntry(env, g, s, i + 1, c, k, j);
    }
  }

  lemma {:induction false} LocalInCase(env: Env, g: seq<Node>, s: Step, c: Id, k: Id, j: Option<Id>, u: Id)
    requires s.Choose? && Fits(env, g, s, c, k, j)
    requires c + Guards(s.cases) <= u < c + Size(s, j.Some?)
    ensures Local(g, u, c, c + Size(s, j.Some?), k, j)
    decreases s.cases, |s.cases| + 1
  {
    hide Emit, EmitSeq, EmitBlocks;
    var b := c + Guards(s.cases);
    var i := BlockAt(s.cases, |s.cases|, b, j.Some?, u);
    var ci, steps := b + SizeBlocks(s.cases, i, j.Some?), s.cases[i].steps;
    CaseOf(env, g, s, i, c, k, j);
    BlockShape(s.cases, i);
    SizeBlocksGrows(s.cases, i + 1, |s.cases|, j.Some?);
    LocalSeq(env, g, steps, ci, k, j);
    Widen(g, u, ci, ci + SizeSeq(steps, |steps|, j.Some?), k, j, c, c + Size(s, j.Some?), k, j);
  }

  lemma {:induction false} LocalLoop(env: Env, g: seq<Node>, s: Step, c: Id, k: Id, j: Option<Id>)
    requires s.Loop? && Fits(env, g, s, c, k, j)
    ensures Contained(g, c, c + Size(s, j.Some?), k, j)
    decreases s, 0
  {
    hide Emit, EmitSeq;
    LoopParts(env, g, s, c, k, j);
    var hi, m := c + Size(s, j.Some?), c + SizeSeq(s.body, |s.body|, j.Some?);
    EntrySeqIsStep(env, g, s.body, c, m, j);
    LocalSeq(env, g, s.body, c, m, j);
    forall u | c <= u < hi ensures Local(g, u, c, hi, k, j) {
      if u < m { Widen(g, u, c, m, m, j, c, hi, k, j); }
    }
  }

  lemma {:induction false} LocalStep(env: Env, g: seq<Node>, s: Step, c: Id, k: Id, j: Option<Id>)
    requires Fits(env, g, s, c, k, j)
    ensures Contained(g, c, c + Size(s, j.Some?), k, j)
    decreases s, 1
  {
    hide Emit, EmitSeq, EmitBlocks, Size;
    match s
    case Task(_, _, _, _, _) => LocalTask(env, g, s, c, k, j);
    case Gate(_, _, _) => LocalGate(env, g, s, c, k, j);
    case Sleep(_, _) => LocalPlain(env, g, s, c, k, j);
    case SubFlow(_, _) => LocalPlain(env, g, s, c, k, j);
    case Signal(_, _, _) => LocalSignal(env, g, s, c, k, j);
    case Fork(_, _) => LocalFork(env, g, s, c, k, j);
    case ForEach(_, _, _, _) => LocalForEach(env, g, s, c, k, j);
    case Choose(_) => LocalChoose(env, g, s, c, k, j);
    case Loop(_, _, _) => LocalLoop(env, g, s, c, k, j);
  }

  lemma {:induction false} LocalSeq(env: Env, g: seq<Node>, steps: seq<Step>, c: Id, k: Id, j: Option<Id>)
    requires ShapeSeq(steps) && AtSeq(env, g, steps, c, k, j)
    requires var hi := c + SizeSeq(steps, |steps|, j.Some?);
             Onward(g, hi, k) && (j.Some? ==> Onward(g, hi, j.value))
    ensures Contained(g, c, c + SizeSeq(steps, |steps|, j.Some?), k, j)
    decreases steps, 0
  {
    hide Emit, EmitSeq, Size, SizeSeq, Local, Onward;
    var hi := c + SizeSeq(steps, |steps|, j.Some?);
    InGraph(env, g, steps, c, k, j);
    forall u | c <= u < hi ensures Local(g, u, c, hi, k, j) {
      var i := StepAt(steps, |steps|, c, j.Some?, u);
      var ci, next := StepFits(env, g, steps, i, c, k, j);
      LocalStep(env, g, steps[i], ci, next, j);
      Widen(g, u, ci, ci + Size(steps[i], j.Some?), next, j, c, hi, k, j);
    }
  }

  lemma InGraph(env: Env, g: seq<Node>, steps: seq<Step>, c: Id, k: Id, j: Option<Id>)
    requires AtSeq(env, g, steps, c, k, j)
    ensures c + SizeSeq(steps, |steps|, j.Some?) <= |g|
  {}

  /** Step i of a sequence fits: it goes on to the next, which is above it. */
  lemma StepFits(env: Env, g: seq<Node>, steps: seq<Step>, i: nat, c: Id, k: Id, j: Option<Id>)
    returns (ci: Id, next: Id)
    requires i < |steps| && ShapeSeq(steps) && AtSeq(env, g, steps, c, k, j)
    requires var hi := c + SizeSeq(steps, |steps|, j.Some?);
             Onward(g, hi, k) && (j.Some? ==> Onward(g, hi, j.value))
    ensures ci == c + SizeSeq(steps, i, j.Some?) && ci + Size(steps[i], j.Some?) == c + SizeSeq(steps, i + 1, j.Some?)
    ensures c <= ci && ci + Size(steps[i], j.Some?) <= c + SizeSeq(steps, |steps|, j.Some?)
    ensures next == Cont(steps, i, c, k, j.Some?) && Fits(env, g, steps[i], ci, next, j)
    ensures i + 1 < |steps| ==> c <= next < c + SizeSeq(steps, |steps|, j.Some?)
    ensures i + 1 == |steps| ==> next == k
  {
    hide Emit, EmitSeq, Entry, Size;
    ci, next := c + SizeSeq(steps, i, j.Some?), Cont(steps, i, c, k, j.Some?);
    StepOf(env, g, steps, i, c, k, j);
    SizeGrows(steps, i + 1, |steps|, j.Some?);
    if i + 1 < |steps| { NextEntry(env, g, steps, i + 1, c, k, j); }
  }

  lemma SizeWith(steps: seq<Step>, i: nat, inArm: bool)
    requires i < |steps|
    ensures SizeSeq(steps, i + 1, inArm) == SizeSeq(steps, i, inArm) + Size(steps[i], inArm)
  {}

  lemma NextEntry(env: Env, g: seq<Node>, steps: seq<Step>, i: nat, c: Id, k: Id, j: Option<Id>)
    requires i < |steps| && ShapeSeq(steps) && AtSeq(env, g, steps, c, k, j)
    ensures var ci := c + SizeSeq(steps, i, j.Some?);
            ci <= Entry(steps[i], ci) < c + SizeSeq(steps, |steps|, j.Some?) <= |g| &&
            Rank(g, Entry(steps[i], ci)) == 2 * Entry(steps[i], ci)
  {
    hide AtSeq, At, Entry, Size, SizeSeq, Rank, Shape, Cont;
    StepOf(env, g, steps, i, c, k, j);
    SizeWith(steps, i, j.Some?);
    EntryIsStep(env, g, steps[i], c + SizeSeq(steps, i, j.Some?), Cont(steps, i, c, k, j.Some?), j);
    SizeGrows(steps, i + 1, |steps|, j.Some?);
    InGraph(env, g, steps, c, k, j);
  }

  // ---- whole flows ----

  lemma ProgramLocal(env: Env, steps: seq<Step>)
    requires ShapeSeq(steps)
    ensures var g, m := Program(env, steps), SizeSeq(steps, |steps|, false); Contained(g, 0, m, m, None)
  {
    hide Emit, EmitSeq, Program, Contained;
    ProgramParts(env, steps);
    LocalSeq(env, Program(env, steps), steps, 0, SizeSeq(steps, |steps|, false), None);
  }

  /** No edge is left open: every edge a node's kind requires is set, and every edge goes to a node. */
  lemma EdgesComplete(env: Env, steps: seq<Step>, u: Id)
    requires ShapeSeq(steps) && u < |Program(env, steps)|
    ensures var g := Program(env, steps);
            Complete(g[u]) && forall v: Id :: EdgeTo(g, u, v) ==> v < |g|
  {
    hide Emit, EmitSeq, Program;
    ProgramParts(env, steps);
    ProgramLocal(env, steps);
    assert u < SizeSeq(steps, |steps|, false) ==>
      Local(Program(env, steps), u, 0, |Program(env, steps)| - 1, |Program(env, steps)| - 1, None);
  }

  /** Every edge but a loop's back edge goes up in rank. */
  ghost predicate Ranked(g: seq<Node>) {
    forall u: Id, v: Id :: EdgeTo(g, u, v) && !BackEdge(g, u, v) ==> Rank(g, u) < Rank(g, v)
  }

  lemma ProgramRanked(env: Env, steps: seq<Step>)
    requires ShapeSeq(steps)
    ensures Ranked(Program(env, steps))
  {
    hide Emit, EmitSeq, Program, Rank;
    var g, m := Program(env, steps), SizeSeq(steps, |steps|, false);
    ProgramParts(env, steps);
    ProgramLocal(env, steps);
    forall u: Id, v: Id | EdgeTo(g, u, v) && !BackEdge(g, u, v) ensures Rank(g, u) < Rank(g, v) {
      if u < m { assert Local(g, u, 0, m, m, None); }
    }
  }

  /** A walk along the edges of the graph. */
  ghost predicate Path(g: seq<Node>, p: seq<Id>) {
    && p != []
    && (forall i :: 0 <= i < |p| ==> p[i] < |g|)
    && (forall i :: 0 < i < |p| ==> EdgeTo(g, p[i - 1], p[i]))
  }

  /** How many of the first n visits of a walk were reached by a back edge. */
  ghost function BackSteps(g: seq<Node>, p: seq<Id>, n: nat): nat
    requires n <= |p|
  {
    if n <= 1 then 0 else BackSteps(g, p, n - 1) + (if BackEdge(g, p[n - 2], p[n - 1]) then 1 else 0)
  }

  /** The nodes ranked no higher than u. */
  ghost function Under(g: seq<Node>, u: Id): set<Id> {
    set v: Id | v < |g| && Rank(g, v) <= Rank(g, u)
  }

  ghost function Upto(n: nat): (ids: set<Id>)
    ensures |ids| == n && forall v: Id :: v in ids <==> v < n
  {
    if n == 0 then {} else Upto(n - 1) + {n - 1}
  }

  lemma Larger<T>(a: set<T>, b: set<T>)
    requires a <= b
    ensures |a| <= |b| && (a != b ==> |a| < |b|)
  {
    assert |b| == |a| + |b - a| by { assert b == a + (b - a); }
    if a != b { var x :| x in b - a; assert b - a == {x} + (b - a - {x}); }
  }

  lemma UnderSize(g: seq<Node>, u: Id)
    requires u < |g|
    ensures 1 <= |Under(g, u)| <= |g|
  {
    Larger(Under(g, u), Upto(|g|));
    Larger({u}, Under(g, u));
  }

  /** A walk of n visits has used up a rank for each visit, except that back edges give ranks back. */
  lemma {:induction false} VisitsByRank(g: seq<Node>, p: seq<Id>, n: nat)
    requires Ranked(g) && Path(g, p) && 0 < n <= |p|
    ensures n <= BackSteps(g, p, n) * |g| + |Under(g, p[n - 1])|
  {
    hide Rank, Under, BackEdge, EdgeTo;
    UnderSize(g, p[n - 1]);
    if n > 1 {
      VisitsByRank(g, p, n - 1);
      UnderSize(g, p[n - 2]);
      if BackEdge(g, p[n - 2], p[n - 1]) {
        OneMore(BackSteps(g, p, n - 1), |g|);
      } else {
        UnderGrows(g, p, n);
      }
    }
  }

  lemma OneMore(t: nat, n: nat)
    ensures (t + 1) * n == t * n + n
  {}

  lemma UnderGrows(g: seq<Node>, p: seq<Id>, n: nat)
    requires Ranked(g) && Path(g, p) && 1 < n <= |p| && !BackEdge(g, p[n - 2], p[n - 1])
    ensures |Under(g, p[n - 2])| < |Under(g, p[n - 1])|
  {
    hide Rank;
    assert EdgeTo(g, p[n - 1 - 1], p[n - 1]);
    assert p[n - 1] in Under(g, p[n - 1]) && p[n - 1] !in Under(g, p[n - 2]);
    Larger(Under(g, p[n - 2]), Under(g, p[n - 1]));
  }

  /**
   * Loops are the only cycles: a walk that takes the loops' back edges t times makes at most (t + 1) times as
   * many visits as there are nodes.
   */
  lemma VisitsBounded(env: Env, steps: seq<Step>, p: seq<Id>)
    requires ShapeSeq(steps) && Path(Program(env, steps), p)
    ensures var g := Program(env, steps); |p| <= (BackSteps(g, p, |p|) + 1) * |g|
  {
    hide Emit, EmitSeq, Program, Rank, BackEdge, EdgeTo;
    var g := Program(env, steps);
    ProgramRanked(env, steps);
    VisitsByRank(g, p, |p|);
    UnderSize(g, p[|p| - 1]);
    OneMore(BackSteps(g, p, |p|), |g|);
  }

  lemma {:induction false} NoBackStep(g: seq<Node>, p: seq<Id>, n: nat)
    requires Ranked(g) && Path(g, p) && 1 < n <= |p| && BackSteps(g, p, n) == 0
    ensures Rank(g, p[0]) < Rank(g, p[n - 1])
  {
    assert EdgeTo(g, p[n - 1 - 1], p[n - 1]);
    if n > 2 { NoBackStep(g, p, n - 1); }
  }

  /** Without back edges the graph is acyclic. */
  lemma Acyclic(env: Env, steps: seq<Step>, p: seq<Id>)
    requires ShapeSeq(steps) && Path(Program(env, steps), p) && |p| > 1
    requires BackSteps(Program(env, steps), p, |p|) == 0
    ensures p[0] != p[|p| - 1]
  {
    ProgramRanked(env, steps);
    NoBackStep(Program(env, steps), p, |p|);
  }
}
