/** Telling from a graph alone which tasks may create branches at run time. */
module Spawns {
  import opened Topology
  import opened Layout
  import opened WellFormed
  import opened Placement
  import opened Structure

  // A worker reads the graph it was given and finds exactly the tasks recorded with a Combine, and those combines.

  function CollectKey(n: Node): string { if n.info.Work? then n.info.collectKey else "" }

  predicate IsCombine(n: Node) {
    n.kind == TASK && n.info.Work? && (n.info.armNames != [] || n.info.collectKey != "")
  }

  predicate Collects(n: Node) { SPAWN_PREFIX <= CollectKey(n) }

  /** A join of branches whose number is not known in advance. */
  predicate IsDynamicJoin(n: Node) { n.kind == JOIN && !(n.info.Expected? && n.info.count > 0) }

  /** Whether a graph, given by its nodes under their ids, lets this node create branches. */
  predicate Spawning(nodes: map<Id, Node>, id: Id) {
    id in nodes &&
    (Collects(nodes[id]) ||
     (&& nodes[id].kind == TASK && !IsCombine(nodes[id])
      && nodes[id].next.Some? && CollectedAt(nodes, nodes[id].next.value, SPAWN_PREFIX + nodes[id].name)))
  }

  /** A dynamic join whose results are collected under this key. */
  predicate CollectedAt(nodes: map<Id, Node>, join: Id, key: string) {
    && join in nodes && IsDynamicJoin(nodes[join])
    && nodes[join].next.Some? && nodes[join].next.value in nodes && CollectKey(nodes[nodes[join].next.value]) == key
  }

  // ---- reading a graph ----

  /** A node as a graph lists it. */
  datatype Listed = Listed(id: Id, node: Node)

  /** A listing of a graph, in any order. */
  ghost predicate Lists(listed: seq<Listed>, g: seq<Node>) {
    && (forall i :: 0 <= i < |listed| ==> listed[i].id < |g| && listed[i].node == g[listed[i].id])
    && (forall u: Id :: u < |g| ==> Listed(u, g[u]) in listed)
  }

  function ById(g: seq<Node>): map<Id, Node> { map u: Id | u < |g| :: g[u] }

  /** The nodes under their ids: of the first n listed, the last under each. */
  function Read(listed: seq<Listed>, n: nat): map<Id, Node>
    requires n <= |listed|
  {
    if n == 0 then map[] else Read(listed, n - 1)[listed[n - 1].id := listed[n - 1].node]
  }

  lemma {:induction false} ReadIs(listed: seq<Listed>, n: nat)
    requires n <= |listed|
    ensures forall x :: 0 <= x < n ==> listed[x].id in Read(listed, n)
    ensures forall u: Id :: u in Read(listed, n) ==> Listed(u, Read(listed, n)[u]) in listed
  {
    if n > 0 { ReadIs(listed, n - 1); }
  }

  /** Reading a listing of a graph gives its nodes, in whatever order they are listed. */
  lemma ReadsBack(listed: seq<Listed>, g: seq<Node>)
    requires Lists(listed, g)
    ensures Read(listed, |listed|) == ById(g)
  {
    var nodes := Read(listed, |listed|);
    ReadIs(listed, |listed|);
    forall u: Id | u < |g| ensures u in nodes && nodes[u] == g[u] { assert Listed(u, g[u]) in listed; }
  }

  method MaySpawn(listed: seq<Listed>, id: Id) returns (may: bool)
    ensures may == Spawning(Read(listed, |listed|), id)
  {
    var nodes: map<Id, Node> := map[];
    for i := 0 to |listed|
      invariant nodes == Read(listed, i)
    {
      nodes := nodes[listed[i].id := listed[i].node];
    }
    if id !in nodes { return false; }
    var node := nodes[id];
    if Collects(node) { return true; }
    if node.kind != TASK || IsCombine(node) { return false; }
    if node.next.None? || node.next.value !in nodes { return false; }
    var join := nodes[node.next.value];
    if join.kind != JOIN { return false; }
    if join.info.Expected? && join.info.count != 0 { return false; }
    if join.next.None? || join.next.value !in nodes { return false; }
    return CollectKey(nodes[join.next.value]) == SPAWN_PREFIX + node.name;
  }

  // ---- the recorded tasks that may ----

  /** Id u is that of a task recorded with a Combine, or of that combine. */
  ghost predicate Recorded(s: Step, c: Id, inArm: bool, u: Id)
    decreases s
  {
    match s
    case Task(_, _, _, _, combine) => combine != "" && (u == c || u == c + 2)
    case Signal(_, _, escalation) => RecordedSeq(escalation, |escalation|, c + 1, inArm, u)
    case Fork(arms, _) => RecordedBlocks(arms, |arms|, c + 2, true, u)
    case ForEach(_, _, body, _) => RecordedSeq(body, |body|, c + 2, true, u)
    case Choose(cases) => RecordedBlocks(cases, |cases|, c + Guards(cases), inArm, u)
    case Loop(_, _, body) => RecordedSeq(body, |body|, c, inArm, u)
    case _ => false
  }

  ghost predicate RecordedSeq(steps: seq<Step>, n: nat, c: Id, inArm: bool, u: Id)
    requires n <= |steps|
    decreases steps, n
  {
    n > 0 && (RecordedSeq(steps, n - 1, c, inArm, u) ||
              Recorded(steps[n - 1], c + SizeSeq(steps, n - 1, inArm), inArm, u))
  }

  ghost predicate RecordedBlocks(blocks: seq<Block>, n: nat, c: Id, inArm: bool, u: Id)
    requires n <= |blocks|
    decreases blocks, n
  {
    n > 0 &&
    (RecordedBlocks(blocks, n - 1, c, inArm, u) ||
     RecordedSeq(blocks[n - 1].steps, |blocks[n - 1].steps|, c + SizeBlocks(blocks, n - 1, inArm), inArm, u))
  }

  // ---- where a step goes on to never looks like its own join ----

  /** Whatever goes on to k is not taken for a task that creates branches. */
  ghost predicate Neutral(g: seq<Node>, k: Id) {
    k < |g| &&
    (IsDynamicJoin(g[k]) ==>
       g[k].next.Some? && g[k].next.value < |g| && !(SPAWN_PREFIX <= CollectKey(g[g[k].next.value])))
  }

  lemma {:induction false} RecordedWithin(s: Step, c: Id, inArm: bool, u: Id)
    requires Recorded(s, c, inArm, u)
    ensures c <= u < c + Size(s, inArm)
    decreases s
  {
    match s
    case Task(_, _, _, _, _) =>
    case Signal(_, _, escalation) => RecordedWithinSeq(escalation, |escalation|, c + 1, inArm, u);
    case Fork(arms, _) => RecordedWithinBlocks(arms, |arms|, c + 2, true, u);
    case ForEach(_, _, body, _) => RecordedWithinSeq(body, |body|, c + 2, true, u);
    case Choose(cases) => RecordedWithinBlocks(cases, |cases|, c + Guards(cases), inArm, u);
    case Loop(_, _, body) => RecordedWithinSeq(body, |body|, c, inArm, u);
  }

  lemma {:induction false} RecordedWithinSeq(steps: seq<Step>, n: nat, c: Id, inArm: bool, u: Id)
    requires n <= |steps| && RecordedSeq(steps, n, c, inArm, u)
    ensures c <= u < c + SizeSeq(steps, n, inArm)
    decreases steps, n
  {
    hide Recorded, Size;
    if RecordedSeq(steps, n - 1, c, inArm, u) {
      RecordedWithinSeq(steps, n - 1, c, inArm, u);
    } else {
      RecordedWithin(steps[n - 1], c + SizeSeq(steps, n - 1, inArm), inArm, u);
    }
  }

  lemma {:induction false} RecordedWithinBlocks(blocks: seq<Block>, n: nat, c: Id, inArm: bool, u: Id)
    requires n <= |blocks| && RecordedBlocks(blocks, n, c, inArm, u)
    ensures c <= u < c + SizeBlocks(blocks, n, inArm)
    decreases blocks, n
  {
    hide RecordedSeq, SizeSeq;
    if RecordedBlocks(blocks, n - 1, c, inArm, u) {
      RecordedWithinBlocks(blocks, n - 1, c, inArm, u);
    } else {
      RecordedWithinSeq(blocks[n - 1].steps, |blocks[n - 1].steps|, c + SizeBlocks(blocks, n - 1, inArm), inArm, u);
    }
  }

  // ---- the graph tells exactly what was recorded ----

  lemma Prefixes(a: string)
    ensures !(SPAWN_PREFIX <= FOR_EACH_PREFIX + a) && SPAWN_PREFIX <= SPAWN_PREFIX + a
    ensures !(SPAWN_PREFIX <= "")
  {
    assert (FOR_EACH_PREFIX + a)[2] == 'f' && SPAWN_PREFIX[2] == 's';
  }

  lemma SpawnsTask(env: Env, g: seq<Node>, s: Step, c: Id, k: Id, j: Option<Id>, u: Id)
    requires s.Task? && At(env, g, s, c, k, j) && Neutral(g, k) && c <= u < c + Size(s, j.Some?)
    ensures Spawning(ById(g), u) <==> Recorded(s, c, j.Some?, u)
  {
    hide Emit;
    TaskParts(env, g, s, c, k, j);
    Prefixes(s.name);
  }

  lemma SpawnsGate(env: Env, g: seq<Node>, s: Step, c: Id, k: Id, j: Option<Id>, u: Id)
    requires (s.Gate? || s.Sleep? || s.SubFlow?) && At(env, g, s, c, k, j) && c <= u < c + Size(s, j.Some?)
    ensures !Spawning(ById(g), u)
  {
    hide Emit;
    Prefixes("");
    if s.Gate? { GateParts(env, g, s, c, k, j); } else { PlainParts(env, g, s, c, k, j); }
  }

  lemma {:induction false} SpawnsStep(env: Env, g: seq<Node>, s: Step, c: Id, k: Id, j: Option<Id>, u: Id)
    requires Shape(s) && At(env, g, s, c, k, j) && Neutral(g, k) && c <= u < c + Size(s, j.Some?)
    requires j.Some? ==> Neutral(g, j.value)
    ensures Spawning(ById(g), u) <==> Recorded(s, c, j.Some?, u)
    decreases s, 1
  {
    hide Emit, EmitSeq, EmitBlocks, SizeSeq, SizeBlocks, EntrySeq, Spawning, Neutral;
    match s
    case Task(_, _, _, _, _) => SpawnsTask(env, g, s, c, k, j, u);
    case Gate(_, _, _) => SpawnsGate(env, g, s, c, k, j, u);
    case Sleep(_, _) => SpawnsGate(env, g, s, c, k, j, u);
    case SubFlow(_, _) => SpawnsGate(env, g, s, c, k, j, u);
    case Signal(_, _, _) => SpawnsSignal(env, g, s, c, k, j, u);
    case Fork(_, _) => SpawnsFork(env, g, s, c, k, j, u);
    case ForEach(_, _, _, _) => SpawnsForEach(env, g, s, c, k, j, u);
    case Choose(_) => SpawnsChoose(env, g, s, c, k, j, u);
    case Loop(_, _, _) => SpawnsLoop(env, g, s, c, k, j, u);
  }

  lemma {:induction false} SpawnsSignal(env: Env, g: seq<Node>, s: Step, c: Id, k: Id, j: Option<Id>, u: Id)
    requires s.Signal? && Shape(s) && At(env, g, s, c, k, j) && Neutral(g, k) && c <= u < c + Size(s, j.Some?)
    requires j.Some? ==> Neutral(g, j.value)
    ensures Spawning(ById(g), u) <==> Recorded(s, c, j.Some?, u)
    decreases s, 0
  {
    hide Emit, EmitSeq, EntrySeq, SizeSeq;
    var esc := s.escalation;
    SignalParts(env, g, s, c, k, j);
    if u == c {
      Prefixes("");
      if RecordedSeq(esc, |esc|, c + 1, j.Some?, u) { RecordedWithinSeq(esc, |esc|, c + 1, j.Some?, u); }
    } else {
      NoSteps(esc, j.Some?);
      SpawnsSeq(env, g, esc, |esc|, c + 1, k, j, u);
    }
  }

  lemma NoSteps(steps: seq<Step>, inArm: bool)
    ensures steps == [] ==> SizeSeq(steps, |steps|, inArm) == 0
  {}

  lemma {:induction false} SpawnsFork(env: Env, g: seq<Node>, s: Step, c: Id, k: Id, j: Option<Id>, u: Id)
    requires s.Fork? && Shape(s) && At(env, g, s, c, k, j) && c <= u < c + Size(s, j.Some?)
    ensures Spawning(ById(g), u) <==> Recorded(s, c, j.Some?, u)
    decreases s, 0
  {
    hide Emit, EmitBlocks, SizeBlocks;
    var arms := s.arms;
    ForkParts(env, g, s, c, k, j);
    if c + 2 <= u < c + 2 + SizeBlocks(arms, |arms|, true) {
      SpawnsBlocks(env, g, arms, |arms|, c + 2, c + 1, Some(c + 1), u);
    } else {
      Prefixes("");
      if RecordedBlocks(arms, |arms|, c + 2, true, u) { RecordedWithinBlocks(arms, |arms|, c + 2, true, u); }
    }
  }

  lemma {:induction false} SpawnsForEach(env: Env, g: seq<Node>, s: Step, c: Id, k: Id, j: Option<Id>, u: Id)
    requires s.ForEach? && Shape(s) && At(env, g, s, c, k, j) && c <= u < c + Size(s, j.Some?)
    ensures Spawning(ById(g), u) <==> Recorded(s, c, j.Some?, u)
    decreases s, 0
  {
    hide Emit, EmitSeq, SizeSeq, EntrySeq;
    var body := s.body;
    ForEachParts(env, g, s, c, k, j);
    Prefixes("");
    Prefixes(ForEachName(s.name, s.itemsKey));
    if c + 2 <= u < c + 2 + SizeSeq(body, |body|, true) {
      SpawnsSeq(env, g, body, |body|, c + 2, c + 1, Some(c + 1), u);
    } else if RecordedSeq(body, |body|, c + 2, true, u) {
      RecordedWithinSeq(body, |body|, c + 2, true, u);
    }
  }

  lemma {:induction false} SpawnsChoose(env: Env, g: seq<Node>, s: Step, c: Id, k: Id, j: Option<Id>, u: Id)
    requires s.Choose? && Shape(s) && At(env, g, s, c, k, j) && Neutral(g, k) && c <= u < c + Size(s, j.Some?)
    requires j.Some? ==> Neutral(g, j.value)
    ensures Spawning(ById(g), u) <==> Recorded(s, c, j.Some?, u)
    decreases s, 0
  {
    hide Emit, EmitBlocks, SizeBlocks, BlockStart, Neutral;
    var cases, b := s.cases, c + Guards(s.cases);
    ChooseParts(env, g, s, c, k, j);
    if u >= b {
      SpawnsBlocks(env, g, cases, |cases|, b, k, j, u);
    } else {
      GuardOf(env, g, s, u - c, c, k, j);
      Prefixes("");
      if RecordedBlocks(cases, |cases|, b, j.Some?, u) { RecordedWithinBlocks(cases, |cases|, b, j.Some?, u); }
    }
  }

  lemma {:induction false} SpawnsLoop(env: Env, g: seq<Node>, s: Step, c: Id, k: Id, j: Option<Id>, u: Id)
    requires s.Loop? && Shape(s) && At(env, g, s, c, k, j) && c <= u < c + Size(s, j.Some?)
    requires j.Some? ==> Neutral(g, j.value)
    ensures Spawning(ById(g), u) <==> Recorded(s, c, j.Some?, u)
    decreases s, 0
  {
    hide Emit, EmitSeq, SizeSeq, EntrySeq;
    var body, mid := s.body, c + SizeSeq(s.body, |s.body|, j.Some?);
    LoopParts(env, g, s, c, k, j);
    if u < mid {
      SpawnsSeq(env, g, body, |body|, c, mid, j, u);
    } else {
      Prefixes("");
      if RecordedSeq(body, |body|, c, j.Some?, u) { RecordedWithinSeq(body, |body|, c, j.Some?, u); }
    }
  }

  lemma {:induction false} SpawnsSeq(env: Env, g: seq<Node>, steps: seq<Step>, n: nat, c: Id, k: Id, j: Option<Id>,
                                     u: Id)
    requires n <= |steps| && ShapeSeq(steps) && AtSeq(env, g, steps, c, k, j) && c <= u < c + SizeSeq(steps, n, j.Some?)
    requires Neutral(g, k) && (j.Some? ==> Neutral(g, j.value))
    ensures Spawning(ById(g), u) <==> RecordedSeq(steps, n, c, j.Some?, u)
    decreases steps, n
  {
    hide Emit, EmitSeq, Entry, Size, Spawning, Recorded;
    var ci := c + SizeSeq(steps, n - 1, j.Some?);
    if u >= ci {
      StepOf(env, g, steps, n - 1, c, k, j);
      if n < |steps| { NextIsNeutral(env, g, steps, n, c, k, j); }
      SpawnsStep(env, g, steps[n - 1], ci, Cont(steps, n - 1, c, k, j.Some?), j, u);
      if RecordedSeq(steps, n - 1, c, j.Some?, u) { RecordedWithinSeq(steps, n - 1, c, j.Some?, u); }
    } else {
      SpawnsSeq(env, g, steps, n - 1, c, k, j, u);
      if Recorded(steps[n - 1], ci, j.Some?, u) { RecordedWithin(steps[n - 1], ci, j.Some?, u); }
    }
  }

  lemma NextIsNeutral(env: Env, g: seq<Node>, steps: seq<Step>, i: nat, c: Id, k: Id, j: Option<Id>)
    requires i < |steps| && ShapeSeq(steps) && AtSeq(env, g, steps, c, k, j)
    ensures Neutral(g, Entry(steps[i], c + SizeSeq(steps, i, j.Some?)))
  {
    hide Emit, EmitSeq, Entry, Size, SizeSeq;
    StepOf(env, g, steps, i, c, k, j);
    EntryIsStep(env, g, steps[i], c + SizeSeq(steps, i, j.Some?), Cont(steps, i, c, k, j.Some?), j);
  }

  lemma {:induction false} SpawnsBlocks(env: Env, g: seq<Node>, blocks: seq<Block>, n: nat, c: Id, k: Id, j: Option<Id>,
                                        u: Id)
    requires n <= |blocks| && ShapeBlocks(blocks) && Has(g, c, EmitBlocks(env, blocks, |blocks|, c, Some(k), j))
    requires c <= u < c + SizeBlocks(blocks, n, j.Some?) && Neutral(g, k) && (j.Some? ==> Neutral(g, j.value))
    ensures Spawning(ById(g), u) <==> RecordedBlocks(blocks, n, c, j.Some?, u)
    decreases blocks, n
  {
    hide EmitSeq, EmitBlocks, SizeSeq, Spawning, RecordedSeq;
    var steps, ci := blocks[n - 1].steps, c + SizeBlocks(blocks, n - 1, j.Some?);
    if u >= ci {
      BlockPart(env, g, blocks, |blocks|, n - 1, c, k, j);
      SpawnsSeq(env, g, steps, |steps|, ci, k, j, u);
      if RecordedBlocks(blocks, n - 1, c, j.Some?, u) { RecordedWithinBlocks(blocks, n - 1, c, j.Some?, u); }
    } else {
      SpawnsBlocks(env, g, blocks, n - 1, c, k, j, u);
      if RecordedSeq(steps, |steps|, ci, j.Some?, u) { RecordedWithinSeq(steps, |steps|, ci, j.Some?, u); }
    }
  }

  /** In every compiled graph, the nodes that may create branches are the recorded ones. */
  lemma SpawnsExactlyTheRecorded(env: Env, steps: seq<Step>, u: Id)
    requires ShapeSeq(steps)
    ensures Spawning(ById(Program(env, steps)), u) <==> RecordedSeq(steps, |steps|, 0, false, u)
  {
    hide EmitSeq, RecordedSeq, SizeSeq;
    var g, last := Program(env, steps), SizeSeq(steps, |steps|, false);
    ProgramParts(env, steps);
    if RecordedSeq(steps, |steps|, 0, false, u) { RecordedWithinSeq(steps, |steps|, 0, false, u); }
    Prefixes("");
    if u < last { SpawnsSeq(env, g, steps, |steps|, 0, last, None, u); }
  }
}
