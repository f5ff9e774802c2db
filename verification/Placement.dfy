/**
 * Where the pieces of a laid-out step sit in a whole graph. Everything proved of graphs starts from a step that is
 * somewhere in one: its nodes from some id on are what `Layout` gives for it. These lemmas take such a step apart, into
 * its own nodes and the steps inside it, each again somewhere in the same graph and going on to a known place.
 */
module Placement {
  import opened Topology
  import opened Layout

  /** The graph holds these nodes from id c on. */
  ghost predicate Has(g: seq<Node>, c: Id, nodes: seq<Node>) {
    c + |nodes| <= |g| && forall i :: 0 <= i < |nodes| ==> g[c + i] == nodes[i]
  }

  /** The graph holds a step from id c on, going on to k. */
  ghost predicate At(env: Env, g: seq<Node>, s: Step, c: Id, k: Id, j: Option<Id>) {
    Has(g, c, Emit(env, s, c, Some(k), j))
  }

  ghost predicate AtSeq(env: Env, g: seq<Node>, steps: seq<Step>, c: Id, k: Id, j: Option<Id>) {
    Has(g, c, EmitSeq(env, steps, |steps|, c, Some(k), j))
  }

  /** Where step i of a sequence goes on to. */
  function Cont(steps: seq<Step>, i: nat, c: Id, k: Id, inArm: bool): Id
    requires i < |steps|
  {
    if i + 1 < |steps| then Entry(steps[i + 1], c + SizeSeq(steps, i + 1, inArm)) else k
  }

  lemma HasConcat(g: seq<Node>, c: Id, a: seq<Node>, b: seq<Node>)
    requires Has(g, c, a + b)
    ensures Has(g, c, a) && Has(g, c + |a|, b)
  {
    forall i | 0 <= i < |a| ensures g[c + i] == a[i] { assert (a + b)[i] == a[i]; }
    forall i | 0 <= i < |b| ensures g[c + |a| + i] == b[i] { assert (a + b)[|a| + i] == b[i]; }
  }

  lemma {:induction false} SeqPart(env: Env, g: seq<Node>, steps: seq<Step>, n: nat, i: nat, c: Id, k: Id,
                                   j: Option<Id>)
    requires i < n <= |steps| && Has(g, c, EmitSeq(env, steps, n, c, Some(k), j))
    ensures At(env, g, steps[i], c + SizeSeq(steps, i, j.Some?), if i + 1 < n then Cont(steps, i, c, k, j.Some?) else k,
               j)
  {
    hide Emit;
    var c' := c + SizeSeq(steps, n - 1, j.Some?);
    var next := Entry(steps[n - 1], c');
    HasConcat(g, c, EmitSeq(env, steps, n - 1, c, Some(next), j), Emit(env, steps[n - 1], c', Some(k), j));
    if i < n - 1 { SeqPart(env, g, steps, n - 1, i, c, next, j); }
  }

  /** Step i of a sequence in the graph, going on to the step after it. */
  lemma StepOf(env: Env, g: seq<Node>, steps: seq<Step>, i: nat, c: Id, k: Id, j: Option<Id>)
    requires i < |steps| && AtSeq(env, g, steps, c, k, j)
    ensures At(env, g, steps[i], c + SizeSeq(steps, i, j.Some?), Cont(steps, i, c, k, j.Some?), j)
  {
    hide Emit, EmitSeq, Size, SizeSeq, Entry;
    SeqPart(env, g, steps, |steps|, i, c, k, j);
  }

  lemma {:induction false} BlockPart(env: Env, g: seq<Node>, blocks: seq<Block>, n: nat, i: nat, c: Id, k: Id,
                                     j: Option<Id>)
    requires i < n <= |blocks| && Has(g, c, EmitBlocks(env, blocks, n, c, Some(k), j))
    ensures AtSeq(env, g, blocks[i].steps, c + SizeBlocks(blocks, i, j.Some?), k, j)
  {
    hide EmitSeq;
    var steps := blocks[n - 1].steps;
    HasConcat(g, c, EmitBlocks(env, blocks, n - 1, c, Some(k), j),
              EmitSeq(env, steps, |steps|, c + SizeBlocks(blocks, n - 1, j.Some?), Some(k), j));
    if i < n - 1 { BlockPart(env, g, blocks, n - 1, i, c, k, j); }
  }

  // ---- the nodes of each kind of step ----

  lemma TaskParts(env: Env, g: seq<Node>, s: Step, c: Id, k: Id, j: Option<Id>)
    requires s.Task? && At(env, g, s, c, k, j)
    ensures var task := TaskNode(env, s.name, s.queue, s.retry, s.compensate);
            if s.combine == "" then c < |g| && g[c] == task.(next := Some(k))
            else
              && c + 2 < |g| && g[c] == task.(next := Some(c + 1)) && g[c + 1] == JoinNode(0).(next := Some(c + 2))
              && g[c + 2] == CollectNode(env, s.combine, SPAWN_PREFIX + s.name).(next := Some(k))
  {
    var nodes := Emit(env, s, c, Some(k), j);
    assert g[c + 0] == nodes[0];
    if s.combine != "" { assert g[c + 1] == nodes[1] && g[c + 2] == nodes[2]; }
  }

  lemma GateParts(env: Env, g: seq<Node>, s: Step, c: Id, k: Id, j: Option<Id>)
    requires s.Gate? && At(env, g, s, c, k, j)
    ensures var gate := WorkerNode(env, PREDICATE, s.name, s.queue, s.retry).(next := Some(k));
            if j.Some? then c < |g| && g[c] == gate.(alt := j)
            else c + 1 < |g| && g[c] == gate.(alt := Some(c + 1)) && g[c + 1] == EndNode(GatedReason(s.name))
  {
    var nodes := Emit(env, s, c, Some(k), j);
    assert g[c + 0] == nodes[0];
    if j.None? { assert g[c + 1] == nodes[1]; }
  }

  lemma PlainParts(env: Env, g: seq<Node>, s: Step, c: Id, k: Id, j: Option<Id>)
    requires (s.Sleep? || s.SubFlow?) && At(env, g, s, c, k, j)
    ensures c < |g|
    ensures s.Sleep? ==> g[c] == TimerNode(SLEEP, SleepName(s.name, s.d), Millis(s.d)).(next := Some(k))
    ensures s.SubFlow? ==> g[c] == SubFlowNode(SubFlowName(s.name, s.workflow), s.workflow).(next := Some(k))
  {
    assert g[c + 0] == Emit(env, s, c, Some(k), j)[0];
  }

  lemma SignalParts(env: Env, g: seq<Node>, s: Step, c: Id, k: Id, j: Option<Id>)
    requires s.Signal? && At(env, g, s, c, k, j)
    ensures var signal := TimerNode(SIGNAL, s.name, Millis(s.timeout)).(next := Some(k));
            && c < |g|
            && (s.escalation == [] ==> g[c] == signal)
            && (s.escalation != [] ==>
                  g[c] == signal.(alt := Some(EntrySeq(s.escalation, c + 1))) &&
                    AtSeq(env, g, s.escalation, c + 1, k, j))
  {
    var nodes := Emit(env, s, c, Some(k), j);
    assert g[c + 0] == nodes[0];
    if s.escalation != [] {
      HasConcat(g, c, [nodes[0]], EmitSeq(env, s.escalation, |s.escalation|, c + 1, Some(k), j));
    }
  }

  lemma ForkParts(env: Env, g: seq<Node>, s: Step, c: Id, k: Id, j: Option<Id>)
    requires s.Fork? && At(env, g, s, c, k, j)
    ensures var m := c + 2 + SizeBlocks(s.arms, |s.arms|, true);
            && m < |g| && g[c] == ForkNode().(branches := Starts(s.arms, |s.arms|, c + 2, true))
            && g[c + 1] == JoinNode(|s.arms|).(next := Some(m))
            && g[m] == CombineNode(env, s.combine, Tags(s.arms, |s.arms|)).(next := Some(k))
            && Has(g, c + 2, EmitBlocks(env, s.arms, |s.arms|, c + 2, Some(c + 1), Some(c + 1)))
  {
    hide EmitBlocks;
    var nodes, inner := Emit(env, s, c, Some(k), j), EmitBlocks(env, s.arms, |s.arms|, c + 2, Some(c + 1), Some(c + 1));
    assert nodes == nodes[..2] + inner + nodes[2 + |inner|..];
    HasConcat(g, c, nodes[..2] + inner, nodes[2 + |inner|..]);
    HasConcat(g, c, nodes[..2], inner);
    assert g[c + 0] == nodes[0] && g[c + 1] == nodes[1] && g[c + 2 + |inner|] == nodes[2 + |inner|];
  }

  lemma ForEachParts(env: Env, g: seq<Node>, s: Step, c: Id, k: Id, j: Option<Id>)
    requires s.ForEach? && At(env, g, s, c, k, j)
    ensures var m, name := c + 2 + SizeSeq(s.body, |s.body|, true), ForEachName(s.name, s.itemsKey);
            && m < |g|
            && g[c] == DynForkNode(name, s.itemsKey).(next := Some(c + 1), branches := [EntrySeq(s.body, c + 2)])
            && g[c + 1] == JoinNode(0).(next := Some(m))
            && g[m] == CollectNode(env, s.combine, FOR_EACH_PREFIX + name).(next := Some(k))
            && AtSeq(env, g, s.body, c + 2, c + 1, Some(c + 1))
  {
    hide EmitSeq;
    var nodes, inner := Emit(env, s, c, Some(k), j), EmitSeq(env, s.body, |s.body|, c + 2, Some(c + 1), Some(c + 1));
    assert nodes == nodes[..2] + inner + nodes[2 + |inner|..];
    HasConcat(g, c, nodes[..2] + inner, nodes[2 + |inner|..]);
    HasConcat(g, c, nodes[..2], inner);
    assert g[c + 0] == nodes[0] && g[c + 1] == nodes[1] && g[c + 2 + |inner|] == nodes[2 + |inner|];
  }

  lemma ChooseParts(env: Env, g: seq<Node>, s: Step, c: Id, k: Id, j: Option<Id>)
    requires s.Choose? && At(env, g, s, c, k, j)
    ensures var n := Guards(s.cases);
            && c + n <= |g|
            && Has(g, c, EmitGuards(env, s.cases, c, Some(k), j.Some?))
            && Has(g, c + n, EmitBlocks(env, s.cases, |s.cases|, c + n, Some(k), j))
  {
    hide EmitBlocks, EmitGuard;
    var n := Guards(s.cases);
    HasConcat(g, c, EmitGuards(env, s.cases, c, Some(k), j.Some?),
              EmitBlocks(env, s.cases, |s.cases|, c + n, Some(k), j));
  }

  lemma GuardOf(env: Env, g: seq<Node>, s: Step, i: nat, c: Id, k: Id, j: Option<Id>)
    requires s.Choose? && i < Guards(s.cases) && At(env, g, s, c, k, j)
    ensures c + i < |g| && g[c + i] == EmitGuard(env, s.cases, i, c, Some(k), j.Some?)
  {
    hide EmitGuard;
    ChooseParts(env, g, s, c, k, j);
    assert g[c + i] == EmitGuards(env, s.cases, c, Some(k), j.Some?)[i];
  }

  /** Case i of a choice in the graph. */
  lemma CaseOf(env: Env, g: seq<Node>, s: Step, i: nat, c: Id, k: Id, j: Option<Id>)
    requires s.Choose? && i < |s.cases| && At(env, g, s, c, k, j)
    ensures AtSeq(env, g, s.cases[i].steps, c + Guards(s.cases) + SizeBlocks(s.cases, i, j.Some?), k, j)
  {
    hide Emit, EmitBlocks, EmitSeq;
    ChooseParts(env, g, s, c, k, j);
    BlockPart(env, g, s.cases, |s.cases|, i, c + Guards(s.cases), k, j);
  }

  /** Arm i of a fork in the graph: it goes on to the fork's join, also when a gate stops it. */
  lemma ArmOf(env: Env, g: seq<Node>, s: Step, i: nat, c: Id, k: Id, j: Option<Id>)
    requires s.Fork? && i < |s.arms| && At(env, g, s, c, k, j)
    ensures AtSeq(env, g, s.arms[i].steps, c + 2 + SizeBlocks(s.arms, i, true), c + 1, Some(c + 1))
  {
    hide Emit, EmitBlocks, EmitSeq;
    ForkParts(env, g, s, c, k, j);
    BlockPart(env, g, s.arms, |s.arms|, i, c + 2, c + 1, Some(c + 1));
  }

  lemma LoopParts(env: Env, g: seq<Node>, s: Step, c: Id, k: Id, j: Option<Id>)
    requires s.Loop? && At(env, g, s, c, k, j)
    ensures var m := c + SizeSeq(s.body, |s.body|, j.Some?);
            && m < |g|
            && g[m] == ConditionNode(env, s.while_, s.maxIterations).(next := Some(EntrySeq(s.body, c)), alt := Some(k))
            && AtSeq(env, g, s.body, c, m, j)
  {
    hide EmitSeq;
    var m := c + SizeSeq(s.body, |s.body|, j.Some?);
    var nodes, inner := Emit(env, s, c, Some(k), j), EmitSeq(env, s.body, |s.body|, c, Some(m), j);
    assert nodes == inner + nodes[|inner|..];
    HasConcat(g, c, inner, nodes[|inner|..]);
    assert g[c + |inner|] == nodes[|inner|];
  }

  /** The whole program: its steps, then the final END. */
  lemma ProgramParts(env: Env, steps: seq<Step>)
    ensures var g, m := Program(env, steps), SizeSeq(steps, |steps|, false);
            |g| == m + 1 && g[m] == EndNode("") && AtSeq(env, g, steps, 0, m, None)
  {
    hide EmitSeq;
  }
}
