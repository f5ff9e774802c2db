/** What workers find in a graph: one node for every name recorded, and what a timer keeps of its duration. */
module Labels {
  import opened Topology
  import opened Layout
  import opened WellFormed
  import opened Placement

  // Every recorded step that reserves a name has one node of its kind under that name, and nothing else has one, so a
  // handler bound by name serves one node.

  datatype Label = Label(kind: Kind, name: string)

  /** The kinds whose nodes are written under a reserved name; TASK and PREDICATE are what workers run. */
  predicate IsNamed(k: Kind) { k in {TASK, PREDICATE, SIGNAL, SUB_WORKFLOW, DYN_FORK} }

  /** The named nodes among the first n, in the order of their creation. */
  function LabelsOf(nodes: seq<Node>, n: nat): seq<Label>
    requires n <= |nodes|
  {
    if n == 0 then []
    else LabelsOf(nodes, n - 1) + (if IsNamed(nodes[n - 1].kind) then [Label(nodes[n - 1].kind, nodes[n - 1].name)]
                                   else [])
  }

  /** What a tree records, in order: tasks, gates, guards, conditions, combines, signals, sub-flows, forEachs. */
  function Recorded(s: Step): seq<Label>
    decreases s
  {
    match s
    case Task(name, _, _, _, combine) =>
      if combine == "" then [Label(TASK, name)] else [Label(TASK, name)] + [Label(TASK, combine)]
    case Gate(name, _, _) => [Label(PREDICATE, name)]
    case Sleep(_, _) => []
    case Signal(name, _, escalation) => [Label(SIGNAL, name)] + RecordedSeq(escalation, |escalation|)
    case SubFlow(name, workflow) => [Label(SUB_WORKFLOW, SubFlowName(name, workflow))]
    case Fork(arms, combine) => RecordedBlocks(arms, |arms|) + [Label(TASK, combine)]
    case ForEach(name, itemsKey, body, combine) =>
      [Label(DYN_FORK, ForEachName(name, itemsKey))] + RecordedSeq(body, |body|) + [Label(TASK, combine)]
    case Choose(cases) => GuardLabels(cases, Guards(cases)) + RecordedBlocks(cases, |cases|)
    case Loop(cond, _, body) => RecordedSeq(body, |body|) + [Label(PREDICATE, cond)]
  }

  function RecordedSeq(steps: seq<Step>, n: nat): seq<Label>
    requires n <= |steps|
    decreases steps, n
  {
    if n == 0 then [] else RecordedSeq(steps, n - 1) + Recorded(steps[n - 1])
  }

  function RecordedBlocks(blocks: seq<Block>, n: nat): seq<Label>
    requires n <= |blocks|
    decreases blocks, n
  {
    if n == 0 then [] else RecordedBlocks(blocks, n - 1) + RecordedSeq(blocks[n - 1].steps, |blocks[n - 1].steps|)
  }

  function GuardLabels(cases: seq<Block>, n: nat): seq<Label>
    requires n <= |cases|
  {
    if n == 0 then [] else GuardLabels(cases, n - 1) + [Label(PREDICATE, cases[n - 1].tag)]
  }

  // ---- a graph's labels are its tree's ----

  lemma {:induction false} LabelsSame(a: seq<Node>, b: seq<Node>, n: nat)
    requires n <= |a| && n <= |b| && forall i :: 0 <= i < n ==> a[i] == b[i]
    ensures LabelsOf(a, n) == LabelsOf(b, n)
  {
    if n > 0 { LabelsSame(a, b, n - 1); }
  }

  function All(nodes: seq<Node>): seq<Label> { LabelsOf(nodes, |nodes|) }

  lemma {:induction false} AllConcat(a: seq<Node>, b: seq<Node>)
    ensures All(a + b) == All(a) + All(b)
    decreases |b|
  {
    var ab := a + b;
    if b == [] {
      assert ab == a;
    } else {
      var b' := b[..|b| - 1];
      AllConcat(a, b');
      LabelsSame(ab, a + b', |ab| - 1);
      LabelsSame(b, b', |b| - 1);
      assert ab[|ab| - 1] == b[|b| - 1];
    }
  }

  lemma AllOne(n: Node)
    ensures All([n]) == if IsNamed(n.kind) then [Label(n.kind, n.name)] else []
  {
    assert LabelsOf([n], 0) == [];
  }

  lemma AllTwo(a: Node, b: Node)
    ensures All([a, b]) == All([a]) + All([b])
  {
    AllConcat([a], [b]);
    assert [a, b] == [a] + [b];
  }

  lemma AllThree(a: Node, b: Node, c: Node)
    ensures All([a, b, c]) == All([a]) + All([b]) + All([c])
  {
    AllTwo(a, b);
    AllConcat([a, b], [c]);
    assert [a, b, c] == [a, b] + [c];
  }

  lemma {:induction false} LabelsOfGuards(env: Env, cases: seq<Block>, n: nat, c: Id, k: Option<Id>, inArm: bool)
    requires n <= Guards(cases)
    ensures LabelsOf(EmitGuards(env, cases, c, k, inArm), n) == GuardLabels(cases, n)
  {
    hide BlockStart;
    if n > 0 { LabelsOfGuards(env, cases, n - 1, c, k, inArm); }
  }

  lemma {:induction false} LabelsOfStep(env: Env, s: Step, c: Id, k: Option<Id>, j: Option<Id>)
    ensures All(Emit(env, s, c, k, j)) == Recorded(s)
    decreases s
  {
    hide EmitSeq, EmitBlocks, EmitGuards, LabelsOf, EntrySeq, SizeSeq, SizeBlocks;
    var nodes := Emit(env, s, c, k, j);
    match s
    case Task(_, _, _, _, combine) =>
      AllOne(nodes[0]);
      if combine != "" {
        AllOne(nodes[1]);
        AllOne(nodes[2]);
        AllThree(nodes[0], nodes[1], nodes[2]);
      }
    case Gate(_, _, _) =>
      AllOne(nodes[0]);
      if j.None? {
        AllOne(nodes[1]);
        AllTwo(nodes[0], nodes[1]);
      }
    case Sleep(_, _) => AllOne(nodes[0]);
    case SubFlow(_, _) => AllOne(nodes[0]);
    case Signal(_, _, escalation) =>
      AllOne(nodes[0]);
      if escalation == [] { RecordedNothing(escalation); }
      else {
        AllConcat([nodes[0]], EmitSeq(env, escalation, |escalation|, c + 1, k, j));
        LabelsOfSeq(env, escalation, |escalation|, c + 1, k, j);
      }
    case Fork(_, _) => LabelsOfFork(env, s, c, k, j);
    case ForEach(_, _, _, _) => LabelsOfForEach(env, s, c, k, j);
    case Choose(cases) =>
      var guards := EmitGuards(env, cases, c, k, j.Some?);
      AllConcat(guards, EmitBlocks(env, cases, |cases|, c + Guards(cases), k, j));
      LabelsOfGuards(env, cases, Guards(cases), c, k, j.Some?);
      LabelsOfBlocks(env, cases, |cases|, c + Guards(cases), k, j);
    case Loop(cond, maxIterations, body) =>
      var mid := c + SizeSeq(body, |body|, j.Some?);
      var last := ConditionNode(env, cond, maxIterations).(next := Some(EntrySeq(body, c)), alt := k);
      AllConcat(EmitSeq(env, body, |body|, c, Some(mid), j), [last]);
      AllOne(last);
      LabelsOfSeq(env, body, |body|, c, Some(mid), j);
  }

  lemma RecordedNothing(steps: seq<Step>)
    ensures steps == [] ==> RecordedSeq(steps, |steps|) == []
  {}

  lemma {:induction false} LabelsOfFork(env: Env, s: Step, c: Id, k: Option<Id>, j: Option<Id>)
    requires s.Fork?
    ensures All(Emit(env, s, c, k, j)) == Recorded(s)
    decreases s, 0
  {
    hide EmitBlocks, LabelsOf, Starts, Tags;
    var inner, nodes := EmitBlocks(env, s.arms, |s.arms|, c + 2, Some(c + 1), Some(c + 1)), Emit(env, s, c, k, j);
    assert nodes == [nodes[0], nodes[1]] + inner + [nodes[2 + |inner|]];
    AllTwo(nodes[0], nodes[1]);
    AllOne(nodes[0]);
    AllOne(nodes[1]);
    AllOne(nodes[2 + |inner|]);
    AllConcat([nodes[0], nodes[1]], inner);
    AllConcat([nodes[0], nodes[1]] + inner, [nodes[2 + |inner|]]);
    LabelsOfBlocks(env, s.arms, |s.arms|, c + 2, Some(c + 1), Some(c + 1));
  }

  lemma {:induction false} LabelsOfForEach(env: Env, s: Step, c: Id, k: Option<Id>, j: Option<Id>)
    requires s.ForEach?
    ensures All(Emit(env, s, c, k, j)) == Recorded(s)
    decreases s, 0
  {
    hide EmitSeq, LabelsOf, EntrySeq;
    var inner, nodes := EmitSeq(env, s.body, |s.body|, c + 2, Some(c + 1), Some(c + 1)), Emit(env, s, c, k, j);
    assert nodes == [nodes[0], nodes[1]] + inner + [nodes[2 + |inner|]];
    AllTwo(nodes[0], nodes[1]);
    AllOne(nodes[0]);
    AllOne(nodes[1]);
    AllOne(nodes[2 + |inner|]);
    AllConcat([nodes[0], nodes[1]], inner);
    AllConcat([nodes[0], nodes[1]] + inner, [nodes[2 + |inner|]]);
    LabelsOfSeq(env, s.body, |s.body|, c + 2, Some(c + 1), Some(c + 1));
  }

  lemma {:induction false} LabelsOfSeq(env: Env, steps: seq<Step>, n: nat, c: Id, k: Option<Id>, j: Option<Id>)
    requires n <= |steps|
    ensures All(EmitSeq(env, steps, n, c, k, j)) == RecordedSeq(steps, n)
    decreases steps, n
  {
    hide Emit, Recorded, Entry, Size;
    if n > 0 {
      var c' := c + SizeSeq(steps, n - 1, j.Some?);
      var next := Some(Entry(steps[n - 1], c'));
      LabelsOfSeq(env, steps, n - 1, c, next, j);
      LabelsOfStep(env, steps[n - 1], c', k, j);
      AllConcat(EmitSeq(env, steps, n - 1, c, next, j), Emit(env, steps[n - 1], c', k, j));
    }
  }

  lemma {:induction false} LabelsOfBlocks(env: Env, blocks: seq<Block>, n: nat, c: Id, k: Option<Id>, j: Option<Id>)
    requires n <= |blocks|
    ensures All(EmitBlocks(env, blocks, n, c, k, j)) == RecordedBlocks(blocks, n)
    decreases blocks, n
  {
    hide EmitSeq, RecordedSeq, SizeSeq;
    if n > 0 {
      var steps, c' := blocks[n - 1].steps, c + SizeBlocks(blocks, n - 1, j.Some?);
      LabelsOfBlocks(env, blocks, n - 1, c, k, j);
      LabelsOfSeq(env, steps, |steps|, c', k, j);
      AllConcat(EmitBlocks(env, blocks, n - 1, c, k, j), EmitSeq(env, steps, |steps|, c', k, j));
    }
  }

  /** A compiled graph has one named node for each thing its tree records, of its kind, in order, and no others. */
  lemma OneNodeForEach(env: Env, steps: seq<Step>)
    ensures All(Program(env, steps)) == RecordedSeq(steps, |steps|)
  {
    hide EmitSeq, LabelsOf, RecordedSeq;
    var last := SizeSeq(steps, |steps|, false);
    LabelsOfSeq(env, steps, |steps|, 0, Some(last), None);
    AllConcat(EmitSeq(env, steps, |steps|, 0, Some(last), None), [EndNode("")]);
    AllOne(EndNode(""));
  }

  // ---- names are unambiguous ----

  function NamesIn(labels: seq<Label>): (names: seq<string>)
    ensures |names| == |labels|
  {
    seq(|labels|, i requires 0 <= i < |labels| => labels[i].name)
  }

  lemma NamesInConcat(a: seq<Label>, b: seq<Label>)
    ensures NamesIn(a + b) == NamesIn(a) + NamesIn(b)
  {}

  lemma {:induction false} RecordedNames(s: Step)
    ensures NamesIn(Recorded(s)) == Names(s)
    decreases s
  {
    hide RecordedSeq, RecordedBlocks, NamesSeq, NamesBlocks, GuardLabels;
    match s
    case Task(name, _, _, _, combine) => if combine != "" {
      NamesInConcat([Label(TASK, name)], [Label(TASK, combine)]);
    }
    case Gate(_, _, _) =>
    case Sleep(_, _) =>
    case SubFlow(_, _) =>
    case Signal(name, _, escalation) =>
      RecordedNamesSeq(escalation, |escalation|);
      NamesInConcat([Label(SIGNAL, name)], RecordedSeq(escalation, |escalation|));
    case Fork(arms, combine) =>
      RecordedNamesBlocks(arms, |arms|);
      NamesInConcat(RecordedBlocks(arms, |arms|), [Label(TASK, combine)]);
    case ForEach(name, itemsKey, body, combine) =>
      var own := [Label(DYN_FORK, ForEachName(name, itemsKey))];
      RecordedNamesSeq(body, |body|);
      NamesInConcat(own, RecordedSeq(body, |body|));
      NamesInConcat(own + RecordedSeq(body, |body|), [Label(TASK, combine)]);
    case Choose(cases) =>
      GuardNames(cases, Guards(cases));
      RecordedNamesBlocks(cases, |cases|);
      NamesInConcat(GuardLabels(cases, Guards(cases)), RecordedBlocks(cases, |cases|));
    case Loop(cond, _, body) =>
      RecordedNamesSeq(body, |body|);
      NamesInConcat(RecordedSeq(body, |body|), [Label(PREDICATE, cond)]);
  }

  lemma {:induction false} GuardNames(cases: seq<Block>, n: nat)
    requires n <= |cases|
    ensures NamesIn(GuardLabels(cases, n)) == Tags(cases, n)
  {
    if n > 0 {
      GuardNames(cases, n - 1);
      NamesInConcat(GuardLabels(cases, n - 1), [Label(PREDICATE, cases[n - 1].tag)]);
      assert Tags(cases, n) == Tags(cases, n - 1) + [cases[n - 1].tag];
    }
  }

  lemma {:induction false} RecordedNamesSeq(steps: seq<Step>, n: nat)
    requires n <= |steps|
    ensures NamesIn(RecordedSeq(steps, n)) == NamesSeq(steps, n)
    decreases steps, n
  {
    hide Recorded, Names;
    if n > 0 {
      RecordedNamesSeq(steps, n - 1);
      RecordedNames(steps[n - 1]);
      NamesInConcat(RecordedSeq(steps, n - 1), Recorded(steps[n - 1]));
    }
  }

  lemma {:induction false} RecordedNamesBlocks(blocks: seq<Block>, n: nat)
    requires n <= |blocks|
    ensures NamesIn(RecordedBlocks(blocks, n)) == NamesBlocks(blocks, n)
    decreases blocks, n
  {
    hide RecordedSeq, NamesSeq;
    if n > 0 {
      var steps := blocks[n - 1].steps;
      RecordedNamesBlocks(blocks, n - 1);
      RecordedNamesSeq(steps, |steps|);
      NamesInConcat(RecordedBlocks(blocks, n - 1), RecordedSeq(steps, |steps|));
    }
  }

  lemma {:induction false} LabelAt(nodes: seq<Node>, n: nat, u: Id) returns (i: nat)
    requires u < n <= |nodes| && IsNamed(nodes[u].kind)
    ensures i == |LabelsOf(nodes, u)| < |LabelsOf(nodes, n)|
    ensures LabelsOf(nodes, n)[i] == Label(nodes[u].kind, nodes[u].name)
  {
    if u == n - 1 { i := |LabelsOf(nodes, u)|; } else { i := LabelAt(nodes, n - 1, u); }
  }

  lemma {:induction false} LabelsGrow(nodes: seq<Node>, u: Id, v: Id)
    requires u < v <= |nodes| && IsNamed(nodes[u].kind)
    ensures |LabelsOf(nodes, u)| < |LabelsOf(nodes, v)|
  {
    var _ := LabelAt(nodes, v, u);
  }

  /** In the graph of an accepted flow no two nodes that carry a reserved name carry the same one, and none is empty. */
  lemma NamesAreUnambiguous(flow: string, defaultQueue: string, steps: seq<Step>, u: Id, v: Id)
    requires CheckFlow(flow, steps).Accepted?
    requires var g := Program(FlowEnv(flow, defaultQueue), steps);
             u < v < |g| && IsNamed(g[u].kind) &&
             IsNamed(g[v].kind)
    ensures var g := Program(FlowEnv(flow, defaultQueue), steps);
            g[u].name != g[v].name && g[u].name != "" &&
            g[v].name != ""
  {
    hide Program, CheckFlow, LabelsOf, RecordedSeq;
    var g := Program(FlowEnv(flow, defaultQueue), steps);
    var names := NamesSeq(steps, |steps|);
    AcceptedIff(flow, steps);
    OneNodeForEach(FlowEnv(flow, defaultQueue), steps);
    RecordedNamesSeq(steps, |steps|);
    var i := LabelAt(g, |g|, u);
    var x := LabelAt(g, |g|, v);
    LabelsGrow(g, u, v);
    assert names[i] == g[u].name && names[x] == g[v].name;
  }

  // ---- timers ----

  /** What a SIGNAL keeps of its timeout: whole milliseconds, and no timer at all when there are none. */
  lemma TimerKept(env: Env, g: seq<Node>, s: Step, c: Id, k: Id, j: Option<Id>)
    requires s.Signal? && At(env, g, s, c, k, j)
    ensures c < |g| && g[c].kind == SIGNAL && g[c].info.Timer?
    ensures g[c].info.millis > 0 <==> s.timeout >= 1_000_000
    ensures s.timeout >= 0 ==> g[c].info.millis * 1_000_000 <= s.timeout < (g[c].info.millis + 1) * 1_000_000
    ensures g[c].alt.Some? <==> s.escalation != []
  {
    hide Emit;
    SignalParts(env, g, s, c, k, j);
  }

  /**
   * An escalation with a positive timeout of less than a millisecond is accepted, and is never run: its signal
   * has the edge to it but no timer to take it.
   */
  lemma TooShortATimer()
    ensures var escalation := [Task("remind", "", NO_RETRY, false, "")];
            var steps := [Signal("approval", 1, escalation)];
            var g := Program(FlowEnv("order", ""), steps);
            CheckFlow("order", steps).Accepted? && g[0].kind == SIGNAL && g[0].alt == Some(1) && g[0].info == Timer(0)
  {
    var task := Task("remind", "", NO_RETRY, false, "");
    var escalation := [task];
    var signal := Signal("approval", 1, escalation);
    var steps := [signal];
    var env := FlowEnv("order", "");
    assert Reserve("approval", {}) == Accepted({"approval"});
    assert CheckSeq(escalation, 0, {"approval"}) == Accepted({"approval"});
    assert CheckSeq(escalation, 1, {"approval"}) == Check(task, {"approval"});
    assert Check(task, {"approval"}) == Reserve("remind", {"approval"});
    assert Check(signal, {}).Accepted?;
    assert CheckSeq(steps, 0, {}) == Accepted({});
    assert CheckSeq(steps, 1, {}) == Check(signal, {});
    ProgramParts(env, steps);
    var last := SizeSeq(steps, 1, false);
    assert SizeSeq(steps, 0, false) == 0;
    StepOf(env, Program(env, steps), steps, 0, 0, last, None);
    SignalParts(env, Program(env, steps), signal, 0, last, None);
  }
}
