/**
 * The compiler itself: a mutable graph shared by nested builders, each keeping its dangling edges and
 * wiring them to whatever comes next. Every method is tied to the one-pass `Layout`, and `Wire` may only
 * set an edge of an existing node that was not set before.
 */
module Compiler {
  import opened Topology
  import opened Layout
  import opened WellFormed
  import opened Wiring

  /** A value, or the mistake the compiler stopped at, which the Go client panics with and recovers in compile. */
  datatype Outcome<+T> = Done(value: T) | Mistake(error: Error) {
    predicate IsFailure() { Mistake? }
    function PropagateFailure<U>(): Outcome<U> requires Mistake? { Mistake(error) }
    function Extract(): T requires Done? { value }
  }

  /** The nodes stored under ids 0 to n-1, in that order. */
  ghost function Listing(nodes: map<Id, Node>, n: nat): seq<Node>
    requires forall i :: 0 <= i < n ==> i in nodes
  {
    seq(n, i requires 0 <= i < n => nodes[i])
  }

  /** The queues some worker node of the list names. */
  ghost function QueuesOf(nodes: seq<Node>): set<string> {
    set i | 0 <= i < |nodes| && nodes[i].info.Work? :: nodes[i].info.queue
  }

  lemma QueuesOfAppend(nodes: seq<Node>, n: Node)
    ensures QueuesOf(nodes + [n]) == QueuesOf(nodes) + (if n.info.Work? then {n.info.queue} else {})
  {
    var more := nodes + [n];
    forall q | q in QueuesOf(nodes) ensures q in QueuesOf(more) {
      var i :| 0 <= i < |nodes| && nodes[i].info.Work? && nodes[i].info.queue == q;
      assert more[i] == nodes[i];
    }
    if n.info.Work? { assert more[|nodes|] == n; }
  }

  lemma QueuesOfUpdate(nodes: seq<Node>, i: nat, n: Node)
    requires i < |nodes| && n.info.Work? == nodes[i].info.Work?
    requires n.info.Work? ==> n.info.queue == nodes[i].info.queue
    ensures QueuesOf(nodes[i := n]) == QueuesOf(nodes)
  {
    var more := nodes[i := n];
    forall q | q in QueuesOf(nodes) ensures q in QueuesOf(more) {
      var x :| 0 <= x < |nodes| && nodes[x].info.Work? && nodes[x].info.queue == q;
      assert more[x].info.Work? && more[x].info.queue == q;
    }
    forall q | q in QueuesOf(more) ensures q in QueuesOf(nodes) {
      var x :| 0 <= x < |more| && more[x].info.Work? && more[x].info.queue == q;
      assert nodes[x].info.Work? && nodes[x].info.queue == q;
    }
  }

  class Graph {
    const env: Env
    var nodes: map<Id, Node>
    var queues: set<string>
    var reserved: set<string>
    var startNode: Option<Id>
    var counter: nat

    ghost predicate Valid()
      reads this
    {
      && (forall i :: i in nodes <==> 0 <= i < counter)
      && queues == QueuesOf(Contents())
    }

    /** The nodes, in the order of their creation. */
    ghost function Contents(): seq<Node>
      requires forall i :: i in nodes <==> 0 <= i < counter
      reads this
    {
      Listing(nodes, counter)
    }

    constructor (name: string, defaultQueue: string)
      ensures Valid() && env == Env(name, defaultQueue)
      ensures Contents() == [] && reserved == {} && startNode == None
    {
      env := Env(name, defaultQueue);
      nodes, queues, reserved, startNode, counter := map[], {}, {}, None, 0;
    }

    method Reserve(name: string) returns (r: Outcome<()>)
      modifies this`reserved
      ensures r.Done? ==> WellFormed.Reserve(name, old(reserved)) == Accepted(reserved)
      ensures r.Mistake? ==> WellFormed.Reserve(name, old(reserved)) == Rejected(r.error)
    {
      if name == "" { return Mistake(NoName); }
      if name in reserved { return Mistake(Duplicate(name)); }
      reserved := reserved + {name};
      return Done(());
    }

    /** Stores a node under the next id. */
    method Add(n: Node) returns (id: Id)
      requires Valid() && !n.info.Work?
      modifies this`nodes, this`counter
      ensures Valid() && id == |old(Contents())| && Contents() == old(Contents()) + [n]
    {
      ghost var before := Contents();
      id := counter;
      counter := counter + 1;
      nodes := nodes[id := n];
      assert Contents() == before + [n];
      QueuesOfAppend(before, n);
    }

    /** Reserves the name of a worker node, and stores it under the next id with its queue. */
    method AddWorker(n: Node) returns (r: Outcome<Id>)
      requires Valid() && n.info.Work?
      modifies this`nodes, this`counter, this`reserved, this`queues
      ensures r.Done? ==>
                && Valid() && r.value == |old(Contents())| && Contents() == old(Contents()) + [n]
                && WellFormed.Reserve(n.name, old(reserved)) == Accepted(reserved)
      ensures r.Mistake? ==> WellFormed.Reserve(n.name, old(reserved)) == Rejected(r.error)
    {
      ghost var before := Contents();
      var _ :- Reserve(n.name);
      var id := counter;
      counter := counter + 1;
      queues := queues + {n.info.queue};
      nodes := nodes[id := n];
      assert Contents() == before + [n];
      QueuesOfAppend(before, n);
      return Done(id);
    }

    /** Sets an edge that is not set yet. */
    method Wire(id: Id, edge: Edge, target: Id)
      requires Valid()
      requires id < |Contents()| && EdgeOf(Contents()[id], edge) == None
      modifies this`nodes
      ensures Valid() && Contents() == Wiring.Wire(old(Contents()), OpenEnd(id, edge), target)
    {
      ghost var before := Contents();
      nodes := nodes[id := Patch(nodes[id], edge, target)];
      assert Contents() == before[id := Patch(before[id], edge, target)];
      QueuesOfUpdate(before, id, Patch(before[id], edge, target));
    }

    method SetBranches(id: Id, starts: seq<Id>)
      requires Valid()
      requires id < |Contents()| && Contents()[id].branches == []
      modifies this`nodes
      ensures Valid() && Contents() == old(Contents())[id := old(Contents())[id].(branches := starts)]
    {
      ghost var before := Contents();
      nodes := nodes[id := nodes[id].(branches := starts)];
      assert Contents() == before[id := before[id].(branches := starts)];
      QueuesOfUpdate(before, id, before[id].(branches := starts));
    }
  }

  /** All a builder sees and changes: the shared graph, and its own open ends and start. */
  datatype View = View(nodes: seq<Node>, names: set<string>, graphStart: Option<Id>, open: seq<OpenEnd>,
                       start: Option<Id>)

  /** The open ends wired to a node, or else the node made the start. */
  ghost function Attached(v: View, id: Id, isRoot: bool): View {
    if v.open != [] then v.(nodes := WireAll(v.nodes, v.open, id), open := [])
    else if v.start.None? then v.(start := Some(id), graphStart := if isRoot then Some(id) else v.graphStart)
    else v
  }

  /** One step laid out after what is there, its own ends open. */
  ghost function AfterStep(env: Env, v: View, s: Step, j: Option<Id>, isRoot: bool): View
    requires Check(s, v.names).Accepted?
  {
    var c := |v.nodes|;
    var w := Attached(v, Entry(s, c), isRoot);
    w.(nodes := w.nodes + Emit(env, s, c, None, j), names := Check(s, v.names).names, open := Opens(s, c, j.Some?))
  }

  /** The first n steps laid out after what is there. */
  ghost function AfterSeq(env: Env, v: View, steps: seq<Step>, n: nat, j: Option<Id>, isRoot: bool): View
    requires n <= |steps| && CheckSeq(steps, n, v.names).Accepted?
  {
    if n == 0 then v
    else
      var c := |v.nodes|;
      var w := Attached(v, EntrySeq(steps, c), isRoot);
      w.(nodes := w.nodes + EmitSeq(env, steps, n, c, None, j), names := CheckSeq(steps, n, v.names).names,
         open := OpensSeq(steps, n, c, j.Some?))
  }

  /** The view of a builder before its first step. */
  ghost function Blank(nodes: seq<Node>, names: set<string>, graphStart: Option<Id>): View {
    View(nodes, names, graphStart, [], None)
  }

  /** Laying out one more step wires the ends the steps before it left open to its entry. */
  lemma EmitSeqMore(env: Env, pre: seq<Node>, steps: seq<Step>, n: nat, j: Option<Id>)
    requires n < |steps|
    ensures var c' := |pre| + SizeSeq(steps, n, j.Some?);
            WireAll(pre + EmitSeq(env, steps, n, |pre|, None, j), OpensSeq(steps, n, |pre|, j.Some?),
                    Entry(steps[n], c')) +
            Emit(env, steps[n], c', None, j) ==
            pre + EmitSeq(env, steps, n + 1, |pre|, None, j)
  {
    var s, c' := steps[n], |pre| + SizeSeq(steps, n, j.Some?);
    var shut := EmitSeq(env, steps, n, |pre|, Some(Entry(s, c')), j);
    WireEmitSeq(env, pre, steps, n, j, Entry(s, c'));
    assert (pre + shut) + Emit(env, s, c', None, j) == pre + (shut + Emit(env, s, c', None, j));
  }

  lemma OpensSeqSomething(steps: seq<Step>, n: nat, c: Id, inArm: bool, names: set<string>)
    requires 0 < n <= |steps| && CheckSeq(steps, n, names).Accepted?
    ensures OpensSeq(steps, n, c, inArm) != []
  {
    CheckSeqIff(steps, n, names);
    OpensSomething(steps[n - 1], c + SizeSeq(steps, n - 1, inArm), inArm);
  }

  lemma AfterSeqStep(env: Env, v: View, steps: seq<Step>, n: nat, j: Option<Id>, isRoot: bool)
    requires n < |steps| && CheckSeq(steps, n + 1, v.names).Accepted?
    ensures AfterStep(env, AfterSeq(env, v, steps, n, j, isRoot), steps[n], j, isRoot) ==
            AfterSeq(env, v, steps, n + 1, j, isRoot)
  {
    hide Emit, Opens, Check, Entry, Attached, WireFirst;
    if n == 0 {
      FirstStep(env, Attached(v, EntrySeq(steps, |v.nodes|), isRoot).nodes, steps, j);
    } else {
      AfterNextStep(env, v, steps, n, j, isRoot);
    }
  }

  lemma FirstStep(env: Env, pre: seq<Node>, steps: seq<Step>, j: Option<Id>)
    requires |steps| > 0
    ensures EmitSeq(env, steps, 1, |pre|, None, j) == Emit(env, steps[0], |pre|, None, j)
    ensures OpensSeq(steps, 1, |pre|, j.Some?) == Opens(steps[0], |pre|, j.Some?)
  {
    hide Emit, Opens;
  }

  lemma AfterNextStep(env: Env, v: View, steps: seq<Step>, n: nat, j: Option<Id>, isRoot: bool)
    requires 0 < n < |steps| && CheckSeq(steps, n + 1, v.names).Accepted?
    ensures AfterStep(env, AfterSeq(env, v, steps, n, j, isRoot), steps[n], j, isRoot) ==
            AfterSeq(env, v, steps, n + 1, j, isRoot)
  {
    hide Emit, Opens, Check, Entry, WireFirst;
    var w := Attached(v, EntrySeq(steps, |v.nodes|), isRoot);
    var before := AfterSeq(env, v, steps, n, j, isRoot);
    EmitSeqMore(env, w.nodes, steps, n, j);
    OpensSeqSomething(steps, n, |v.nodes|, j.Some?, v.names);
    assert Attached(before, Entry(steps[n], |before.nodes|), isRoot).start == w.start;
  }

  /** A step laid out after what was there, with what was open attached to its entry. */
  lemma Laid(env: Env, v: View, w: View, s: Step, j: Option<Id>, isRoot: bool, seen: View)
    requires w == Attached(v, Entry(s, |v.nodes|), isRoot)
    requires Check(s, v.names) == Accepted(seen.names)
    requires seen.nodes == w.nodes + Emit(env, s, |v.nodes|, None, j) && seen.open == Opens(s, |v.nodes|, j.Some?)
    requires seen.start == w.start && seen.graphStart == w.graphStart
    ensures seen == AfterStep(env, v, s, j, isRoot)
    ensures AllFree(seen.nodes, seen.open)
  {
    hide Emit, Opens, Entry, Check, WireFirst, AllFree, Size;
    FreeEmit(env, w.nodes, s, j);
  }

  /** Wiring ends of the nodes there were leaves nodes added since alone. */
  lemma AttachedBefore(v: View, more: seq<Node>, names: set<string>, id: Id, isRoot: bool)
    requires AllFree(v.nodes, v.open)
    ensures var w := Attached(v, id, isRoot);
            && Attached(v.(nodes := v.nodes + more, names := names), id, isRoot) ==
               w.(nodes := w.nodes + more, names := names)
            && |w.nodes| == |v.nodes|
    ensures AllFree(v.nodes + more, v.open)
  {
    WireFirstPrefix(v.nodes, more, v.open, |v.open|, id);
  }

  /** The guards of a choice while it is compiled: alts of them wired to the next guard, nexts to their case. */
  ghost function GuardsSoFar(env: Env, cases: seq<Block>, c: Id, inArm: bool, alts: nat, nexts: nat): (nodes: seq<Node>)
    ensures |nodes| == Guards(cases)
  {
    seq(Guards(cases), i requires 0 <= i < Guards(cases) =>
      WorkerNode(env, PREDICATE, cases[i].tag, "", NO_RETRY).(
        next := if i < nexts then Some(BlockStart(cases, i, c + Guards(cases), inArm)) else None,
        alt := if i < alts then Some(c + i + 1) else None))
  }

  /** What a builder of its own leaves behind. */
  lemma SubLaid(env: Env, nodes: seq<Node>, seen: View, names: set<string>, graphStart: Option<Id>, steps: seq<Step>,
                j: Option<Id>)
    requires CheckSeq(steps, |steps|, names).Accepted?
    requires seen == AfterSeq(env, Blank(nodes, names, graphStart), steps, |steps|, j, false)
    ensures seen.nodes == nodes + EmitSeq(env, steps, |steps|, |nodes|, None, j)
    ensures seen.open == OpensSeq(steps, |steps|, |nodes|, j.Some?)
    ensures seen.start == (if steps == [] then None else Some(EntrySeq(steps, |nodes|)))
    ensures seen.graphStart == graphStart && CheckSeq(steps, |steps|, names) == Accepted(seen.names)
  {}

  /** The ends steps leave open, wired while there are nodes after them. */
  lemma BodyWired(env: Env, pre: seq<Node>, steps: seq<Step>, j: Option<Id>, more: seq<Node>, t: Id)
    ensures var open := OpensSeq(steps, |steps|, |pre|, j.Some?);
            && AllFree(pre + EmitSeq(env, steps, |steps|, |pre|, None, j) + more, open)
            && WireAll(pre + EmitSeq(env, steps, |steps|, |pre|, None, j) + more, open, t) ==
               pre + EmitSeq(env, steps, |steps|, |pre|, Some(t), j) + more
  {
    var open, inner := OpensSeq(steps, |steps|, |pre|, j.Some?), EmitSeq(env, steps, |steps|, |pre|, None, j);
    FreeEmitSeq(env, pre, steps, |steps|, j);
    WireEmitSeq(env, pre, steps, |steps|, j, t);
    OpensSeqWithin(steps, |steps|, |pre|, j.Some?);
    WireFirstPrefix(pre + inner, more, open, |open|, t);
  }

  // ---- what each kind of step comes to, one unfolding at a time ----

  lemma TaskIs(env: Env, s: Step, c: Id, j: Option<Id>, names: set<string>)
    requires s.Task?
    ensures var task := TaskNode(env, s.name, s.queue, s.retry, s.compensate);
            && Entry(s, c) == c
            && (s.combine == "" ==>
                  && Emit(env, s, c, None, j) == [task] && Opens(s, c, j.Some?) == [OpenEnd(c, Next)]
                  && Check(s, names) == Reserve(s.name, names))
            && (s.combine != "" ==>
                  && Emit(env, s, c, None, j) == [task.(next := Some(c + 1)), JoinNode(0).(next := Some(c + 2)),
                                                  CollectNode(env, s.combine, SPAWN_PREFIX + s.name)]
                  && Opens(s, c, j.Some?) == [OpenEnd(c + 2, Next)]
                  && Check(s, names) == (var names :- Reserve(s.name, names); Reserve(s.combine, names)))
  {}

  /** A node chained after what there is. */
  ghost function Chained(v: View, n: Node, isRoot: bool): View {
    var w := Attached(v, |v.nodes|, isRoot);
    w.(nodes := w.nodes + [n], open := [OpenEnd(|v.nodes|, Next)])
  }

  /** A spawning step is its task, a dynamic join and its combine, chained one after the other. */
  lemma TaskLaid(env: Env, v: View, s: Step, j: Option<Id>, isRoot: bool)
    requires s.Task?
    ensures var v1 := Chained(v, TaskNode(env, s.name, s.queue, s.retry, s.compensate), isRoot);
            && (s.combine == "" ==>
                  && Check(s, v.names) == Reserve(s.name, v.names)
                  && (Check(s, v.names).Accepted? ==>
                        AfterStep(env, v, s, j, isRoot) == v1.(names := Check(s, v.names).names)))
            && (s.combine != "" ==>
                  && Check(s, v.names) == (var names :- Reserve(s.name, v.names); Reserve(s.combine, names))
                  && (Check(s, v.names).Accepted? ==>
                        var v2 := Chained(v1.(names := v.names + {s.name}), JoinNode(0), isRoot);
                        AfterStep(env, v, s, j, isRoot) ==
                        Chained(v2, CollectNode(env, s.combine, SPAWN_PREFIX + s.name), isRoot).(
                          names := Check(s, v.names).names)))
  {
    hide Emit, Opens, Check, Entry, WireFirst, Attached, Reserve;
    TaskIs(env, s, |v.nodes|, j, v.names);
    if s.combine != "" && Check(s, v.names).Accepted? {
      ReservesTwice(s.name, s.combine, v.names);
      SpawnLaid(env, v, s, j, isRoot);
    }
  }

  lemma ReservesTwice(a: string, b: string, names: set<string>)
    requires (var more :- Reserve(a, names); Reserve(b, more)).Accepted?
    ensures Reserve(a, names) == Accepted(names + {a}) && Reserve(b, names + {a}) == Accepted(names + {a} + {b})
  {}

  lemma SpawnLaid(env: Env, v: View, s: Step, j: Option<Id>, isRoot: bool)
    requires s.Task? && s.combine != "" && Check(s, v.names).Accepted?
    ensures var v1 := Chained(v, TaskNode(env, s.name, s.queue, s.retry, s.compensate), isRoot);
            var v2 := Chained(v1.(names := v.names + {s.name}), JoinNode(0), isRoot);
            AfterStep(env, v, s, j, isRoot) ==
            Chained(v2, CollectNode(env, s.combine, SPAWN_PREFIX + s.name), isRoot).(names := Check(s, v.names).names)
  {
    hide Emit, Opens, Check, Entry, WireFirst;
    var c, w, task := |v.nodes|, Attached(v, |v.nodes|, isRoot), TaskNode(env, s.name, s.queue, s.retry, s.compensate);
    TaskIs(env, s, c, j, v.names);
    var nodes, collect := w.nodes + [task.(next := Some(c + 1))], CollectNode(env, s.combine, SPAWN_PREFIX + s.name);
    WireOne(w.nodes + [task], OpenEnd(c, Next), c + 1);
    WireLast(w.nodes, task, Next, c + 1);
    WireOne(nodes + [JoinNode(0)], OpenEnd(c + 1, Next), c + 2);
    WireLast(nodes, JoinNode(0), Next, c + 2);
    assert nodes + [JoinNode(0).(next := Some(c + 2))] + [collect] == w.nodes + Emit(env, s, c, None, j);
  }

  lemma GateIs(env: Env, s: Step, c: Id, j: Option<Id>, names: set<string>)
    requires s.Gate?
    ensures var gate := WorkerNode(env, PREDICATE, s.name, s.queue, s.retry);
            && Entry(s, c) == c && Opens(s, c, j.Some?) == [OpenEnd(c, Next)] &&
              Check(s, names) == Reserve(s.name, names)
            && (j.Some? ==> Emit(env, s, c, None, j) == [gate.(alt := j)])
            && (j.None? ==> Emit(env, s, c, None, j) == [gate.(alt := Some(c + 1)), EndNode(GatedReason(s.name))])
  {}

  lemma SignalIs(env: Env, s: Step, c: Id, j: Option<Id>, names: set<string>)
    requires s.Signal?
    ensures var signal, esc := TimerNode(SIGNAL, s.name, Millis(s.timeout)), s.escalation;
            && Entry(s, c) == c
            && Opens(s, c, j.Some?) == [OpenEnd(c, Next)] + OpensSeq(esc, |esc|, c + 1, j.Some?)
            && (esc == [] ==> Emit(env, s, c, None, j) == [signal] && Check(s, names) == Reserve(s.name, names)
                              && Opens(s, c, j.Some?) == [OpenEnd(c, Next)])
            && (esc != [] ==>
                  && Emit(env, s, c, None, j) ==
                     [signal.(alt := Some(EntrySeq(esc, c + 1)))] + EmitSeq(env, esc, |esc|, c + 1, None, j)
                  && Check(s, names) == (var names :- Reserve(s.name, names);
                                         if s.timeout <= 0 then Rejected(EscalationTimeout(s.name))
                                         else CheckSeq(esc, |esc|, names)))
  {}

  lemma SignalIsFree(s: Step)
    requires s.Signal?
    ensures var n := TimerNode(SIGNAL, s.name, Millis(s.timeout)); n.next.None? && n.alt.None?
  {}

  lemma LoopIs(env: Env, s: Step, c: Id, j: Option<Id>, names: set<string>)
    requires s.Loop?
    ensures var body, cond := s.body, c + SizeSeq(s.body, |s.body|, j.Some?);
            && Entry(s, c) == EntrySeq(body, c) && Opens(s, c, j.Some?) == [OpenEnd(cond, Alt)]
            && Emit(env, s, c, None, j) ==
               EmitSeq(env, body, |body|, c, Some(cond), j) +
               [ConditionNode(env, s.while_, s.maxIterations).(next := Some(EntrySeq(body, c)))]
            && Check(s, names) == (var names :- CheckSeq(body, |body|, names);
                                   if body == [] then Rejected(EmptyLoop)
                                   else if s.maxIterations < 0 then Rejected(BadBudget(s.while_))
                                   else Reserve(s.while_, names))
  {}

  lemma LoopLaid(env: Env, pre: seq<Node>, s: Step, c: Id, j: Option<Id>)
    requires s.Loop?
    ensures var cond := c + SizeSeq(s.body, |s.body|, j.Some?);
            pre + EmitSeq(env, s.body, |s.body|, c, Some(cond), j) +
            [ConditionNode(env, s.while_, s.maxIterations).(next := Some(EntrySeq(s.body, c)))] ==
            pre + Emit(env, s, c, None, j)
  {
    hide Emit, EmitSeq;
    LoopIs(env, s, c, j, {});
  }

  /** A loop whose condition has been wired back is laid out. */
  lemma LoopClosed(env: Env, v: View, s: Step, j: Option<Id>, isRoot: bool, names: set<string>, seen: View)
    requires s.Loop? && s.body != [] && s.maxIterations >= 0
    requires CheckSeq(s.body, |s.body|, v.names) == Accepted(names)
    requires Reserve(s.while_, names) == Accepted(seen.names)
    requires var start, cond := EntrySeq(s.body, |v.nodes|), |v.nodes| + SizeSeq(s.body, |s.body|, j.Some?);
             var w := Attached(v, start, isRoot);
             && seen.nodes == w.nodes + EmitSeq(env, s.body, |s.body|, |v.nodes|, Some(cond), j) +
                              [ConditionNode(env, s.while_, s.maxIterations).(next := Some(start))]
             && seen.open == [OpenEnd(cond, Alt)] && seen.start == w.start && seen.graphStart == w.graphStart
    requires |Attached(v, EntrySeq(s.body, |v.nodes|), isRoot).nodes| == |v.nodes|
    ensures Check(s, v.names).Accepted? && seen == AfterStep(env, v, s, j, isRoot) && AllFree(seen.nodes, seen.open)
  {
    hide Emit, EmitSeq, Opens, Check, CheckSeq, Entry, EntrySeq, Size, SizeSeq, Attached, Reserve, AllFree;
    var w := Attached(v, EntrySeq(s.body, |v.nodes|), isRoot);
    LoopIs(env, s, |v.nodes|, j, v.names);
    LoopLaid(env, w.nodes, s, |v.nodes|, j);
    Laid(env, v, w, s, j, isRoot, seen);
  }

  lemma ForkIs(env: Env, s: Step, c: Id, j: Option<Id>, names: set<string>)
    requires s.Fork?
    ensures var arms, inner := s.arms, EmitBlocks(env, s.arms, |s.arms|, c + 2, Some(c + 1), Some(c + 1));
            && Entry(s, c) == c && Opens(s, c, j.Some?) == [OpenEnd(c + 2 + |inner|, Next)]
            && Emit(env, s, c, None, j) ==
               [ForkNode().(branches := Starts(arms, |arms|, c + 2, true)),
                JoinNode(|arms|).(next := Some(c + 2 + |inner|))] + inner + [CombineNode(env, s.combine,
                    Tags(arms, |arms|))]
            && (|arms| >= 2 && s.combine != "" ==>
                  Check(s, names) == (var names :- CheckBlocks(arms, |arms|, names, true); Reserve(s.combine, names)))
  {}

  lemma ForkLaid(env: Env, pre: seq<Node>, s: Step, c: Id, j: Option<Id>, inner: seq<Node>)
    requires s.Fork? && inner == EmitBlocks(env, s.arms, |s.arms|, c + 2, Some(c + 1), Some(c + 1))
    ensures (pre + [ForkNode().(branches := Starts(s.arms, |s.arms|, c + 2, true))]) +
            [JoinNode(|s.arms|).(next := Some(c + 2 + |inner|))] +
            (inner + [CombineNode(env, s.combine, Tags(s.arms, |s.arms|))]) ==
            pre + Emit(env, s, c, None, j)
  {
    hide Emit, EmitBlocks;
    ForkIs(env, s, c, j, {});
  }

  lemma ForEachIs(env: Env, s: Step, c: Id, j: Option<Id>, names: set<string>)
    requires s.ForEach?
    ensures var body, name := s.body, ForEachName(s.name, s.itemsKey);
            var inner := EmitSeq(env, body, |body|, c + 2, Some(c + 1), Some(c + 1));
            && Entry(s, c) == c && Opens(s, c, j.Some?) == [OpenEnd(c + 2 + |inner|, Next)]
            && Emit(env, s, c, None, j) ==
               [DynForkNode(name, s.itemsKey).(next := Some(c + 1), branches := [EntrySeq(body, c + 2)]),
                JoinNode(0).(next := Some(c + 2 + |inner|))] + inner +
               [CollectNode(env, s.combine, FOR_EACH_PREFIX + name)]
            && (body != [] && s.combine != "" ==>
                  Check(s, names) == (var names :- Reserve(name, names);
                                      var names :- CheckBlock(Block(name, body), names, true);
                                      Reserve(s.combine, names)))
  {
    hide Check, EmitSeq, EntrySeq, OpensSeq, SizeSeq;
    if s.body != [] && s.combine != "" { ForEachCheck(s, names); }
  }

  lemma ForEachCheck(s: Step, names: set<string>)
    requires s.ForEach? && s.body != [] && s.combine != ""
    ensures Check(s, names) == (var own :- Reserve(ForEachName(s.name, s.itemsKey), names);
                                var inner :- CheckBlock(Block(ForEachName(s.name, s.itemsKey), s.body), own, true);
                                Reserve(s.combine, inner))
  {}

  lemma ForEachLaid(env: Env, pre: seq<Node>, s: Step, c: Id, j: Option<Id>, inner: seq<Node>)
    requires s.ForEach? && inner == EmitSeq(env, s.body, |s.body|, c + 2, Some(c + 1), Some(c + 1))
    ensures var name := ForEachName(s.name, s.itemsKey);
            (pre + [DynForkNode(name, s.itemsKey).(next := Some(c + 1), branches := [EntrySeq(s.body, c + 2)])]) +
            [JoinNode(0).(next := Some(c + 2 + |inner|))] +
            (inner + [CollectNode(env, s.combine, FOR_EACH_PREFIX + name)]) ==
            pre + Emit(env, s, c, None, j)
  {
    hide Emit, EmitSeq;
    ForEachIs(env, s, c, j, {});
  }

  lemma UpdateMid(pre: seq<Node>, n: Node, post: seq<Node>, m: Node)
    ensures (pre + [n] + post)[|pre| := m] == pre + [m] + post
  {}

  // ---- choices ----

  lemma GuardAlt(env: Env, pre: seq<Node>, cases: seq<Block>, inArm: bool, i: nat)
    requires i < Guards(cases)
    ensures Wire(pre + GuardsSoFar(env, cases, |pre|, inArm, i, 0), OpenEnd(|pre| + i, Alt), |pre| + i + 1) ==
            pre + GuardsSoFar(env, cases, |pre|, inArm, i + 1, 0)
    ensures EdgeOf((pre + GuardsSoFar(env, cases, |pre|, inArm, i, 0))[|pre| + i], Alt) == None
  {}

  lemma GuardNext(env: Env, pre: seq<Node>, cases: seq<Block>, inArm: bool, i: nat, post: seq<Node>)
    requires i < Guards(cases)
    ensures var n, before := Guards(cases), pre + (GuardsSoFar(env, cases, |pre|, inArm, Guards(cases) - 1, i) + post);
            && Wire(before, OpenEnd(|pre| + i, Next), BlockStart(cases, i, |pre| + n, inArm)) ==
               pre + (GuardsSoFar(env, cases, |pre|, inArm, n - 1, i + 1) + post)
            && EdgeOf(before[|pre| + i], Next) == None
  {}

  lemma GuardLast(env: Env, pre: seq<Node>, cases: seq<Block>, inArm: bool, post: seq<Node>)
    requires Guards(cases) > 0 && HasDefault(cases)
    ensures var n, before := Guards(cases),
            pre + (GuardsSoFar(env, cases, |pre|, inArm, Guards(cases) - 1, Guards(cases)) + post);
            && Wire(before, OpenEnd(|pre| + n - 1, Alt), BlockStart(cases, n, |pre| + n, inArm)) ==
               pre + (EmitGuards(env, cases, |pre|, None, inArm) + post)
            && EdgeOf(before[|pre| + n - 1], Alt) == None
  {}

  lemma GuardsDone(env: Env, cases: seq<Block>, c: Id, inArm: bool)
    requires Guards(cases) > 0 && !HasDefault(cases)
    ensures GuardsSoFar(env, cases, c, inArm, Guards(cases) - 1, Guards(cases)) ==
            EmitGuards(env, cases, c, None, inArm)
  {
    assert forall i :: 0 <= i < Guards(cases) ==>
      GuardsSoFar(env, cases, c, inArm, Guards(cases) - 1, Guards(cases))[i] == EmitGuard(env, cases, i, c, None,
          inArm);
  }

  lemma GuardsBegun(env: Env, cases: seq<Block>, c: Id, inArm: bool, nodes: seq<Node>)
    requires |nodes| == Guards(cases)
    requires forall i :: 0 <= i < |nodes| ==> nodes[i] == WorkerNode(env, PREDICATE, cases[i].tag, "", NO_RETRY)
    ensures nodes == GuardsSoFar(env, cases, c, inArm, 0, 0)
  {}

  lemma ChooseIs(env: Env, s: Step, c: Id, j: Option<Id>, names: set<string>)
    requires s.Choose? && Guards(s.cases) > 0
    requires forall i :: 0 <= i < |s.cases| - 1 ==> s.cases[i].tag != ""
    ensures var cases, n := s.cases, Guards(s.cases);
            && Entry(s, c) == c
            && Emit(env, s, c, None, j) ==
               EmitGuards(env, cases, c, None, j.Some?) + EmitBlocks(env, cases, |cases|, c + n, None, j)
            && Opens(s, c, j.Some?) == OpensBlocks(cases, |cases|, c + n, j.Some?) + LastAlt(cases, c)
            && Check(s, names) == (var names :- CheckGuards(cases, n, names); CheckBlocks(cases, |cases|, names, false))
  {}

  /** One more case of a choice. */
  lemma CasesStep(env: Env, cases: seq<Block>, i: nat, c: Id, j: Option<Id>, names: set<string>)
    requires i < |cases| && CheckBlocks(cases, i, names, false).Accepted?
    ensures var steps, c' := cases[i].steps, c + SizeBlocks(cases, i, j.Some?);
            && EmitBlocks(env, cases, i + 1, c, None, j) ==
               EmitBlocks(env, cases, i, c, None, j) + EmitSeq(env, steps, |steps|, c', None, j)
            && |EmitBlocks(env, cases, i, c, None, j)| == SizeBlocks(cases, i, j.Some?)
            && OpensBlocks(cases, i + 1, c, j.Some?) ==
               OpensBlocks(cases, i, c, j.Some?) + OpensSeq(steps, |steps|, c', j.Some?)
            && BlockStart(cases, i, c, j.Some?) == EntrySeq(steps, c')
            && CheckBlocks(cases, i + 1, names, false) ==
               CheckBlock(cases[i], CheckBlocks(cases, i, names, false).names, false)
  {}

  /** The nodes of a choice of which i cases are laid out, their ends open. */
  ghost function ChoiceSoFar(env: Env, cases: seq<Block>, i: nat, c: Id, j: Option<Id>): seq<Node>
    requires i <= |cases| && Guards(cases) > 0
  {
    (if i <= Guards(cases) then GuardsSoFar(env, cases, c, j.Some?, Guards(cases) - 1, i)
     else EmitGuards(env, cases, c, None, j.Some?)) +
    EmitBlocks(env, cases, i, c + Guards(cases), None, j)
  }

  /** The edge that enters case i: its own guard's, or the last guard's false edge if it is the otherwise. */
  function CaseEdge(cases: seq<Block>, i: nat, c: Id): OpenEnd
    requires i < |cases| && Guards(cases) > 0
  {
    if i < Guards(cases) then OpenEnd(c + i, Next) else OpenEnd(c + Guards(cases) - 1, Alt)
  }

  lemma CaseLaid(env: Env, pre: seq<Node>, cases: seq<Block>, i: nat, j: Option<Id>)
    requires i < |cases| && Guards(cases) > 0
    ensures var c, steps, e := |pre| + Guards(cases), cases[i].steps, CaseEdge(cases, i, |pre|);
            var before := pre + ChoiceSoFar(env, cases, i, |pre|, j);
            && |before| == c + SizeBlocks(cases, i, j.Some?)
            && e.id < |before| && EdgeOf(before[e.id], e.edge) == None
            && Wire(before, e, BlockStart(cases, i, c, j.Some?)) + EmitSeq(env, steps, |steps|, |before|, None, j) ==
               pre + ChoiceSoFar(env, cases, i + 1, |pre|, j)
  {
    hide EmitSeq, EmitGuards, GuardsSoFar, BlockStart, SizeSeq;
    var n, c, inner := Guards(cases), |pre| + Guards(cases), EmitBlocks(env, cases, i, |pre| + Guards(cases), None, j);
    var own := EmitSeq(env, cases[i].steps, |cases[i].steps|, c + |inner|, None, j);
    if i < n {
      GuardNext(env, pre, cases, j.Some?, i, inner);
      Assoc4(pre, GuardsSoFar(env, cases, |pre|, j.Some?, n - 1, i + 1), inner, own);
    } else {
      GuardLast(env, pre, cases, j.Some?, inner);
      Assoc4(pre, EmitGuards(env, cases, |pre|, None, j.Some?), inner, own);
    }
  }

  lemma CasesNone(env: Env, cases: seq<Block>, c: Id, j: Option<Id>, names: set<string>)
    requires Guards(cases) > 0
    ensures ChoiceSoFar(env, cases, 0, c, j) == GuardsSoFar(env, cases, c, j.Some?, Guards(cases) - 1, 0)
    ensures OpensBlocks(cases, 0, c + Guards(cases), j.Some?) == [] &&
            CheckBlocks(cases, 0, names, false) == Accepted(names)
  {}

  lemma Assoc4(a: seq<Node>, b: seq<Node>, c: seq<Node>, d: seq<Node>)
    ensures (a + (b + c)) + d == a + (b + (c + d))
  {}

  lemma CheckGuardsRejects(cases: seq<Block>, i: nat, n: nat, names: set<string>)
    requires i <= n <= |cases| && CheckGuards(cases, i, names).Rejected?
    ensures CheckGuards(cases, n, names) == CheckGuards(cases, i, names)
  {
    if i < n { CheckGuardsRejects(cases, i, n - 1, names); }
  }

  /** One more block, all of them going on to one join. */
  lemma BlocksStep(env: Env, blocks: seq<Block>, i: nat, c: Id, join: Id, names: set<string>)
    requires i < |blocks| && CheckBlocks(blocks, i, names, true).Accepted?
    ensures var steps, c' := blocks[i].steps, c + SizeBlocks(blocks, i, true);
            && EmitBlocks(env, blocks, i + 1, c, Some(join), Some(join)) ==
               EmitBlocks(env, blocks, i, c, Some(join), Some(join)) +
               EmitSeq(env, steps, |steps|, c', Some(join), Some(join))
            && Starts(blocks, i + 1, c, true) == Starts(blocks, i, c, true) + [EntrySeq(steps, c')]
            && Tags(blocks, i + 1) == Tags(blocks, i) + [blocks[i].tag]
            && CheckBlocks(blocks, i + 1, names, true) ==
               CheckBlock(blocks[i], CheckBlocks(blocks, i, names, true).names, true)
  {
    hide EmitSeq, CheckSeq, EntrySeq, SizeSeq, SizeBlocks;
    StartsStep(blocks, i, c);
  }

  lemma StartsStep(blocks: seq<Block>, i: nat, c: Id)
    requires i < |blocks|
    ensures Starts(blocks, i + 1, c, true) == Starts(blocks, i, c, true) + [BlockStart(blocks, i, c, true)]
    ensures Tags(blocks, i + 1) == Tags(blocks, i) + [blocks[i].tag]
  {
    hide BlockStart;
  }

  lemma BlocksNone(env: Env, blocks: seq<Block>, c: Id, join: Id, names: set<string>)
    ensures EmitBlocks(env, blocks, 0, c, Some(join), Some(join)) == [] &&
            CheckBlocks(blocks, 0, names, true) == Accepted(names)
  {}

  lemma AttachedNames(v: View, names: set<string>, id: Id, isRoot: bool)
    ensures Attached(v.(names := names), id, isRoot) == Attached(v, id, isRoot).(names := names)
  {}

  lemma CheckBlocksRejects(blocks: seq<Block>, i: nat, n: nat, names: set<string>, arms: bool)
    requires i <= n <= |blocks| && CheckBlocks(blocks, i, names, arms).Rejected?
    ensures CheckBlocks(blocks, n, names, arms) == CheckBlocks(blocks, i, names, arms)
  {
    if i < n { CheckBlocksRejects(blocks, i, n - 1, names, arms); }
  }

  lemma CheckSeqRejects(steps: seq<Step>, i: nat, n: nat, names: set<string>)
    requires i <= n <= |steps| && CheckSeq(steps, i, names).Rejected?
    ensures CheckSeq(steps, n, names) == CheckSeq(steps, i, names)
  {
    if i < n { CheckSeqRejects(steps, i, n - 1, names); }
  }

  class Builder {
    const g: Graph
    const enclosingJoin: Option<Id>
    const isRoot: bool
    var open: seq<OpenEnd>
    var start: Option<Id>

    ghost predicate Valid()
      reads this, g
    {
      g.Valid() && AllFree(g.Contents(), open)
    }

    ghost function Seen(): View
      requires g.Valid()
      reads this, g
    {
      View(g.Contents(), g.reserved, g.startNode, open, start)
    }

    constructor (g: Graph, enclosingJoin: Option<Id>, isRoot: bool)
      requires g.Valid()
      ensures this.g == g && this.enclosingJoin == enclosingJoin && this.isRoot == isRoot
      ensures Valid() && Seen() == Blank(g.Contents(), g.reserved, g.startNode)
    {
      this.g, this.enclosingJoin, this.isRoot := g, enclosingJoin, isRoot;
      open, start := [], None;
    }

    method WireOpenTo(target: Id)
      requires Valid()
      modifies this`open, g`nodes
      ensures Valid() && Seen() == old(Seen()).(nodes := WireAll(old(g.Contents()), old(open), target), open := [])
    {
      ghost var before := g.Contents();
      for i := 0 to |open|
        invariant g.Valid() && open == old(open)
        invariant g.Contents() == WireFirst(before, open, i, target)
      {
        WireKeepsFree(before, open, i, target);
        g.Wire(open[i].id, open[i].edge, target);
      }
      open := [];
    }

    method Attach(id: Id)
      requires Valid()
      modifies this, g`nodes, g`startNode
      ensures Valid() && Seen() == Attached(old(Seen()), id, isRoot)
    {
      if |open| > 0 {
        WireOpenTo(id);
      } else if start.None? {
        start := Some(id);
        if isRoot { g.startNode := Some(id); }
      }
    }

    method Chain(id: Id)
      requires Valid()
      requires id < |g.Contents()| && g.Contents()[id].next == None && OpenEnd(id, Next) !in open
      modifies this, g`nodes, g`startNode
      ensures Valid() && Seen() == Attached(old(Seen()), id, isRoot).(open := [OpenEnd(id, Next)])
    {
      ghost var before, ends := g.Contents(), open;
      Attach(id);
      WiredStaysFree(before, ends, |ends|, OpenEnd(id, Next), id);
      open := [OpenEnd(id, Next)];
    }

    /** Stores a node and chains it. */
    method ChainNode(n: Node) returns (id: Id)
      requires Valid() && !n.info.Work? && n.next == None
      modifies this, g`nodes, g`counter, g`startNode
      ensures Valid() && id == |old(g.Contents())| && Seen() == Chained(old(Seen()), n, isRoot)
    {
      ghost var v := Seen();
      id := g.Add(n);
      AttachedBefore(v, [n], g.reserved, id, isRoot);
      Chain(id);
    }

    /** Reserves the name of a worker node, stores it and chains it. */
    method ChainWorker(n: Node) returns (r: Outcome<Id>)
      requires Valid() && n.info.Work? && n.next == None
      modifies this, g
      ensures r.Mistake? ==> Reserve(n.name, old(g.reserved)) == Rejected(r.error)
      ensures r.Done? ==>
                && Valid() && r.value == |old(g.Contents())|
                && Reserve(n.name, old(g.reserved)) == Accepted(g.reserved)
                && Seen() == Chained(old(Seen()), n, isRoot).(names := g.reserved)
    {
      ghost var v := Seen();
      var id :- g.AddWorker(n);
      AttachedBefore(v, [n], g.reserved, id, isRoot);
      Chain(id);
      return Done(id);
    }

    method AppendTask(s: Step) returns (r: Outcome<()>)
      requires Valid() && s.Task?
      modifies this, g
      ensures r.Mistake? ==> Check(s, old(g.reserved)) == Rejected(r.error)
      ensures r.Done? ==> Check(s, old(g.reserved)).Accepted?
      ensures r.Done? ==> Valid() && Seen() == AfterStep(g.env, old(Seen()), s, enclosingJoin, isRoot)
    {
      hide Emit, Opens, Check, Entry, WireFirst, QueuesOf, Listing, Chained, Attached;
      ghost var v := Seen();
      TaskLaid(g.env, v, s, enclosingJoin, isRoot);
      var _ :- ChainWorker(TaskNode(g.env, s.name, s.queue, s.retry, s.compensate));
      if s.combine != "" {
        var _ := ChainNode(JoinNode(0));
        var _ :- ChainWorker(CollectNode(g.env, s.combine, SPAWN_PREFIX + s.name));
      }
      return Done(());
    }

    method AppendGate(s: Step) returns (r: Outcome<()>)
      requires Valid() && s.Gate?
      modifies this, g
      ensures r.Mistake? ==> Check(s, old(g.reserved)) == Rejected(r.error)
      ensures r.Done? ==> Check(s, old(g.reserved)).Accepted?
      ensures r.Done? ==> Valid() && Seen() == AfterStep(g.env, old(Seen()), s, enclosingJoin, isRoot)
    {
      hide Emit, EmitSeq, Opens, OpensSeq, Check, CheckSeq, Entry, EntrySeq, WireFirst, Size, SizeSeq, QueuesOf,
        Listing, Attached;
      ghost var v, c := Seen(), |g.Contents()|;
      GateIs(g.env, s, c, enclosingJoin, v.names);
      ghost var w := Attached(v, c, isRoot);
      var gate := WorkerNode(g.env, PREDICATE, s.name, s.queue, s.retry);
      var id :- g.AddWorker(gate);
      AttachedBefore(v, [gate], g.reserved, id, isRoot);
      Attach(id);
      assert Seen() == w.(nodes := w.nodes + [gate], names := g.reserved);
      var target;
      ghost var more := [];
      if enclosingJoin.Some? {
        target := enclosingJoin.value;
      } else {
        target := g.Add(EndNode(GatedReason(s.name)));
        more := [EndNode(GatedReason(s.name))];
      }
      assert g.Contents() == w.nodes + [gate] + more;
      WireMid(w.nodes, gate, more, Alt, target);
      g.Wire(id, Alt, target);
      open := [OpenEnd(id, Next)];
      Laid(g.env, v, w, s, enclosingJoin, isRoot, Seen());
      return Done(());
    }

    /** A sleep or a sub-flow: one node, chained. */
    method AppendPlain(s: Step) returns (r: Outcome<()>)
      requires Valid() && (s.Sleep? || s.SubFlow?)
      modifies this, g
      ensures r.Mistake? ==> Check(s, old(g.reserved)) == Rejected(r.error)
      ensures r.Done? ==> Check(s, old(g.reserved)).Accepted?
      ensures r.Done? ==> Valid() && Seen() == AfterStep(g.env, old(Seen()), s, enclosingJoin, isRoot)
    {
      ghost var v, c := Seen(), |g.Contents()|;
      ghost var w := Attached(v, c, isRoot);
      var node;
      if s.Sleep? {
        node := TimerNode(SLEEP, SleepName(s.name, s.d), Millis(s.d));
      } else {
        if s.workflow == "" { return Mistake(NoChildWorkflow); }
        var _ :- g.Reserve(SubFlowName(s.name, s.workflow));
        node := SubFlowNode(SubFlowName(s.name, s.workflow), s.workflow);
      }
      var id := g.Add(node);
      AttachedBefore(v, [node], g.reserved, id, isRoot);
      Chain(id);
      Laid(g.env, v, w, s, enclosingJoin, isRoot, Seen());
      return Done(());
    }

    method AppendSignal(s: Step) returns (r: Outcome<()>)
      requires Valid() && s.Signal?
      modifies this, g
      ensures r.Mistake? ==> Check(s, old(g.reserved)) == Rejected(r.error)
      ensures r.Done? ==> Check(s, old(g.reserved)).Accepted?
      ensures r.Done? ==> Valid() && Seen() == AfterStep(g.env, old(Seen()), s, enclosingJoin, isRoot)
      decreases s.escalation, |s.escalation| + 2
    {
      hide Emit, EmitSeq, Opens, OpensSeq, Check, CheckSeq, Entry, EntrySeq, WireFirst, Size, SizeSeq, QueuesOf,
        Listing, Attached;
      ghost var v, c := Seen(), |g.Contents()|;
      SignalIs(g.env, s, c, enclosingJoin, v.names);
      ghost var w := Attached(v, c, isRoot);
      var signal, esc := TimerNode(SIGNAL, s.name, Millis(s.timeout)), s.escalation;
      var _ :- g.Reserve(s.name);
      var id := g.Add(signal);
      AttachedBefore(v, [signal], g.reserved, id, isRoot);
      Attach(id);
      assert Seen() == w.(nodes := w.nodes + [signal], names := g.reserved);
      if |esc| == 0 {
        open := [OpenEnd(id, Next)];
        Laid(g.env, v, w, s, enclosingJoin, isRoot, Seen());
        return Done(());
      }
      if s.timeout <= 0 { return Mistake(EscalationTimeout(s.name)); }
      r := AppendEscalation(s, id, v);
    }

    /** The escalation of a signal already added, in a builder of its own. */
    method AppendEscalation(s: Step, id: Id, ghost v: View) returns (r: Outcome<()>)
      requires Valid() && s.Signal? && s.escalation != [] && s.timeout > 0 && id == |v.nodes|
      requires Reserve(s.name, v.names) == Accepted(g.reserved)
      requires var w := Attached(v, id, isRoot);
               && |w.nodes| == id
               && Seen() == w.(nodes := w.nodes + [TimerNode(SIGNAL, s.name, Millis(s.timeout))], names := g.reserved)
      modifies this, g
      ensures r.Mistake? ==> Check(s, v.names) == Rejected(r.error)
      ensures r.Done? ==> Check(s, v.names).Accepted?
      ensures r.Done? ==> Valid() && Seen() == AfterStep(g.env, v, s, enclosingJoin, isRoot)
      decreases s.escalation, |s.escalation| + 1
    {
      hide Emit, EmitSeq, Opens, OpensSeq, Check, CheckSeq, Entry, EntrySeq, WireFirst, Size, SizeSeq, QueuesOf,
        Listing, Attached, TimerNode;
      ghost var w := Attached(v, id, isRoot);
      SignalIs(g.env, s, id, enclosingJoin, v.names);
      var signal, esc := TimerNode(SIGNAL, s.name, Millis(s.timeout)), s.escalation;
      SignalIsFree(s);
      var sub := new Builder(g, enclosingJoin, false);
      var _ :- sub.AppendNodes(esc);
      ghost var inner := EmitSeq(g.env, esc, |esc|, id + 1, None, enclosingJoin);
      SubLaid(g.env, w.nodes + [signal], sub.Seen(), v.names + {s.name}, w.graphStart, esc, enclosingJoin);
      WireMid(w.nodes, signal, inner, Alt, sub.start.value);
      g.Wire(id, Alt, sub.start.value);
      open := [OpenEnd(id, Next)] + sub.open;
      Assoc(w.nodes, [signal.(alt := sub.start)], inner);
      Laid(g.env, v, w, s, enclosingJoin, isRoot, Seen());
      return Done(());
    }

    /** Attaches what was open before the last nodes were added. */
    method AttachBody(id: Id, ghost v: View, ghost more: seq<Node>)
      requires Valid() && AllFree(v.nodes, v.open)
      requires Seen() == v.(nodes := v.nodes + more, names := g.reserved)
      modifies this, g`nodes, g`startNode
      ensures Valid()
      ensures var w := Attached(v, id, isRoot);
              && |w.nodes| == |v.nodes| && Seen() == w.(nodes := w.nodes + more, names := g.reserved)
    {
      AttachedBefore(v, more, g.reserved, id, isRoot);
      Attach(id);
    }

    method AppendLoop(s: Step) returns (r: Outcome<()>)
      requires Valid() && s.Loop?
      modifies this, g
      ensures r.Mistake? ==> Check(s, old(g.reserved)) == Rejected(r.error)
      ensures r.Done? ==> Check(s, old(g.reserved)).Accepted?
      ensures r.Done? ==> Valid() && Seen() == AfterStep(g.env, old(Seen()), s, enclosingJoin, isRoot)
      decreases s.body, |s.body| + 1
    {
      hide Emit, EmitSeq, Opens, OpensSeq, Check, CheckSeq, Entry, EntrySeq, WireFirst, Size, SizeSeq, QueuesOf,
        Listing, Attached;
      ghost var v := Seen();
      LoopIs(g.env, s, |v.nodes|, enclosingJoin, v.names);
      var sub := new Builder(g, enclosingJoin, false);
      var _ :- sub.AppendNodes(s.body);
      SubLaid(g.env, v.nodes, sub.Seen(), v.names, v.graphStart, s.body, enclosingJoin);
      if sub.start.None? { return Mistake(EmptyLoop); }
      if s.maxIterations < 0 { return Mistake(BadBudget(s.while_)); }
      AttachedBefore(v, EmitSeq(g.env, s.body, |s.body|, |v.nodes|, None, enclosingJoin), g.reserved, 0, false);
      r := CloseLoop(s, sub, v);
    }

    /** The condition after a loop's body, with its true edge back to the body's start. */
    method CloseLoop(s: Step, sub: Builder, ghost v: View) returns (r: Outcome<()>)
      requires s.Loop? && s.body != [] && s.maxIterations >= 0
      requires Valid() && sub != this && sub.g == g && AllFree(v.nodes, v.open)
      requires CheckSeq(s.body, |s.body|, v.names) == Accepted(g.reserved)
      requires Seen() == v.(nodes := v.nodes + EmitSeq(g.env, s.body, |s.body|, |v.nodes|, None, enclosingJoin),
                            names := g.reserved)
      requires sub.open == OpensSeq(s.body, |s.body|, |v.nodes|, enclosingJoin.Some?)
      requires sub.start == Some(EntrySeq(s.body, |v.nodes|))
      modifies this, sub, g
      ensures r.Mistake? ==> Check(s, v.names) == Rejected(r.error)
      ensures r.Done? ==> Check(s, v.names).Accepted?
      ensures r.Done? ==> Valid() && Seen() == AfterStep(g.env, v, s, enclosingJoin, isRoot)
    {
      hide Emit, EmitSeq, Opens, OpensSeq, Check, CheckSeq, Entry, EntrySeq, WireFirst, Size, SizeSeq, QueuesOf,
        Listing, Attached, Reserve, AllFree;
      ghost var c, names := |v.nodes|, g.reserved;
      LoopIs(g.env, s, c, enclosingJoin, v.names);
      var node, start := ConditionNode(g.env, s.while_, s.maxIterations), sub.start.value;
      var cond :- g.AddWorker(node);
      assert cond == c + SizeSeq(s.body, |s.body|, enclosingJoin.Some?);
      ghost var inner := EmitSeq(g.env, s.body, |s.body|, c, None, enclosingJoin);
      AttachedBefore(v, inner + [node], g.reserved, start, isRoot);
      Assoc(v.nodes, inner, [node]);
      AttachBody(start, v, inner + [node]);
      WireBack(s, sub, cond, v, names);
      return Done(());
    }

    /** The body's ends go on to the condition, and its true edge goes back to the body's start. */
    method WireBack(s: Step, sub: Builder, cond: Id, ghost v: View, ghost names: set<string>)
      requires s.Loop? && s.body != [] && s.maxIterations >= 0
      requires Valid() && sub != this && sub.g == g
      requires cond == |v.nodes| + SizeSeq(s.body, |s.body|, enclosingJoin.Some?)
      requires CheckSeq(s.body, |s.body|, v.names) == Accepted(names)
      requires Reserve(s.while_, names) == Accepted(g.reserved)
      requires var w := Attached(v, EntrySeq(s.body, |v.nodes|), isRoot);
               && |w.nodes| == |v.nodes|
               && Seen() ==
                  w.(nodes := w.nodes + (EmitSeq(g.env, s.body, |s.body|, |v.nodes|, None, enclosingJoin) +
                                         [ConditionNode(g.env, s.while_, s.maxIterations)]),
                     names := g.reserved)
      requires sub.open == OpensSeq(s.body, |s.body|, |v.nodes|, enclosingJoin.Some?)
      requires sub.start == Some(EntrySeq(s.body, |v.nodes|))
      modifies this`open, sub`open, g`nodes
      ensures Check(s, v.names).Accepted? && Valid()
      ensures Seen() == AfterStep(g.env, v, s, enclosingJoin, isRoot)
    {
      hide Emit, EmitSeq, Opens, OpensSeq, Check, CheckSeq, Entry, EntrySeq, WireFirst, Size, SizeSeq, QueuesOf,
        Listing, Attached, Reserve;
      ghost var c, w := |v.nodes|, Attached(v, EntrySeq(s.body, |v.nodes|), isRoot);
      ghost var node := ConditionNode(g.env, s.while_, s.maxIterations);
      ghost var inner := EmitSeq(g.env, s.body, |s.body|, c, None, enclosingJoin);
      ghost var inner' := EmitSeq(g.env, s.body, |s.body|, c, Some(cond), enclosingJoin);
      Assoc(w.nodes, inner, [node]);
      BodyWired(g.env, w.nodes, s.body, enclosingJoin, [node], cond);
      sub.WireOpenTo(cond);
      assert g.Contents() == w.nodes + inner' + [node];
      WireLast(w.nodes + inner', node, Next, sub.start.value);
      g.Wire(cond, Next, sub.start.value);
      open := [OpenEnd(cond, Alt)];
      LoopClosed(g.env, v, s, enclosingJoin, isRoot, names, Seen());
    }

    /** A fork's arm or a forEach's body: laid out in a builder of its own, its ends wired to the join. */
    method BuildBranch(b: Block, join: Id) returns (r: Outcome<Id>)
      requires g.Valid()
      modifies g
      ensures r.Mistake? ==> CheckBlock(b, old(g.reserved), true) == Rejected(r.error)
      ensures r.Done? ==>
                && g.Valid() && CheckBlock(b, old(g.reserved), true) == Accepted(g.reserved)
                && r.value == EntrySeq(b.steps, |old(g.Contents())|)
                && g.Contents() == old(g.Contents()) +
                   EmitSeq(g.env, b.steps, |b.steps|, |old(g.Contents())|, Some(join), Some(join))
                && g.startNode == old(g.startNode)
      decreases b.steps, |b.steps| + 1
    {
      hide EmitSeq, OpensSeq, CheckSeq, EntrySeq, WireFirst, SizeSeq, QueuesOf, Listing, Attached;
      ghost var nodes, names, graphStart := g.Contents(), g.reserved, g.startNode;
      var sub := new Builder(g, Some(join), false);
      var _ :- sub.AppendNodes(b.steps);
      SubLaid(g.env, nodes, sub.Seen(), names, graphStart, b.steps, Some(join));
      if sub.start.None? { return Mistake(EmptyArm(b.tag)); }
      BodyWired(g.env, nodes, b.steps, Some(join), [], join);
      ghost var inner := EmitSeq(g.env, b.steps, |b.steps|, |nodes|, None, Some(join));
      assert nodes + inner + [] == nodes + inner;
      sub.WireOpenTo(join);
      return Done(sub.start.value);
    }

    /** The arms of a fork, one after the other: where each starts, and its name. */
    method BuildArms(arms: seq<Block>, join: Id) returns (r: Outcome<(seq<Id>, seq<string>)>)
      requires g.Valid()
      modifies g
      ensures r.Mistake? ==> CheckBlocks(arms, |arms|, old(g.reserved), true) == Rejected(r.error)
      ensures r.Done? ==>
                && g.Valid() && CheckBlocks(arms, |arms|, old(g.reserved), true) == Accepted(g.reserved)
                && r.value == (Starts(arms, |arms|, |old(g.Contents())|, true), Tags(arms, |arms|))
                && g.Contents() == old(g.Contents()) +
                   EmitBlocks(g.env, arms, |arms|, |old(g.Contents())|, Some(join), Some(join))
                && g.startNode == old(g.startNode)
      decreases arms, |arms| + 1
    {
      hide Emit, EmitSeq, EmitBlocks, Opens, OpensSeq, Check, CheckSeq, CheckBlocks, Entry, EntrySeq, WireFirst, Size,
        SizeSeq, SizeBlocks, QueuesOf, Listing, Attached;
      ghost var base, names := g.Contents(), g.reserved;
      var starts: seq<Id>, tags: seq<string> := [], [];
      BlocksNone(g.env, arms, |base|, join, names);
      for i := 0 to |arms|
        invariant g.Valid() && CheckBlocks(arms, i, names, true) == Accepted(g.reserved)
        invariant g.Contents() == base + EmitBlocks(g.env, arms, i, |base|, Some(join), Some(join))
        invariant starts == Starts(arms, i, |base|, true) && tags == Tags(arms, i)
        invariant g.startNode == old(g.startNode)
      {
        BlocksStep(g.env, arms, i, |base|, join, names);
        ghost var before := EmitBlocks(g.env, arms, i, |base|, Some(join), Some(join));
        var more := BuildBranch(arms[i], join);
        if more.Mistake? {
          CheckBlocksRejects(arms, i + 1, |arms|, names, true);
          return Mistake(more.error);
        }
        Assoc(base, before, EmitSeq(g.env, arms[i].steps, |arms[i].steps|, |base + before|, Some(join), Some(join)));
        starts := starts + [more.value];
        tags := tags + [arms[i].tag];
      }
      return Done((starts, tags));
    }

    /** Attaches a fork, and adds its join. */
    method OpenFork(fork: Node, expected: nat) returns (forkId: Id, joinId: Id)
      requires Valid() && !fork.info.Work?
      modifies this, g`nodes, g`counter, g`startNode
      ensures Valid() && forkId == |old(g.Contents())| && joinId == forkId + 1
      ensures var w := Attached(old(Seen()), forkId, isRoot);
              && |w.nodes| == forkId
              && Seen() == w.(nodes := w.nodes + [fork] + [JoinNode(expected)], open := [])
    {
      ghost var v := Seen();
      forkId := g.Add(fork);
      AttachedBefore(v, [fork], g.reserved, forkId, isRoot);
      Attach(forkId);
      joinId := g.Add(JoinNode(expected));
    }

    method AppendFork(s: Step) returns (r: Outcome<()>)
      requires Valid() && s.Fork?
      modifies this, g
      ensures r.Mistake? ==> Check(s, old(g.reserved)) == Rejected(r.error)
      ensures r.Done? ==> Check(s, old(g.reserved)).Accepted?
      ensures r.Done? ==> Valid() && Seen() == AfterStep(g.env, old(Seen()), s, enclosingJoin, isRoot)
      decreases s.arms, |s.arms| + 2
    {
      ghost var v, c := Seen(), |g.Contents()|;
      if |s.arms| < 2 { return Mistake(TooFewArms); }
      if s.combine == "" { return Mistake(ForkNeedsCombine); }
      hide Emit, EmitSeq, EmitBlocks, Opens, OpensSeq, Check, CheckSeq, CheckBlocks, Entry, EntrySeq, WireFirst, Size,
        SizeSeq, SizeBlocks, QueuesOf, Listing, Attached;
      ForkIs(g.env, s, c, enclosingJoin, v.names);
      ghost var w := Attached(v, c, isRoot);
      var forkId, joinId := OpenFork(ForkNode(), |s.arms|);
      var arms :- BuildArms(s.arms, joinId);
      r := CloseFork(s, forkId, joinId, arms.0, arms.1, v);
    }

    /** The fork's branches, and the combine after its join. */
    method CloseFork(s: Step, forkId: Id, joinId: Id, starts: seq<Id>, arms: seq<string>, ghost v: View)
      returns (r: Outcome<()>)
      requires s.Fork? && |s.arms| >= 2 && s.combine != ""
      requires forkId == |v.nodes| && joinId == forkId + 1 && Valid() && open == []
      requires starts == Starts(s.arms, |s.arms|, forkId + 2, true) && arms == Tags(s.arms, |s.arms|)
      requires CheckBlocks(s.arms, |s.arms|, v.names, true) == Accepted(g.reserved)
      requires var w := Attached(v, forkId, isRoot);
               && |w.nodes| == |v.nodes| && start == w.start && g.startNode == w.graphStart
               && g.Contents() == w.nodes + [ForkNode()] + [JoinNode(|s.arms|)] +
                  EmitBlocks(g.env, s.arms, |s.arms|, forkId + 2, Some(joinId), Some(joinId))
      modifies this, g
      ensures r.Mistake? ==> Check(s, v.names) == Rejected(r.error)
      ensures r.Done? ==> Check(s, v.names).Accepted?
      ensures r.Done? ==> Valid() && Seen() == AfterStep(g.env, v, s, enclosingJoin, isRoot)
    {
      hide Emit, EmitSeq, EmitBlocks, Opens, OpensSeq, Check, CheckSeq, CheckBlocks, Entry, EntrySeq, WireFirst, Size,
        SizeSeq, SizeBlocks, QueuesOf, Listing, Attached;
      ghost var w, c := Attached(v, forkId, isRoot), forkId;
      ForkIs(g.env, s, c, enclosingJoin, v.names);
      ghost var inner := EmitBlocks(g.env, s.arms, |s.arms|, c + 2, Some(joinId), Some(joinId));
      ghost var fork, join := ForkNode().(branches := starts), JoinNode(|s.arms|);
      assert g.Contents() == w.nodes + [ForkNode()] + ([join] + inner);
      UpdateMid(w.nodes, ForkNode(), [join] + inner, fork);
      g.SetBranches(forkId, starts);
      var combine := CombineNode(g.env, s.combine, arms);
      var combineId :- g.AddWorker(combine);
      assert g.Contents() == (w.nodes + [fork]) + [join] + (inner + [combine]);
      WireMid(w.nodes + [fork], join, inner + [combine], Next, combineId);
      g.Wire(joinId, Next, combineId);
      open := [OpenEnd(combineId, Next)];
      ForkLaid(g.env, w.nodes, s, c, enclosingJoin, inner);
      Laid(g.env, v, w, s, enclosingJoin, isRoot, Seen());
      return Done(());
    }

    /** Reserves the name of a forEach, attaches its fork, and adds its join. */
    method OpenForEach(name: string, itemsKey: string) returns (r: Outcome<(Id, Id)>)
      requires Valid()
      modifies this, g
      ensures r.Mistake? ==> Reserve(name, old(g.reserved)) == Rejected(r.error)
      ensures r.Done? ==>
                var forkId, w := |old(g.Contents())|, Attached(old(Seen()), |old(g.Contents())|, isRoot);
                && Valid() && r.value == (forkId, forkId + 1) && |w.nodes| == forkId
                && Reserve(name, old(g.reserved)) == Accepted(g.reserved)
                && Seen() == w.(nodes := w.nodes + [DynForkNode(name, itemsKey)] + [JoinNode(0)], open := [],
                                names := g.reserved)
    {
      hide Attached, QueuesOf, Listing;
      ghost var v, c := Seen(), |g.Contents()|;
      var _ :- g.Reserve(name);
      AttachedNames(v, g.reserved, c, isRoot);
      var forkId, joinId := OpenFork(DynForkNode(name, itemsKey), 0);
      return Done((forkId, joinId));
    }

    method AppendForEach(s: Step) returns (r: Outcome<()>)
      requires Valid() && s.ForEach?
      modifies this, g
      ensures r.Mistake? ==> Check(s, old(g.reserved)) == Rejected(r.error)
      ensures r.Done? ==> Check(s, old(g.reserved)).Accepted?
      ensures r.Done? ==> Valid() && Seen() == AfterStep(g.env, old(Seen()), s, enclosingJoin, isRoot)
      decreases s.body, |s.body| + 3
    {
      if |s.body| == 0 { return Mistake(EmptyForEach(s.name)); }
      if s.combine == "" { return Mistake(ForEachNeedsCombine); }
      r := LayForEach(s);
    }

    method LayForEach(s: Step) returns (r: Outcome<()>)
      requires Valid() && s.ForEach? && s.body != [] && s.combine != ""
      modifies this, g
      ensures r.Mistake? ==> Check(s, old(g.reserved)) == Rejected(r.error)
      ensures r.Done? ==> Check(s, old(g.reserved)).Accepted?
      ensures r.Done? ==> Valid() && Seen() == AfterStep(g.env, old(Seen()), s, enclosingJoin, isRoot)
      decreases s.body, |s.body| + 2
    {
      ghost var v := Seen();
      hide Emit, EmitSeq, EmitBlocks, Opens, OpensSeq, Check, CheckSeq, CheckBlock, CheckBlocks, Entry, EntrySeq,
        WireFirst, Size, SizeSeq, SizeBlocks, QueuesOf, Listing, Attached, AfterStep, Reserve, JoinNode, DynForkNode;
      ForEachCheck(s, v.names);
      var name := ForEachName(s.name, s.itemsKey);
      var ids :- OpenForEach(name, s.itemsKey);
      var forkId, joinId := ids.0, ids.1;
      var template :- BuildBranch(Block(name, s.body), joinId);
      r := CloseForEach(s, forkId, joinId, template, v);
    }

    /** The forEach's branch and its way past an empty collection, and the combine after its join. */
    method CloseForEach(s: Step, forkId: Id, joinId: Id, template: Id, ghost v: View) returns (r: Outcome<()>)
      requires s.ForEach? && s.body != [] && s.combine != ""
      requires forkId == |v.nodes| && joinId == forkId + 1 && Valid() && open == []
      requires template == EntrySeq(s.body, forkId + 2)
      requires Reserve(ForEachName(s.name, s.itemsKey), v.names).Accepted?
      requires CheckBlock(Block(ForEachName(s.name, s.itemsKey), s.body), v.names + {ForEachName(s.name, s.itemsKey)},
                          true) ==
               Accepted(g.reserved)
      requires var w := Attached(v, forkId, isRoot);
               && |w.nodes| == |v.nodes| && start == w.start && g.startNode == w.graphStart
               && g.Contents() == w.nodes + [DynForkNode(ForEachName(s.name, s.itemsKey), s.itemsKey)] + [JoinNode(0)] +
                  EmitSeq(g.env, s.body, |s.body|, forkId + 2, Some(joinId), Some(joinId))
      modifies this, g
      ensures r.Mistake? ==> Check(s, v.names) == Rejected(r.error)
      ensures r.Done? ==> Check(s, v.names).Accepted?
      ensures r.Done? ==> Valid() && Seen() == AfterStep(g.env, v, s, enclosingJoin, isRoot)
    {
      hide Emit, EmitSeq, EmitBlocks, Opens, OpensSeq, Check, CheckSeq, CheckBlock, CheckBlocks, Entry, EntrySeq,
        WireFirst, Size, SizeSeq, SizeBlocks, QueuesOf, Listing, Attached;
      ghost var w, c, name := Attached(v, forkId, isRoot), forkId, ForEachName(s.name, s.itemsKey);
      ForEachIs(g.env, s, c, enclosingJoin, v.names);
      ghost var inner := EmitSeq(g.env, s.body, |s.body|, c + 2, Some(joinId), Some(joinId));
      ghost var fork, join := DynForkNode(name, s.itemsKey), JoinNode(0);
      ghost var fork1 := fork.(branches := [template]);
      ghost var fork2 := fork1.(next := Some(joinId));
      assert g.Contents() == w.nodes + [fork] + ([join] + inner);
      UpdateMid(w.nodes, fork, [join] + inner, fork1);
      g.SetBranches(forkId, [template]);
      WireMid(w.nodes, fork1, [join] + inner, Next, joinId);
      g.Wire(forkId, Next, joinId);
      var combine := CollectNode(g.env, s.combine, FOR_EACH_PREFIX + ForEachName(s.name, s.itemsKey));
      var combineId :- g.AddWorker(combine);
      assert g.Contents() == (w.nodes + [fork2]) + [join] + (inner + [combine]);
      WireMid(w.nodes + [fork2], join, inner + [combine], Next, combineId);
      g.Wire(joinId, Next, combineId);
      open := [OpenEnd(combineId, Next)];
      ForEachLaid(g.env, w.nodes, s, c, enclosingJoin, inner);
      Laid(g.env, v, w, s, enclosingJoin, isRoot, Seen());
      return Done(());
    }

    /** The guards of a choice, none of them wired yet. */
    method AddGuards(cases: seq<Block>) returns (r: Outcome<()>)
      requires g.Valid()
      modifies g
      ensures r.Mistake? ==> CheckGuards(cases, Guards(cases), old(g.reserved)) == Rejected(r.error)
      ensures r.Done? ==>
                && g.Valid() && CheckGuards(cases, Guards(cases), old(g.reserved)) == Accepted(g.reserved)
                && g.Contents() == old(g.Contents()) +
                   GuardsSoFar(g.env, cases, |old(g.Contents())|, enclosingJoin.Some?, 0, 0)
                && g.startNode == old(g.startNode)
    {
      hide QueuesOf, Listing;
      ghost var base, names, guards: seq<Node> := g.Contents(), g.reserved, [];
      for i := 0 to Guards(cases)
        invariant g.Valid() && CheckGuards(cases, i, names) == Accepted(g.reserved)
        invariant |guards| == i && g.Contents() == base + guards
        invariant forall x :: 0 <= x < i ==> guards[x] == WorkerNode(g.env, PREDICATE, cases[x].tag, "", NO_RETRY)
        invariant g.startNode == old(g.startNode)
      {
        var guard := WorkerNode(g.env, PREDICATE, cases[i].tag, "", NO_RETRY);
        var more := g.AddWorker(guard);
        if more.Mistake? {
          CheckGuardsRejects(cases, i + 1, Guards(cases), names);
          return Mistake(more.error);
        }
        Assoc(base, guards, [guard]);
        guards := guards + [guard];
      }
      GuardsBegun(g.env, cases, |base|, enclosingJoin.Some?, guards);
      return Done(());
    }

    /** Each guard's false edge goes to the next guard. */
    method ChainGuards(cases: seq<Block>, first: Id, ghost pre: seq<Node>)
      requires g.Valid() && Guards(cases) > 0 && first == |pre|
      requires g.Contents() == pre + GuardsSoFar(g.env, cases, first, enclosingJoin.Some?, 0, 0)
      modifies g`nodes
      ensures g.Valid()
      ensures g.Contents() == pre + GuardsSoFar(g.env, cases, first, enclosingJoin.Some?, Guards(cases) - 1, 0)
    {
      hide QueuesOf, Listing;
      for i := 0 to Guards(cases) - 1
        invariant g.Valid() && g.Contents() == pre + GuardsSoFar(g.env, cases, first, enclosingJoin.Some?, i, 0)
      {
        GuardAlt(g.env, pre, cases, enclosingJoin.Some?, i);
        g.Wire(first + i, Alt, first + i + 1);
      }
    }

    /** A case of a choice: laid out in a builder of its own, entered by its guard's edge, its ends left open. */
    method CollectCase(b: Block, guardId: Id, edge: Edge) returns (r: Outcome<()>)
      requires g.Valid() && guardId < |g.Contents()| && EdgeOf(g.Contents()[guardId], edge) == None
      modifies this`open, g
      ensures r.Mistake? ==> CheckBlock(b, old(g.reserved), false) == Rejected(r.error)
      ensures r.Done? ==>
                var c := |old(g.Contents())|;
                && g.Valid() && CheckBlock(b, old(g.reserved), false) == Accepted(g.reserved)
                && g.Contents() == Wiring.Wire(old(g.Contents()), OpenEnd(guardId, edge), EntrySeq(b.steps, c)) +
                   EmitSeq(g.env, b.steps, |b.steps|, c, None, enclosingJoin)
                && open == old(open) + OpensSeq(b.steps, |b.steps|, c, enclosingJoin.Some?)
                && g.startNode == old(g.startNode)
      decreases b.steps, |b.steps| + 1
    {
      hide EmitSeq, OpensSeq, CheckSeq, EntrySeq, WireFirst, SizeSeq, QueuesOf, Listing, Attached;
      ghost var nodes, names, graphStart := g.Contents(), g.reserved, g.startNode;
      var sub := new Builder(g, enclosingJoin, false);
      var _ :- sub.AppendNodes(b.steps);
      SubLaid(g.env, nodes, sub.Seen(), names, graphStart, b.steps, enclosingJoin);
      if sub.start.None? { return Mistake(EmptyCase); }
      g.Wire(guardId, edge, sub.start.value);
      assert g.Contents() == Wiring.Wire(nodes, OpenEnd(guardId, edge), sub.start.value) +
                             EmitSeq(g.env, b.steps, |b.steps|, |nodes|, None, enclosingJoin);
      open := open + sub.open;
      return Done(());
    }

    /** Case i of a choice, entered by its own guard, or by the last guard's false edge if it is the otherwise. */
    method CollectNth(cases: seq<Block>, i: nat, first: Id, ghost pre: seq<Node>, ghost names: set<string>)
      returns (r: Outcome<()>)
      requires i < |cases| && Guards(cases) > 0 && first == |pre|
      requires g.Valid() && CheckBlocks(cases, i, names, false) == Accepted(g.reserved)
      requires g.Contents() == pre + ChoiceSoFar(g.env, cases, i, first, enclosingJoin)
      requires open == OpensBlocks(cases, i, first + Guards(cases), enclosingJoin.Some?)
      modifies this`open, g
      ensures r.Mistake? ==> CheckBlocks(cases, i + 1, names, false) == Rejected(r.error)
      ensures r.Done? ==>
                && g.Valid() && CheckBlocks(cases, i + 1, names, false) == Accepted(g.reserved)
                && g.Contents() == pre + ChoiceSoFar(g.env, cases, i + 1, first, enclosingJoin)
                && open == OpensBlocks(cases, i + 1, first + Guards(cases), enclosingJoin.Some?)
                && g.startNode == old(g.startNode)
      decreases cases[i].steps, |cases[i].steps| + 2
    {
      hide Emit, EmitSeq, EmitBlocks, EmitGuards, Opens, OpensSeq, OpensBlocks, Check, CheckSeq, CheckBlock,
        CheckBlocks, CheckGuards,
        Entry, EntrySeq, WireFirst, Size, SizeSeq, SizeBlocks, QueuesOf, Listing, Attached, GuardsSoFar, ChoiceSoFar;
      CasesStep(g.env, cases, i, first + Guards(cases), enclosingJoin, names);
      CaseLaid(g.env, pre, cases, i, enclosingJoin);
      r := CollectCase(cases[i], CaseEdge(cases, i, first).id, CaseEdge(cases, i, first).edge);
    }

    method CollectCases(cases: seq<Block>, first: Id, ghost pre: seq<Node>) returns (r: Outcome<()>)
      requires g.Valid() && open == [] && Guards(cases) > 0 && first == |pre|
      requires g.Contents() == pre + GuardsSoFar(g.env, cases, first, enclosingJoin.Some?, Guards(cases) - 1, 0)
      modifies this`open, g
      ensures r.Mistake? ==> CheckBlocks(cases, |cases|, old(g.reserved), false) == Rejected(r.error)
      ensures r.Done? ==>
                && g.Valid() && CheckBlocks(cases, |cases|, old(g.reserved), false) == Accepted(g.reserved)
                && g.Contents() == pre + (EmitGuards(g.env, cases, first, None, enclosingJoin.Some?) +
                   EmitBlocks(g.env, cases, |cases|, first + Guards(cases), None, enclosingJoin))
                && open == OpensBlocks(cases, |cases|, first + Guards(cases), enclosingJoin.Some?) +
                   LastAlt(cases, first)
                && g.startNode == old(g.startNode)
      decreases cases, |cases| + 1
    {
      hide Emit, EmitSeq, EmitBlocks, EmitGuards, Opens, OpensSeq, OpensBlocks, Check, CheckSeq, CheckBlock,
        CheckBlocks, CheckGuards,
        Entry, EntrySeq, WireFirst, Size, SizeSeq, SizeBlocks, QueuesOf, Listing, Attached;
      ghost var names := g.reserved;
      CasesNone(g.env, cases, first, enclosingJoin, names);
      for i := 0 to |cases|
        invariant g.Valid() && CheckBlocks(cases, i, names, false) == Accepted(g.reserved)
        invariant g.Contents() == pre + ChoiceSoFar(g.env, cases, i, first, enclosingJoin)
        invariant open == OpensBlocks(cases, i, first + Guards(cases), enclosingJoin.Some?)
        invariant g.startNode == old(g.startNode)
      {
        var more := CollectNth(cases, i, first, pre, names);
        if more.Mistake? {
          CheckBlocksRejects(cases, i + 1, |cases|, names, false);
          return more;
        }
      }
      if !HasDefault(cases) {
        GuardsDone(g.env, cases, first, enclosingJoin.Some?);
        open := open + [OpenEnd(first + Guards(cases) - 1, Alt)];
      }
      return Done(());
    }

    /** A choice has a guarded case, and an otherwise only last. */
    method CheckCases(s: Step) returns (r: Outcome<()>)
      requires s.Choose?
      ensures r.Mistake? ==> forall names :: Check(s, names) == Rejected(r.error)
      ensures r.Done? ==> Guards(s.cases) > 0 && forall i :: 0 <= i < |s.cases| - 1 ==> s.cases[i].tag != ""
    {
      if |s.cases| == 0 { return Mistake(NoCases); }
      for i := 0 to |s.cases| - 1
        invariant forall x :: 0 <= x < i ==> s.cases[x].tag != ""
      {
        if s.cases[i].tag == "" { return Mistake(OtherwiseNotLast); }
      }
      if Guards(s.cases) == 0 { return Mistake(OnlyOtherwise); }
      return Done(());
    }

    method AppendChoose(s: Step) returns (r: Outcome<()>)
      requires Valid() && s.Choose?
      modifies this, g
      ensures r.Mistake? ==> Check(s, old(g.reserved)) == Rejected(r.error)
      ensures r.Done? ==> Check(s, old(g.reserved)).Accepted?
      ensures r.Done? ==> Valid() && Seen() == AfterStep(g.env, old(Seen()), s, enclosingJoin, isRoot)
      decreases s.cases, |s.cases| + 3
    {
      var _ :- CheckCases(s);
      r := LayChoice(s);
    }

    /** The guards of a choice, attached by the first of them and chained by their false edges. */
    method OpenChoice(cases: seq<Block>) returns (r: Outcome<Id>)
      requires Valid() && Guards(cases) > 0
      modifies this, g
      ensures r.Mistake? ==> CheckGuards(cases, Guards(cases), old(g.reserved)) == Rejected(r.error)
      ensures r.Done? ==>
                var w := Attached(old(Seen()), r.value, isRoot);
                && g.Valid() && r.value == |old(g.Contents())| && |w.nodes| == r.value
                && CheckGuards(cases, Guards(cases), old(g.reserved)) == Accepted(g.reserved)
                && Seen() == w.(nodes := w.nodes +
                                         GuardsSoFar(g.env, cases, r.value, enclosingJoin.Some?, Guards(cases) - 1, 0),
                                names := g.reserved, open := [])
    {
      hide CheckGuards, WireFirst, QueuesOf, Attached, GuardsSoFar;
      ghost var v, c := Seen(), |g.Contents()|;
      var first := g.counter;
      var _ :- AddGuards(cases);
      ghost var w := Attached(v, c, isRoot);
      AttachedBefore(v, GuardsSoFar(g.env, cases, c, enclosingJoin.Some?, 0, 0), g.reserved, c, isRoot);
      Attach(first);
      open := [];
      ChainGuards(cases, first, w.nodes);
      return Done(first);
    }

    method LayChoice(s: Step) returns (r: Outcome<()>)
      requires Valid() && s.Choose?
      requires Guards(s.cases) > 0 && forall i :: 0 <= i < |s.cases| - 1 ==> s.cases[i].tag != ""
      modifies this, g
      ensures r.Mistake? ==> Check(s, old(g.reserved)) == Rejected(r.error)
      ensures r.Done? ==> Check(s, old(g.reserved)).Accepted?
      ensures r.Done? ==> Valid() && Seen() == AfterStep(g.env, old(Seen()), s, enclosingJoin, isRoot)
      decreases s.cases, |s.cases| + 2
    {
      ghost var v, c := Seen(), |g.Contents()|;
      var cases := s.cases;
      hide Emit, EmitSeq, EmitBlocks, EmitGuards, Opens, OpensSeq, OpensBlocks, Check, CheckSeq, CheckBlock,
        CheckBlocks, CheckGuards,
        Entry, EntrySeq, WireFirst, Size, SizeSeq, SizeBlocks, QueuesOf, Listing, Attached, GuardsSoFar;
      ghost var w := Attached(v, c, isRoot);
      ChooseIs(g.env, s, c, enclosingJoin, v.names);
      var first :- OpenChoice(cases);
      var _ :- CollectCases(cases, first, w.nodes);
      Laid(g.env, v, w, s, enclosingJoin, isRoot, Seen());
      return Done(());
    }

    /** The first steps of a builder of their own. */
    method AppendNodes(steps: seq<Step>) returns (r: Outcome<()>)
      requires Valid()
      modifies this, g
      ensures r.Mistake? ==> CheckSeq(steps, |steps|, old(g.reserved)) == Rejected(r.error)
      ensures r.Done? ==> CheckSeq(steps, |steps|, old(g.reserved)).Accepted?
      ensures r.Done? ==> Valid() && Seen() == AfterSeq(g.env, old(Seen()), steps, |steps|, enclosingJoin, isRoot)
      decreases steps, |steps|
    {
      ghost var v := Seen();
      for i := 0 to |steps|
        invariant Valid() && CheckSeq(steps, i, v.names).Accepted?
        invariant Seen() == AfterSeq(g.env, v, steps, i, enclosingJoin, isRoot)
      {
        var more := AppendNode(steps[i]);
        if more.Mistake? {
          CheckSeqRejects(steps, i + 1, |steps|, v.names);
          return more;
        }
        AfterSeqStep(g.env, v, steps, i, enclosingJoin, isRoot);
      }
      return Done(());
    }

    method AppendNode(s: Step) returns (r: Outcome<()>)
      requires Valid()
      modifies this, g
      ensures r.Mistake? ==> Check(s, old(g.reserved)) == Rejected(r.error)
      ensures r.Done? ==> Check(s, old(g.reserved)).Accepted?
      ensures r.Done? ==> Valid() && Seen() == AfterStep(g.env, old(Seen()), s, enclosingJoin, isRoot)
      decreases s
    {
      match s
      case Task(_, _, _, _, _) => r := AppendTask(s);
      case Gate(_, _, _) => r := AppendGate(s);
      case Sleep(_, _) => r := AppendPlain(s);
      case Signal(_, _, _) => r := AppendSignal(s);
      case SubFlow(_, _) => r := AppendPlain(s);
      case Fork(_, _) => r := AppendFork(s);
      case ForEach(_, _, _, _) => r := AppendForEach(s);
      case Choose(_) => r := AppendChoose(s);
      case Loop(_, _, _) => r := AppendLoop(s);
    }
  }

  // ---- compile ----

  /** What a compiled flow is registered as: its nodes, where it starts, and the queues its steps run on. */
  datatype FlowSpec = FlowSpec(name: string, nodes: seq<Node>, startNode: Id, queues: set<string>)

  /** Compiles a recorded flow, or gives its first mistake: exactly the one-pass layout of a well-formed tree. */
  method Compile(name: string, defaultQueue: string, steps: seq<Step>) returns (r: Outcome<FlowSpec>)
    ensures r.Mistake? ==> CheckFlow(name, steps) == Rejected(r.error)
    ensures r.Done? ==> CheckFlow(name, steps).Accepted?
    ensures r.Done? ==>
              var nodes := Program(FlowEnv(name, defaultQueue), steps);
              r.value == FlowSpec(name, nodes, EntrySeq(steps, 0), QueuesOf(nodes))
  {
    if name == "" { return Mistake(NoWorkflowName); }
    if |steps| == 0 { return Mistake(NoSteps); }
    hide EntrySeq, QueuesOf, Program, CheckSeq;
    var g := new Graph(name, if defaultQueue == "" then name else defaultQueue);
    var start :- LayFlow(g, steps);
    var nodes := ListNodes(g);
    return Done(FlowSpec(name, nodes, start, g.queues));
  }

  /** Lays a whole flow in a blank graph, and gives its start. */
  method LayFlow(g: Graph, steps: seq<Step>) returns (r: Outcome<Id>)
    requires g.Valid() && g.Contents() == [] && g.reserved == {} && g.startNode == None && steps != []
    modifies g
    ensures r.Mistake? ==> CheckSeq(steps, |steps|, {}) == Rejected(r.error)
    ensures r.Done? ==>
              && CheckSeq(steps, |steps|, {}).Accepted? && g.Valid()
              && g.Contents() == Program(g.env, steps) && r.value == EntrySeq(steps, 0)
  {
    hide EmitSeq, OpensSeq, CheckSeq, EntrySeq, WireFirst, SizeSeq, QueuesOf, Program, AfterSeq, Listing;
    var root := new Builder(g, None, true);
    var _ :- root.AppendNodes(steps);
    RootLaid(g.env, root.Seen(), steps);
    ProgramWired(g.env, steps);
    var end := g.Add(EndNode(""));
    assert g.Contents() == EmitSeq(g.env, steps, |steps|, 0, None, None) + [EndNode("")];
    root.WireOpenTo(end);
    // The start is set: there is a first step, so the Go client's fallback to the END is never taken.
    assert g.startNode == Some(EntrySeq(steps, 0));
    return Done(g.startNode.value);
  }

  lemma RootLaid(env: Env, seen: View, steps: seq<Step>)
    requires steps != [] && CheckSeq(steps, |steps|, {}).Accepted?
    requires seen == AfterSeq(env, Blank([], {}, None), steps, |steps|, None, true)
    ensures seen.nodes == EmitSeq(env, steps, |steps|, 0, None, None) && seen.open == OpensSeq(steps, |steps|, 0, false)
    ensures seen.graphStart == Some(EntrySeq(steps, 0))
  {
    assert [] + seen.nodes == seen.nodes;
  }

  lemma ProgramWired(env: Env, steps: seq<Step>)
    ensures var open, nodes := OpensSeq(steps, |steps|, 0, false),
            EmitSeq(env, steps, |steps|, 0, None, None) + [EndNode("")];
            AllFree(nodes, open) && WireAll(nodes, open, SizeSeq(steps, |steps|, false)) == Program(env, steps)
  {
    BodyWired(env, [], steps, None, [EndNode("")], SizeSeq(steps, |steps|, false));
    assert forall x: seq<Node> :: [] + x == x;
  }

  /** The graph's nodes, by their ids. */
  method ListNodes(g: Graph) returns (nodes: seq<Node>)
    requires g.Valid()
    ensures nodes == g.Contents()
  {
    nodes := [];
    for i := 0 to g.counter
      invariant |nodes| == i && forall x :: 0 <= x < i ==> nodes[x] == g.nodes[x]
    {
      nodes := nodes + [g.nodes[i]];
    }
  }
}
