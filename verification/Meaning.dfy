/** What a flow means, read off its tree and walked along its graph, which come to the same. */
module Meaning {
  import opened Topology
  import opened Layout
  import opened WellFormed
  import opened Placement

  // `Eval` reads the recorded tree, `Walk` follows the edges of the compiled graph. Both ask one oracle, a finite list
  // of answers, whenever a gate, guard, loop condition, signal or collection has to decide; a run that needs more
  // answers than there are is left waiting. The theorem at the end says that for every well-formed tree and every list
  // of answers the two run the same steps to the same end.

  /** A step that ran: everything but forks, joins and ENDs, which are only bookkeeping. */
  datatype Event = Ran(kind: Kind, name: string)

  // ---- the tree ----

  datatype End = Done | Stopped(gate: string) | TimedOut(signal: string) | Waiting

  /** The steps that ran, the answers used up to, and how it ended. */
  datatype Run = Run(trace: seq<Event>, pos: nat, end: End)

  function After(trace: seq<Event>, r: Run): Run { r.(trace := trace + r.trace) }

  /** An arm of a fork, or one item of a forEach, is over when it is done and when a gate stopped it. */
  predicate ArmOver(r: Run) { r.end.Done? || r.end.Stopped? }

  function Eval(s: Step, a: seq<bool>, p: nat): (r: Run)
    requires p <= |a|
    ensures p <= r.pos <= |a|
    decreases |a| - p, s, 0
  {
    match s
    case Task(name, _, _, _, combine) =>
      Run(if combine == "" then [Ran(TASK, name)] else [Ran(TASK, name), Ran(TASK, combine)], p, Done)
    case Gate(name, _, _) =>
      var ran := [Ran(PREDICATE, name)];
      if p == |a| then Run(ran, p, Waiting) else Run(ran, p + 1, if a[p] then Done else Stopped(name))
    case Sleep(name, d) => Run([Ran(SLEEP, SleepName(name, d))], p, Done)
    case Signal(name, _, escalation) =>
      // The answer is whether the signal came before its timeout.
      var ran := [Ran(SIGNAL, name)];
      if p == |a| then Run(ran, p, Waiting)
      else if a[p] then Run(ran, p + 1, Done)
      else if escalation == [] then Run(ran, p + 1, TimedOut(name))
      else After(ran, EvalSeq(escalation, 0, a, p + 1))
    case SubFlow(name, workflow) => Run([Ran(SUB_WORKFLOW, SubFlowName(name, workflow))], p, Done)
    case Fork(arms, combine) => Combined(EvalArms(arms, 0, a, p), combine)
    case ForEach(_, _, body, combine) =>
      // The answer is whether the collection has another item; an empty one skips the combine too.
      if p == |a| then Run([], p, Waiting)
      else if a[p] then Combined(EvalItems(body, a, p + 1), combine)
      else Run([], p + 1, Done)
    case Choose(cases) => EvalCases(cases, 0, a, p)
    case Loop(cond, _, body) =>
      var r := EvalSeq(body, 0, a, p);
      if !r.end.Done? then r
      else
        var ran := r.trace + [Ran(PREDICATE, cond)];
        if r.pos == |a| then Run(ran, r.pos, Waiting)
        else if a[r.pos] then After(ran, Eval(s, a, r.pos + 1))
        else Run(ran, r.pos + 1, Done)
  }

  /** The steps from i on. */
  function EvalSeq(steps: seq<Step>, i: nat, a: seq<bool>, p: nat): (r: Run)
    requires p <= |a| && i <= |steps|
    ensures p <= r.pos <= |a|
    decreases |a| - p, steps, |steps| - i
  {
    if i == |steps| then Run([], p, Done)
    else
      var r := Eval(steps[i], a, p);
      if r.end.Done? then After(r.trace, EvalSeq(steps, i + 1, a, r.pos)) else r
  }

  /** The arms from i on, in listed order. */
  function EvalArms(arms: seq<Block>, i: nat, a: seq<bool>, p: nat): (r: Run)
    requires p <= |a| && i <= |arms|
    ensures p <= r.pos <= |a|
    decreases |a| - p, arms, |arms| - i
  {
    if i == |arms| then Run([], p, Done)
    else
      var r := EvalSeq(arms[i].steps, 0, a, p);
      if ArmOver(r) then After(r.trace, EvalArms(arms, i + 1, a, r.pos)) else r
  }

  /** One item of a forEach, and then those after it. */
  function EvalItems(body: seq<Step>, a: seq<bool>, p: nat): (r: Run)
    requires p <= |a|
    ensures p <= r.pos <= |a|
    decreases |a| - p, body, |body| + 1
  {
    var r := EvalSeq(body, 0, a, p);
    if !ArmOver(r) then r
    else if r.pos == |a| then Run(r.trace, r.pos, Waiting)
    else if a[r.pos] then After(r.trace, EvalItems(body, a, r.pos + 1))
    else Run(r.trace, r.pos + 1, Done)
  }

  /** The cases of a choice from i on. */
  function EvalCases(cases: seq<Block>, i: nat, a: seq<bool>, p: nat): (r: Run)
    requires p <= |a| && i <= Guards(cases)
    ensures p <= r.pos <= |a|
    decreases |a| - p, cases, |cases| + 1 - i
  {
    if i < Guards(cases) then
      var ran := [Ran(PREDICATE, cases[i].tag)];
      if p == |a| then Run(ran, p, Waiting)
      else After(ran, if a[p] then EvalSeq(cases[i].steps, 0, a, p + 1) else EvalCases(cases, i + 1, a, p + 1))
    else if HasDefault(cases) then EvalSeq(cases[i].steps, 0, a, p)
    else Run([], p, Done)
  }

  function Combined(r: Run, combine: string): Run {
    if r.end.Done? then r.(trace := r.trace + [Ran(TASK, combine)]) else r
  }

  // ---- the graph ----

  /** A fork whose arms are being taken in turn, or a forEach whose items are. */
  datatype Frame = InArms(fork: Id, taken: nat) | InItems(join: Id, template: Id)
  datatype Stack = Empty | Push(top: Frame, below: Stack)

  datatype Final = Ended(reason: string) | OutOfTime(signal: string) | NoAnswer | Broken

  datatype State = Going(at: Id, stack: Stack, pos: nat) | Over(final: Final)

  function Goto(id: Option<Id>, stack: Stack, p: nat): State {
    if id.Some? then Going(id.value, stack, p) else Over(Broken)
  }

  /** One visit of a node: what ran, and where the walk is next. */
  function Move(g: seq<Node>, a: seq<bool>, at: Id, stack: Stack, p: nat): (seq<Event>, State) {
    if at >= |g| then ([], Over(Broken))
    else
      var n := g[at];
      match n.kind
      case TASK => ([Ran(n.kind, n.name)], Goto(n.next, stack, p))
      case SLEEP => ([Ran(n.kind, n.name)], Goto(n.next, stack, p))
      case SUB_WORKFLOW => ([Ran(n.kind, n.name)], Goto(n.next, stack, p))
      case PREDICATE =>
        ([Ran(n.kind, n.name)],
         if p >= |a| then Over(NoAnswer) else Goto(if a[p] then n.next else n.alt, stack, p + 1))
      case SIGNAL =>
        ([Ran(n.kind, n.name)],
         if p >= |a| then Over(NoAnswer)
         else if a[p] then Goto(n.next, stack, p + 1)
         else if n.alt.Some? then Goto(n.alt, stack, p + 1)
         else Over(OutOfTime(n.name)))
      case FORK =>
        ([], if |n.branches| > 0 then Going(n.branches[0], Push(InArms(at, 1), stack), p) else Over(Broken))
      case DYN_FORK =>
        ([], if p >= |a| then Over(NoAnswer)
             else if a[p] then
               if n.next.Some? && |n.branches| == 1 then
                 Going(n.branches[0], Push(InItems(n.next.value, n.branches[0]), stack), p + 1)
               else Over(Broken)
             else Goto(PastCombine(g, n.next), stack, p + 1))
      case JOIN => ([], MoveJoin(g, a, at, stack, p))
      case END => ([], if n.info.Reason? then Over(Ended(n.info.reason)) else Over(Broken))
  }

  /** From a join, past the combine that follows it. */
  function PastCombine(g: seq<Node>, join: Option<Id>): Option<Id> {
    if join.Some? && join.value < |g| && g[join.value].next.Some? && g[join.value].next.value < |g|
    then g[g[join.value].next.value].next
    else None
  }

  /**
   * A join that expects arms takes the next one, and passes on after the last; a dynamic join asks for
   * another item, and passes on after the last. A dynamic join no forEach is waiting at just passes on.
   */
  function MoveJoin(g: seq<Node>, a: seq<bool>, at: Id, stack: Stack, p: nat): State
    requires at < |g|
  {
    if g[at].info.Expected? && g[at].info.count > 0 then
      if stack.Push? && stack.top.InArms? && stack.top.fork < |g| then
        var arms, taken := g[stack.top.fork].branches, stack.top.taken;
        if taken < |arms| then Going(arms[taken], Push(InArms(stack.top.fork, taken + 1), stack.below), p)
        else Goto(g[at].next, stack.below, p)
      else Over(Broken)
    else if stack.Push? && stack.top.InItems? && stack.top.join == at then
      if p >= |a| then Over(NoAnswer)
      else if a[p] then Going(stack.top.template, stack, p + 1)
      else Goto(g[at].next, stack.below, p + 1)
    else Goto(g[at].next, stack, p)
  }

  /** The first n visits from a state, or fewer if the walk is over before. */
  function Walk(g: seq<Node>, a: seq<bool>, s: State, n: nat): (seq<Event>, State)
    decreases n
  {
    if n == 0 || s.Over? then ([], s)
    else
      var (ran, s1) := Move(g, a, s.at, s.stack, s.pos);
      var (more, s2) := Walk(g, a, s1, n - 1);
      (ran + more, s2)
  }

  // ---- they agree ----

  /** n visits lead from s to t, running `trace`. */
  ghost predicate Leads(g: seq<Node>, a: seq<bool>, s: State, n: nat, trace: seq<Event>, t: State) {
    Walk(g, a, s, n) == (trace, t)
  }

  lemma {:induction false} LeadsThen(g: seq<Node>, a: seq<bool>, s: State, n: nat, x: seq<Event>, t: State, m: nat,
                                     y: seq<Event>, u: State)
    requires Leads(g, a, s, n, x, t) && Leads(g, a, t, m, y, u)
    ensures Leads(g, a, s, n + m, x + y, u)
    decreases n
  {
    if n == 0 || s.Over? {
      assert x == [] && x + y == y;
      if s.Over? { assert y == []; }
    } else {
      var (ran, s1) := Move(g, a, s.at, s.stack, s.pos);
      var (more, s2) := Walk(g, a, s1, n - 1);
      LeadsThen(g, a, s1, n - 1, more, t, m, y, u);
      assert (ran + more) + y == ran + (more + y);
    }
  }

  lemma LeadsOne(g: seq<Node>, a: seq<bool>, s: State)
    requires s.Going?
    ensures var (ran, t) := Move(g, a, s.at, s.stack, s.pos); Leads(g, a, s, 1, ran, t)
  {
    var (ran, t) := Move(g, a, s.at, s.stack, s.pos);
    assert Walk(g, a, t, 0) == ([], t);
    assert ran + [] == ran;
  }

  /** Where the walk is once a step, laid out to go on to k with the join j around it, ended as r did. */
  function Land(r: Run, k: Id, j: Option<Id>, stack: Stack): State {
    match r.end
    case Done => Going(k, stack, r.pos)
    case Stopped(gate) => if j.Some? then Going(j.value, stack, r.pos) else Over(Ended(GatedReason(gate)))
    case TimedOut(signal) => Over(OutOfTime(signal))
    case Waiting => Over(NoAnswer)
  }

  /** No forEach of the stack is waiting at a join from c on. */
  predicate Settled(stack: Stack, c: Id) {
    stack.Push? && stack.top.InItems? ==> stack.top.join < c
  }

  /** n visits from a state run what r ran, and land where r ended. */
  ghost predicate Sims(g: seq<Node>, a: seq<bool>, from: State, n: nat, r: Run, k: Id, j: Option<Id>, stack: Stack) {
    Leads(g, a, from, n, r.trace, Land(r, k, j, stack))
  }

  lemma SimAfter(g: seq<Node>, a: seq<bool>, from: State, n: nat, x: seq<Event>, mid: State, m: nat, r: Run, k: Id,
                 j: Option<Id>, stack: Stack)
    requires Leads(g, a, from, n, x, mid) && Sims(g, a, mid, m, r, k, j, stack)
    ensures Sims(g, a, from, n + m, After(x, r), k, j, stack)
  {
    LeadsThen(g, a, from, n, x, mid, m, r.trace, Land(r, k, j, stack));
  }

  /** What a simulation of a step needs. */
  ghost predicate Ready(env: Env, g: seq<Node>, s: Step, c: Id, k: Id, j: Option<Id>, stack: Stack, a: seq<bool>,
                        p: nat) {
    Shape(s) && At(env, g, s, c, k, j) && Settled(stack, c) && p <= |a|
  }

  lemma SimTask(env: Env, g: seq<Node>, s: Step, c: Id, k: Id, j: Option<Id>, stack: Stack, a: seq<bool>, p: nat)
    returns (n: nat)
    requires s.Task? && Ready(env, g, s, c, k, j, stack, a, p)
    ensures Sims(g, a, Going(c, stack, p), n, Eval(s, a, p), k, j, stack)
  {
    TaskParts(env, g, s, c, k, j);
    LeadsOne(g, a, Going(c, stack, p));
    if s.combine == "" {
      n := 1;
    } else {
      LeadsOne(g, a, Going(c + 1, stack, p));
      LeadsOne(g, a, Going(c + 2, stack, p));
      LeadsThen(g, a, Going(c, stack, p), 1, [Ran(TASK, s.name)], Going(c + 1, stack, p), 1, [],
                Going(c + 2, stack, p));
      LeadsThen(g, a, Going(c, stack, p), 2, [Ran(TASK, s.name)] + [], Going(c + 2, stack, p), 1,
                [Ran(TASK, s.combine)],
                Going(k, stack, p));
      n := 3;
      assert [Ran(TASK, s.name)] + [] + [Ran(TASK, s.combine)] == Eval(s, a, p).trace;
    }
  }

  lemma SimGate(env: Env, g: seq<Node>, s: Step, c: Id, k: Id, j: Option<Id>, stack: Stack, a: seq<bool>, p: nat)
    returns (n: nat)
    requires s.Gate? && Ready(env, g, s, c, k, j, stack, a, p)
    ensures Sims(g, a, Going(c, stack, p), n, Eval(s, a, p), k, j, stack)
  {
    GateParts(env, g, s, c, k, j);
    LeadsOne(g, a, Going(c, stack, p));
    n := 1;
    if p < |a| && !a[p] && j.None? {
      LeadsOne(g, a, Going(c + 1, stack, p + 1));
      LeadsThen(g, a, Going(c, stack, p), 1, [Ran(PREDICATE, s.name)], Going(c + 1, stack, p + 1), 1, [],
                Over(Ended(GatedReason(s.name))));
      n := 2;
    }
  }

  lemma SimPlain(env: Env, g: seq<Node>, s: Step, c: Id, k: Id, j: Option<Id>, stack: Stack, a: seq<bool>, p: nat)
    returns (n: nat)
    requires (s.Sleep? || s.SubFlow?) && Ready(env, g, s, c, k, j, stack, a, p)
    ensures Sims(g, a, Going(c, stack, p), n, Eval(s, a, p), k, j, stack)
  {
    PlainParts(env, g, s, c, k, j);
    LeadsOne(g, a, Going(c, stack, p));
    n := 1;
  }

  lemma {:induction false} SimSignal(env: Env, g: seq<Node>, s: Step, c: Id, k: Id, j: Option<Id>, stack: Stack,
                                     a: seq<bool>, p: nat)
    returns (n: nat)
    requires s.Signal? && Ready(env, g, s, c, k, j, stack, a, p)
    ensures Sims(g, a, Going(c, stack, p), n, Eval(s, a, p), k, j, stack)
    decreases |a| - p, s, 0
  {
    SignalParts(env, g, s, c, k, j);
    LeadsOne(g, a, Going(c, stack, p));
    n := 1;
    if p < |a| && !a[p] && s.escalation != [] {
      var m := SimSeq(env, g, s.escalation, 0, c + 1, k, j, stack, a, p + 1);
      SimAfter(g, a, Going(c, stack, p), 1, [Ran(SIGNAL, s.name)], Going(EntrySeq(s.escalation, c + 1), stack, p + 1),
               m,
               EvalSeq(s.escalation, 0, a, p + 1), k, j, stack);
      n := 1 + m;
    }
  }

  lemma {:induction false} SimFork(env: Env, g: seq<Node>, s: Step, c: Id, k: Id, j: Option<Id>, stack: Stack,
                                   a: seq<bool>, p: nat)
    returns (n: nat)
    requires s.Fork? && Ready(env, g, s, c, k, j, stack, a, p)
    ensures Sims(g, a, Going(c, stack, p), n, Eval(s, a, p), k, j, stack)
    decreases |a| - p, s, 0
  {
    ForkParts(env, g, s, c, k, j);
    var m, r := c + 2 + SizeBlocks(s.arms, |s.arms|, true), EvalArms(s.arms, 0, a, p);
    LeadsOne(g, a, Going(c, stack, p));
    var x := SimArms(env, g, s, 0, c, k, j, stack, a, p);
    SimAfter(g, a, Going(c, stack, p), 1, [], ArmState(s.arms, 0, c, stack, p), x, r, m, j, stack);
    n := SimCombine(g, a, Going(c, stack, p), 1 + x, r, s.combine, m, k, j, stack);
  }

  /** Where the walk is as arm i of the fork at c begins. */
  ghost function ArmState(arms: seq<Block>, i: nat, c: Id, stack: Stack, p: nat): State
    requires i < |arms|
  {
    Going(BlockStart(arms, i, c + 2, true), Push(InArms(c, i + 1), stack), p)
  }

  /** A run that goes on to a combine, and the combine. */
  lemma SimCombine(g: seq<Node>, a: seq<bool>, from: State, x: nat, r: Run, combine: string, m: Id, k: Id,
                   j: Option<Id>,
                   stack: Stack)
    returns (n: nat)
    requires Sims(g, a, from, x, After([], r), m, j, stack) && !r.end.Stopped?
    requires m < |g| && g[m].kind == TASK && g[m].name == combine && g[m].next == Some(k)
    ensures Sims(g, a, from, n, Combined(r, combine), k, j, stack)
  {
    n := x;
    assert [] + r.trace == r.trace;
    if r.end.Done? {
      LeadsOne(g, a, Going(m, stack, r.pos));
      LeadsThen(g, a, from, x, r.trace, Going(m, stack, r.pos), 1, [Ran(TASK, combine)], Going(k, stack, r.pos));
      n := x + 1;
    }
  }

  lemma {:induction false} SimArms(env: Env, g: seq<Node>, s: Step, i: nat, c: Id, k: Id, j: Option<Id>, stack: Stack,
                                   a: seq<bool>, p: nat)
    returns (n: nat)
    requires s.Fork? && i < |s.arms| && Ready(env, g, s, c, k, j, stack, a, p)
    ensures !EvalArms(s.arms, i, a, p).end.Stopped?
    ensures Sims(g, a, ArmState(s.arms, i, c, stack, p), n, EvalArms(s.arms, i, a, p),
                 c + 2 + SizeBlocks(s.arms, |s.arms|, true), j, stack)
    decreases |a| - p, s.arms, |s.arms| - i
  {
    hide Emit, EmitSeq, EmitBlocks, SizeSeq, SizeBlocks, EntrySeq, Eval, EvalSeq;
    var steps, ci, inner := s.arms[i].steps, c + 2 + SizeBlocks(s.arms, i, true), Push(InArms(c, i + 1), stack);
    var m := c + 2 + SizeBlocks(s.arms, |s.arms|, true);
    ArmOf(env, g, s, i, c, k, j);
    ArmShape(s, i, c);
    var from, r := ArmState(s.arms, i, c, stack, p), EvalSeq(steps, 0, a, p);
    n := SimSeq(env, g, steps, 0, ci, c + 1, Some(c + 1), inner, a, p);
    if ArmOver(r) {
      var mid := Going(c + 1, inner, r.pos);
      ArmEnds(env, g, s, i, c, k, j, stack, a, r.pos);
      if i + 1 < |s.arms| {
        var x := SimArms(env, g, s, i + 1, c, k, j, stack, a, r.pos);
        var rest := EvalArms(s.arms, i + 1, a, r.pos);
        SimAfter(g, a, mid, 1, [], ArmState(s.arms, i + 1, c, stack, r.pos), x, rest, m, j, stack);
        ArmsThen(g, a, from, n, r.trace, mid, 1 + x, rest, m, j, stack);
        n := n + (1 + x);
      } else {
        ArmsThen(g, a, from, n, r.trace, mid, 1, Run([], r.pos, Done), m, j, stack);
        n := n + 1;
      }
    }
  }

  lemma ArmShape(s: Step, i: nat, c: Id)
    requires s.Fork? && Shape(s) && i < |s.arms|
    ensures ShapeSeq(s.arms[i].steps) && s.arms[i].steps != []
    ensures var steps, ci := s.arms[i].steps, c + 2 + SizeBlocks(s.arms, i, true);
            BlockStart(s.arms, i, c + 2, true) == Entry(steps[0], ci + SizeSeq(steps, 0, true))
  {}

  /** At the join, the fork's next arm begins, or the walk goes on after the last. */
  lemma ArmEnds(env: Env, g: seq<Node>, s: Step, i: nat, c: Id, k: Id, j: Option<Id>, stack: Stack, a: seq<bool>,
                p: nat)
    requires s.Fork? && i < |s.arms| && Ready(env, g, s, c, k, j, stack, a, p)
    ensures Leads(g, a, Going(c + 1, Push(InArms(c, i + 1), stack), p), 1, [],
                  if i + 1 < |s.arms| then ArmState(s.arms, i + 1, c, stack, p)
                  else Going(c + 2 + SizeBlocks(s.arms, |s.arms|, true), stack, p))
  {
    hide Emit, EmitBlocks, SizeBlocks, BlockStart;
    ForkParts(env, g, s, c, k, j);
    LeadsOne(g, a, Going(c + 1, Push(InArms(c, i + 1), stack), p));
  }

  lemma ArmsThen(g: seq<Node>, a: seq<bool>, from: State, n: nat, x: seq<Event>, mid: State, m: nat, r: Run, k: Id,
                 j: Option<Id>, stack: Stack)
    requires Leads(g, a, from, n, x, mid) && Sims(g, a, mid, m, After([], r), k, j, stack)
    ensures Sims(g, a, from, n + m, After(x, r), k, j, stack)
  {
    assert [] + r.trace == r.trace;
    SimAfter(g, a, from, n, x, mid, m, r, k, j, stack);
  }

  lemma {:induction false} SimForEach(env: Env, g: seq<Node>, s: Step, c: Id, k: Id, j: Option<Id>, stack: Stack,
                                      a: seq<bool>, p: nat)
    returns (n: nat)
    requires s.ForEach? && Ready(env, g, s, c, k, j, stack, a, p)
    ensures Sims(g, a, Going(c, stack, p), n, Eval(s, a, p), k, j, stack)
    decreases |a| - p, s, 0
  {
    ForEachParts(env, g, s, c, k, j);
    LeadsOne(g, a, Going(c, stack, p));
    n := 1;
    if p < |a| && a[p] {
      var m, r := c + 2 + SizeSeq(s.body, |s.body|, true), EvalItems(s.body, a, p + 1);
      var x := SimItems(env, g, s, c, k, j, stack, a, p + 1);
      SimAfter(g, a, Going(c, stack, p), 1, [], ItemState(s.body, c, stack, p + 1), x, r, m, j, stack);
      n := SimCombine(g, a, Going(c, stack, p), 1 + x, r, s.combine, m, k, j, stack);
    }
  }

  /** Where the walk is as an item of the forEach at c begins. */
  ghost function ItemState(body: seq<Step>, c: Id, stack: Stack, p: nat): State {
    Going(EntrySeq(body, c + 2), Push(InItems(c + 1, EntrySeq(body, c + 2)), stack), p)
  }

  lemma ItemEntry(s: Step, c: Id)
    requires s.ForEach? && Shape(s)
    ensures s.body != [] && ShapeSeq(s.body) && SizeSeq(s.body, 0, true) == 0
    ensures EntrySeq(s.body, c + 2) == Entry(s.body[0], c + 2)
  {}

  lemma {:induction false} SimItems(env: Env, g: seq<Node>, s: Step, c: Id, k: Id, j: Option<Id>, stack: Stack,
                                    a: seq<bool>, p: nat)
    returns (n: nat)
    requires s.ForEach? && Ready(env, g, s, c, k, j, stack, a, p)
    ensures !EvalItems(s.body, a, p).end.Stopped?
    ensures Sims(g, a, ItemState(s.body, c, stack, p), n, EvalItems(s.body, a, p),
                 c + 2 + SizeSeq(s.body, |s.body|, true), j, stack)
    decreases |a| - p, s.body, |s.body| + 1
  {
    hide Emit, EmitSeq, Eval, EvalSeq, SizeSeq, EntrySeq, Size, Shape;
    var inner, m := Push(InItems(c + 1, EntrySeq(s.body, c + 2)), stack), c + 2 + SizeSeq(s.body, |s.body|, true);
    ForEachParts(env, g, s, c, k, j);
    var from, r := ItemState(s.body, c, stack, p), EvalSeq(s.body, 0, a, p);
    ItemEntry(s, c);
    n := SimSeq(env, g, s.body, 0, c + 2, c + 1, Some(c + 1), inner, a, p);
    if ArmOver(r) {
      var mid := Going(c + 1, inner, r.pos);
      LeadsOne(g, a, mid);
      if r.pos < |a| && a[r.pos] {
        var rest := EvalItems(s.body, a, r.pos + 1);
        var x := SimItems(env, g, s, c, k, j, stack, a, r.pos + 1);
        SimAfter(g, a, mid, 1, [], ItemState(s.body, c, stack, r.pos + 1), x, rest, m, j, stack);
        ArmsThen(g, a, from, n, r.trace, mid, 1 + x, rest, m, j, stack);
        n := n + (1 + x);
      } else {
        var rest := if r.pos < |a| then Run([], r.pos + 1, Done) else Run([], r.pos, Waiting);
        ArmsThen(g, a, from, n, r.trace, mid, 1, rest, m, j, stack);
        assert r.trace + [] == r.trace;
        n := n + 1;
      }
    }
  }

  lemma {:induction false} SimCases(env: Env, g: seq<Node>, s: Step, i: nat, c: Id, k: Id, j: Option<Id>, stack: Stack,
                                    a: seq<bool>, p: nat)
    returns (n: nat)
    requires s.Choose? && i < Guards(s.cases) && Ready(env, g, s, c, k, j, stack, a, p)
    ensures Sims(g, a, Going(c + i, stack, p), n, EvalCases(s.cases, i, a, p), k, j, stack)
    decreases |a| - p, s.cases, |s.cases| + 1 - i
  {
    hide Emit, EmitSeq, EmitBlocks, Eval, EvalSeq, BlockStart;
    GuardOf(env, g, s, i, c, k, j);
    var from, ran := Going(c + i, stack, p), [Ran(PREDICATE, s.cases[i].tag)];
    LeadsOne(g, a, from);
    n := 1;
    if p < |a| {
      var x;
      if a[p] {
        x := SimCase(env, g, s, i, c, k, j, stack, a, p + 1);
        SimAfter(g, a, from, 1, ran, Going(BlockStart(s.cases, i, c + Guards(s.cases), j.Some?), stack, p + 1), x,
                 EvalSeq(s.cases[i].steps, 0, a, p + 1), k, j, stack);
      } else {
        var next := EvalCases(s.cases, i + 1, a, p + 1);
        if i + 1 < Guards(s.cases) {
          x := SimCases(env, g, s, i + 1, c, k, j, stack, a, p + 1);
          SimAfter(g, a, from, 1, ran, Going(c + i + 1, stack, p + 1), x, next, k, j, stack);
        } else if HasDefault(s.cases) {
          x := SimCase(env, g, s, i + 1, c, k, j, stack, a, p + 1);
          SimAfter(g, a, from, 1, ran, Going(BlockStart(s.cases, i + 1, c + Guards(s.cases), j.Some?), stack, p + 1), x,
                   next, k, j,
                   stack);
        } else {
          x := 0;
          SimAfter(g, a, from, 1, ran, Going(k, stack, p + 1), 0, next, k, j, stack);
        }
      }
      n := 1 + x;
    }
  }

  lemma {:induction false} SimCase(env: Env, g: seq<Node>, s: Step, i: nat, c: Id, k: Id, j: Option<Id>, stack: Stack,
                                   a: seq<bool>, p: nat)
    returns (n: nat)
    requires s.Choose? && i < |s.cases| && Ready(env, g, s, c, k, j, stack, a, p)
    ensures Sims(g, a, Going(BlockStart(s.cases, i, c + Guards(s.cases), j.Some?), stack, p), n,
                 EvalSeq(s.cases[i].steps, 0, a, p), k, j, stack)
    decreases |a| - p, s.cases[i].steps, |s.cases[i].steps| + 1
  {
    hide Emit, EmitSeq, Eval, EvalSeq;
    var steps := s.cases[i].steps;
    CaseShape(s, i);
    CaseOf(env, g, s, i, c, k, j);
    n := SimSeq(env, g, steps, 0, c + Guards(s.cases) + SizeBlocks(s.cases, i, j.Some?), k, j, stack, a, p);
  }

  lemma CaseShape(s: Step, i: nat)
    requires s.Choose? && Shape(s) && i < |s.cases|
    ensures ShapeSeq(s.cases[i].steps) && s.cases[i].steps != []
  {
    assert ShapeBlocks(s.cases);
  }

  lemma {:induction false} SimLoop(env: Env, g: seq<Node>, s: Step, c: Id, k: Id, j: Option<Id>, stack: Stack,
                                   a: seq<bool>, p: nat)
    returns (n: nat)
    requires s.Loop? && Ready(env, g, s, c, k, j, stack, a, p)
    ensures Sims(g, a, Going(Entry(s, c), stack, p), n, Eval(s, a, p), k, j, stack)
    decreases |a| - p, s, 0
  {
    hide Emit, EmitSeq, EvalSeq, EntrySeq;
    LoopParts(env, g, s, c, k, j);
    LoopEntry(s, c);
    var m, from, r := c + SizeSeq(s.body, |s.body|, j.Some?), Going(Entry(s, c), stack, p), EvalSeq(s.body, 0, a, p);
    n := SimSeq(env, g, s.body, 0, c, m, j, stack, a, p);
    if r.end.Done? {
      var mid, ran := Going(m, stack, r.pos), [Ran(PREDICATE, s.while_)];
      LeadsOne(g, a, mid);
      if r.pos < |a| && a[r.pos] {
        LeadsThen(g, a, from, n, r.trace, mid, 1, ran, Going(Entry(s, c), stack, r.pos + 1));
        var x := Sim(env, g, s, c, k, j, stack, a, r.pos + 1);
        SimAfter(g, a, from, n + 1, r.trace + ran, Going(Entry(s, c), stack, r.pos + 1), x, Eval(s, a, r.pos + 1), k, j,
                 stack);
        n := n + 1 + x;
      } else {
        LeadsThen(g, a, from, n, r.trace, mid, 1, ran, Land(Eval(s, a, p), k, j, stack));
        n := n + 1;
      }
    }
  }

  lemma LoopEntry(s: Step, c: Id)
    requires s.Loop? && Shape(s)
    ensures Entry(s, c) == EntrySeq(s.body, c) == Entry(s.body[0], c + SizeSeq(s.body, 0, false))
    ensures SizeSeq(s.body, 0, true) == SizeSeq(s.body, 0, false) == 0
  {}

  lemma {:induction false} SimSeq(env: Env, g: seq<Node>, steps: seq<Step>, i: nat, c: Id, k: Id, j: Option<Id>,
                                  stack: Stack, a: seq<bool>, p: nat)
    returns (n: nat)
    requires i <= |steps| && ShapeSeq(steps) && AtSeq(env, g, steps, c, k, j) && Settled(stack, c) && p <= |a|
    ensures var from := if i < |steps| then Entry(steps[i], c + SizeSeq(steps, i, j.Some?)) else k;
            Sims(g, a, Going(from, stack, p), n, EvalSeq(steps, i, a, p), k, j, stack)
    decreases |a| - p, steps, |steps| - i
  {
    hide Emit, EmitSeq, Eval, Entry;
    n := 0;
    if i < |steps| {
      var ci, next := c + SizeSeq(steps, i, j.Some?), Cont(steps, i, c, k, j.Some?);
      StepOf(env, g, steps, i, c, k, j);
      var r := Eval(steps[i], a, p);
      n := Sim(env, g, steps[i], ci, next, j, stack, a, p);
      if r.end.Done? {
        var x := SimSeq(env, g, steps, i + 1, c, k, j, stack, a, r.pos);
        SimAfter(g, a, Going(Entry(steps[i], ci), stack, p), n, r.trace, Going(next, stack, r.pos), x,
                 EvalSeq(steps, i + 1, a, r.pos), k, j, stack);
        n := n + x;
      }
    }
  }

  lemma {:induction false} Sim(env: Env, g: seq<Node>, s: Step, c: Id, k: Id, j: Option<Id>, stack: Stack,
                               a: seq<bool>, p: nat)
    returns (n: nat)
    requires Ready(env, g, s, c, k, j, stack, a, p)
    ensures Sims(g, a, Going(Entry(s, c), stack, p), n, Eval(s, a, p), k, j, stack)
    decreases |a| - p, s, 1
  {
    hide Emit, EmitSeq, EmitBlocks, EvalSeq, EvalArms, EvalItems;
    match s
    case Task(_, _, _, _, _) => n := SimTask(env, g, s, c, k, j, stack, a, p);
    case Gate(_, _, _) => n := SimGate(env, g, s, c, k, j, stack, a, p);
    case Sleep(_, _) => n := SimPlain(env, g, s, c, k, j, stack, a, p);
    case Signal(_, _, _) => n := SimSignal(env, g, s, c, k, j, stack, a, p);
    case SubFlow(_, _) => n := SimPlain(env, g, s, c, k, j, stack, a, p);
    case Fork(_, _) => n := SimFork(env, g, s, c, k, j, stack, a, p);
    case ForEach(_, _, _, _) => n := SimForEach(env, g, s, c, k, j, stack, a, p);
    case Choose(_) => n := SimCases(env, g, s, 0, c, k, j, stack, a, p);
    case Loop(_, _, _) => n := SimLoop(env, g, s, c, k, j, stack, a, p);
  }

  /** How a whole flow ends: a gate that stops it at the top level is an END of its own. */
  function Outcome(end: End): Final {
    match end
    case Done => Ended("")
    case Stopped(gate) => Ended(GatedReason(gate))
    case TimedOut(signal) => OutOfTime(signal)
    case Waiting => NoAnswer
  }

  /** A walk that is over stays over. */
  lemma {:induction false} OverStays(g: seq<Node>, a: seq<bool>, s: State, n: nat, trace: seq<Event>, f: Final, m: nat)
    requires Leads(g, a, s, n, trace, Over(f)) && n <= m
    ensures Leads(g, a, s, m, trace, Over(f))
    decreases n
  {
    if !s.Over? {
      var (_, s1) := Move(g, a, s.at, s.stack, s.pos);
      var (more, _) := Walk(g, a, s1, n - 1);
      OverStays(g, a, s1, n - 1, more, f, m - 1);
    }
  }

  /**
   * Compilation preserves meaning: for every well-formed tree and every list of answers, walking the compiled
   * graph from its start runs exactly the steps the tree runs, and ends as the tree does.
   */
  lemma CompilationPreservesMeaning(env: Env, steps: seq<Step>, a: seq<bool>)
    returns (n: nat)
    requires steps != [] && ShapeSeq(steps)
    ensures var g, r := Program(env, steps), EvalSeq(steps, 0, a, 0);
            forall m :: m >= n ==> Walk(g, a, Going(EntrySeq(steps, 0), Empty, 0), m) == (r.trace, Over(Outcome(r.end)))
  {
    hide Emit, EmitSeq, Program;
    var g, r, end := Program(env, steps), EvalSeq(steps, 0, a, 0), SizeSeq(steps, |steps|, false);
    ProgramParts(env, steps);
    var from := Going(EntrySeq(steps, 0), Empty, 0);
    assert SizeSeq(steps, 0, false) == 0;
    n := SimSeq(env, g, steps, 0, 0, end, None, Empty, a, 0);
    if r.end.Done? {
      LeadsOne(g, a, Going(end, Empty, r.pos));
      LeadsThen(g, a, from, n, r.trace, Going(end, Empty, r.pos), 1, [], Over(Ended("")));
      assert r.trace + [] == r.trace;
      n := n + 1;
    }
    forall m: nat | m >= n ensures Walk(g, a, from, m) == (r.trace, Over(Outcome(r.end))) {
      OverStays(g, a, from, n, r.trace, Outcome(r.end), m);
    }
  }
}
