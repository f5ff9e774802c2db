/**
 * Every node of a compiled flow is reached from its start, and all but the ENDs reach its final END. A step laid out
 * from some entry is on the way from it: each of its nodes is reached from the entry and reaches the place the step
 * goes on to, unless it is an END; and steps on the way one after the other, or side by side, make a whole that is.
 */
module Reach {
  import opened Topology
  import opened Layout
  import opened WellFormed
  import opened Placement
  import opened Structure

  /** v is n edges from u. */
  ghost predicate ReachIn(g: seq<Node>, u: Id, v: Id, n: nat)
    decreases n
  {
    if n == 0 then u == v else exists w: Id :: EdgeTo(g, u, w) && ReachIn(g, w, v, n - 1)
  }

  ghost predicate Reaches(g: seq<Node>, u: Id, v: Id) { exists n: nat :: ReachIn(g, u, v, n) }

  lemma Here(g: seq<Node>, u: Id)
    ensures Reaches(g, u, u)
  {
    assert ReachIn(g, u, u, 0);
  }

  lemma Along(g: seq<Node>, u: Id, v: Id)
    requires EdgeTo(g, u, v)
    ensures Reaches(g, u, v)
  {
    assert ReachIn(g, v, v, 0);
    assert ReachIn(g, u, v, 1);
  }

  lemma {:induction false} ThenIn(g: seq<Node>, u: Id, v: Id, w: Id, n: nat, m: nat)
    requires ReachIn(g, u, v, n) && ReachIn(g, v, w, m)
    ensures ReachIn(g, u, w, n + m)
    decreases n
  {
    if n > 0 {
      var x: Id :| EdgeTo(g, u, x) && ReachIn(g, x, v, n - 1);
      ThenIn(g, x, v, w, n - 1, m);
    }
  }

  lemma Then(g: seq<Node>, u: Id, v: Id, w: Id)
    requires Reaches(g, u, v) && Reaches(g, v, w)
    ensures Reaches(g, u, w)
  {
    var n: nat :| ReachIn(g, u, v, n);
    var m: nat :| ReachIn(g, v, w, m);
    ThenIn(g, u, v, w, n, m);
  }

  /** A node on the way: reached from the entry, and, unless it is an END, going on to k. */
  ghost predicate OnTheWay(g: seq<Node>, entry: Id, k: Id, u: Id) {
    u < |g| && Reaches(g, entry, u) && (g[u].kind != END ==> Reaches(g, u, k))
  }

  lemma Extend(g: seq<Node>, entry: Id, k: Id, u: Id, entry': Id, k': Id)
    requires OnTheWay(g, entry, k, u) && Reaches(g, entry', entry) && Reaches(g, k, k')
    ensures OnTheWay(g, entry', k', u)
  {
    Then(g, entry', entry, u);
    if g[u].kind != END { Then(g, u, k, k'); }
  }

  lemma OwnEdge(g: seq<Node>, u: Id, k: Id)
    requires u < |g| && EdgeTo(g, u, k)
    ensures OnTheWay(g, u, k, u)
  {
    Here(g, u);
    Along(g, u, k);
  }

  lemma {:induction false} StepOnTheWay(env: Env, g: seq<Node>, s: Step, c: Id, k: Id, j: Option<Id>, u: Id)
    requires Shape(s) && At(env, g, s, c, k, j) && c <= u < c + Size(s, j.Some?)
    ensures OnTheWay(g, Entry(s, c), k, u)
    decreases s, 1
  {
    hide Emit, EmitSeq, EmitBlocks, OnTheWay, Reaches, EdgeTo;
    match s
    case Task(_, _, _, _, _) => TaskOnTheWay(env, g, s, c, k, j, u);
    case Gate(_, _, _) => GateOnTheWay(env, g, s, c, k, j, u);
    case Sleep(_, _) => PlainOnTheWay(env, g, s, c, k, j, u);
    case SubFlow(_, _) => PlainOnTheWay(env, g, s, c, k, j, u);
    case Signal(_, _, _) => SignalOnTheWay(env, g, s, c, k, j, u);
    case Fork(_, _) => ForkOnTheWay(env, g, s, c, k, j, u);
    case ForEach(_, _, _, _) => ForEachOnTheWay(env, g, s, c, k, j, u);
    case Choose(_) => ChooseOnTheWay(env, g, s, c, k, j, u);
    case Loop(_, _, _) => LoopOnTheWay(env, g, s, c, k, j, u);
  }

  lemma TaskOnTheWay(env: Env, g: seq<Node>, s: Step, c: Id, k: Id, j: Option<Id>, u: Id)
    requires s.Task? && At(env, g, s, c, k, j) && c <= u < c + Size(s, j.Some?)
    ensures OnTheWay(g, c, k, u)
  {
    hide Emit, Reaches;
    TaskParts(env, g, s, c, k, j);
    if s.combine == "" {
      OwnEdge(g, c, k);
    } else {
      OwnEdge(g, c, c + 1);
      OwnEdge(g, c + 1, c + 2);
      OwnEdge(g, c + 2, k);
      Then(g, c, c + 1, c + 2);
      Then(g, c + 1, c + 2, k);
      Then(g, c, c + 1, k);
    }
  }

  lemma GateOnTheWay(env: Env, g: seq<Node>, s: Step, c: Id, k: Id, j: Option<Id>, u: Id)
    requires s.Gate? && At(env, g, s, c, k, j) && c <= u < c + Size(s, j.Some?)
    ensures OnTheWay(g, c, k, u)
  {
    hide Emit, Reaches;
    GateParts(env, g, s, c, k, j);
    OwnEdge(g, c, k);
    if u > c { Along(g, c, c + 1); }
  }

  lemma PlainOnTheWay(env: Env, g: seq<Node>, s: Step, c: Id, k: Id, j: Option<Id>, u: Id)
    requires (s.Sleep? || s.SubFlow?) && At(env, g, s, c, k, j) && c <= u < c + Size(s, j.Some?)
    ensures OnTheWay(g, c, k, u)
  {
    hide Emit, Reaches;
    PlainParts(env, g, s, c, k, j);
    OwnEdge(g, c, k);
  }

  lemma {:induction false} SignalOnTheWay(env: Env, g: seq<Node>, s: Step, c: Id, k: Id, j: Option<Id>, u: Id)
    requires s.Signal? && Shape(s) && At(env, g, s, c, k, j) && c <= u < c + Size(s, j.Some?)
    ensures OnTheWay(g, c, k, u)
    decreases s, 0
  {
    hide Emit, EmitSeq, Reaches, OnTheWay;
    SignalParts(env, g, s, c, k, j);
    if u == c {
      OwnEdge(g, c, k);
    } else {
      Along(g, c, EntrySeq(s.escalation, c + 1));
      Here(g, k);
      SeqOnTheWay(env, g, s.escalation, c + 1, k, j, u);
      Extend(g, EntrySeq(s.escalation, c + 1), k, u, c, k);
    }
  }

  /** From its join, a fork or forEach goes on past its combine. */
  lemma JoinGoesOn(g: seq<Node>, join: Id, combine: Id, k: Id)
    requires EdgeTo(g, join, combine) && EdgeTo(g, combine, k)
    ensures Reaches(g, join, k)
  {
    Along(g, join, combine);
    Along(g, combine, k);
    Then(g, join, combine, k);
  }

  lemma {:induction false} ForkOnTheWay(env: Env, g: seq<Node>, s: Step, c: Id, k: Id, j: Option<Id>, u: Id)
    requires s.Fork? && Shape(s) && At(env, g, s, c, k, j) && c <= u < c + Size(s, j.Some?)
    ensures OnTheWay(g, c, k, u)
    decreases s, 0
  {
    hide Emit, EmitSeq, EmitBlocks, Reaches, BlockStart;
    ForkParts(env, g, s, c, k, j);
    var m := c + 2 + SizeBlocks(s.arms, |s.arms|, true);
    JoinGoesOn(g, c + 1, m, k);
    Along(g, m, k);
    Along(g, c + 1, m);
    ForkEntersJoin(env, g, s, c, k, j);
    Then(g, c, c + 1, k);
    Then(g, c, c + 1, m);
    Here(g, c);
    if c + 2 <= u < m {
      ArmOnTheWay(env, g, s, c, k, j, u);
      Here(g, c);
      Extend(g, c, c + 1, u, c, k);
    }
  }

  lemma {:induction false} ForkEntersJoin(env: Env, g: seq<Node>, s: Step, c: Id, k: Id, j: Option<Id>)
    requires s.Fork? && Shape(s) && At(env, g, s, c, k, j)
    ensures Reaches(g, c, c + 1)
    decreases s.arms, |s.arms| + 1
  {
    hide Emit, EmitSeq, EmitBlocks, Reaches;
    ForkParts(env, g, s, c, k, j);
    ArmOf(env, g, s, 0, c, k, j);
    BlockShape(s.arms, 0);
    var steps, entry := s.arms[0].steps, EntrySeq(s.arms[0].steps, c + 2);
    EntrySeqIsStep(env, g, steps, c + 2, c + 1, Some(c + 1));
    SeqOnTheWay(env, g, steps, c + 2, c + 1, Some(c + 1), entry);
    assert g[c].branches[0] == entry;
    Along(g, c, entry);
    Then(g, c, entry, c + 1);
  }

  /** An arm's nodes lie between the fork and its join. */
  lemma {:induction false} ArmOnTheWay(env: Env, g: seq<Node>, s: Step, c: Id, k: Id, j: Option<Id>, u: Id)
    requires s.Fork? && Shape(s) && At(env, g, s, c, k, j)
    requires c + 2 <= u < c + 2 + SizeBlocks(s.arms, |s.arms|, true)
    ensures OnTheWay(g, c, c + 1, u)
    decreases s.arms, |s.arms| + 1
  {
    hide Emit, EmitSeq, EmitBlocks, Reaches, OnTheWay;
    ForkParts(env, g, s, c, k, j);
    var i := BlockAt(s.arms, |s.arms|, c + 2, true, u);
    var steps, ci := s.arms[i].steps, c + 2 + SizeBlocks(s.arms, i, true);
    ArmOf(env, g, s, i, c, k, j);
    BlockShape(s.arms, i);
    SeqOnTheWay(env, g, steps, ci, c + 1, Some(c + 1), u);
    assert g[c].branches[i] == EntrySeq(steps, ci);
    Along(g, c, EntrySeq(steps, ci));
    Here(g, c + 1);
    Extend(g, EntrySeq(steps, ci), c + 1, u, c, c + 1);
  }

  lemma {:induction false} ForEachOnTheWay(env: Env, g: seq<Node>, s: Step, c: Id, k: Id, j: Option<Id>, u: Id)
    requires s.ForEach? && Shape(s) && At(env, g, s, c, k, j) && c <= u < c + Size(s, j.Some?)
    ensures OnTheWay(g, c, k, u)
    decreases s, 0
  {
    hide Emit, EmitSeq, Reaches;
    ForEachParts(env, g, s, c, k, j);
    var m, entry := c + 2 + SizeSeq(s.body, |s.body|, true), EntrySeq(s.body, c + 2);
    JoinGoesOn(g, c + 1, m, k);
    Along(g, m, k);
    Along(g, c + 1, m);
    Along(g, c, c + 1);
    Then(g, c, c + 1, k);
    Then(g, c, c + 1, m);
    Here(g, c);
    if c + 2 <= u < m {
      SeqOnTheWay(env, g, s.body, c + 2, c + 1, Some(c + 1), u);
      assert g[c].branches[0] == entry;
      Along(g, c, entry);
      Extend(g, entry, c + 1, u, c, k);
    }
  }

  lemma {:induction false} GuardReached(env: Env, g: seq<Node>, s: Step, i: nat, c: Id, k: Id, j: Option<Id>)
    requires s.Choose? && i < Guards(s.cases) && At(env, g, s, c, k, j)
    ensures Reaches(g, c, c + i)
    decreases i
  {
    hide Emit, Reaches, BlockStart;
    if i == 0 {
      Here(g, c);
    } else {
      GuardReached(env, g, s, i - 1, c, k, j);
      GuardOf(env, g, s, i - 1, c, k, j);
      Along(g, c + (i - 1), c + i);
      Then(g, c, c + (i - 1), c + i);
    }
  }

  lemma CaseReached(env: Env, g: seq<Node>, s: Step, i: nat, c: Id, k: Id, j: Option<Id>)
    requires s.Choose? && Shape(s) && i < |s.cases| && At(env, g, s, c, k, j)
    ensures Reaches(g, c, BlockStart(s.cases, i, c + Guards(s.cases), j.Some?))
  {
    hide Emit, Reaches, BlockStart;
    var guard := if i < Guards(s.cases) then i else i - 1;
    var v := BlockStart(s.cases, i, c + Guards(s.cases), j.Some?);
    GuardReached(env, g, s, guard, c, k, j);
    GuardOf(env, g, s, guard, c, k, j);
    Along(g, c + guard, v);
    Then(g, c, c + guard, v);
  }

  lemma {:induction false} ChooseOnTheWay(env: Env, g: seq<Node>, s: Step, c: Id, k: Id, j: Option<Id>, u: Id)
    requires s.Choose? && Shape(s) && At(env, g, s, c, k, j) && c <= u < c + Size(s, j.Some?)
    ensures OnTheWay(g, c, k, u)
    decreases s, 0
  {
    hide Emit, EmitSeq, EmitBlocks, Reaches;
    if u < c + Guards(s.cases) {
      var i := u - c;
      GuardOf(env, g, s, i, c, k, j);
      GuardReached(env, g, s, i, c, k, j);
      var v := BlockStart(s.cases, i, c + Guards(s.cases), j.Some?);
      CaseGoesOn(env, g, s, i, c, k, j);
      Along(g, u, v);
      Then(g, u, v, k);
    } else {
      InCaseOnTheWay(env, g, s, c, k, j, u);
    }
  }

  /** A case, once entered, goes on to where the choice does. */
  lemma {:induction false} CaseGoesOn(env: Env, g: seq<Node>, s: Step, i: nat, c: Id, k: Id, j: Option<Id>)
    requires s.Choose? && Shape(s) && i < |s.cases| && At(env, g, s, c, k, j)
    ensures Reaches(g, BlockStart(s.cases, i, c + Guards(s.cases), j.Some?), k)
    decreases s.cases, |s.cases| + 1
  {
    hide Emit, EmitSeq, EmitBlocks, Reaches;
    var steps, ci := s.cases[i].steps, c + Guards(s.cases) + SizeBlocks(s.cases, i, j.Some?);
    CaseOf(env, g, s, i, c, k, j);
    BlockShape(s.cases, i);
    EntrySeqIsStep(env, g, steps, ci, k, j);
    SeqOnTheWay(env, g, steps, ci, k, j, EntrySeq(steps, ci));
  }

  lemma {:induction false} InCaseOnTheWay(env: Env, g: seq<Node>, s: Step, c: Id, k: Id, j: Option<Id>, u: Id)
    requires s.Choose? && Shape(s) && At(env, g, s, c, k, j)
    requires c + Guards(s.cases) <= u < c + Size(s, j.Some?)
    ensures OnTheWay(g, c, k, u)
    decreases s.cases, |s.cases| + 1
  {
    hide Emit, EmitSeq, EmitBlocks, Reaches, OnTheWay;
    var b := c + Guards(s.cases);
    var i := BlockAt(s.cases, |s.cases|, b, j.Some?, u);
    var steps, ci := s.cases[i].steps, b + SizeBlocks(s.cases, i, j.Some?);
    CaseOf(env, g, s, i, c, k, j);
    BlockShape(s.cases, i);
    SeqOnTheWay(env, g, steps, ci, k, j, u);
    CaseReached(env, g, s, i, c, k, j);
    Here(g, k);
    Extend(g, EntrySeq(steps, ci), k, u, c, k);
  }

  lemma {:induction false} LoopOnTheWay(env: Env, g: seq<Node>, s: Step, c: Id, k: Id, j: Option<Id>, u: Id)
    requires s.Loop? && Shape(s) && At(env, g, s, c, k, j) && c <= u < c + Size(s, j.Some?)
    ensures OnTheWay(g, Entry(s, c), k, u)
    decreases s, 0
  {
    hide Emit, EmitSeq, Reaches;
    LoopParts(env, g, s, c, k, j);
    var m, entry := c + SizeSeq(s.body, |s.body|, j.Some?), EntrySeq(s.body, c);
    Along(g, m, k);
    EntrySeqIsStep(env, g, s.body, c, m, j);
    SeqOnTheWay(env, g, s.body, c, m, j, entry);
    if u < m {
      SeqOnTheWay(env, g, s.body, c, m, j, u);
      Here(g, entry);
      Extend(g, entry, m, u, entry, k);
    }
  }

  /** From the entry of step i a sequence goes on to k, and it is reached from the entry of the first. */
  lemma {:induction false} StepGoesOn(env: Env, g: seq<Node>, steps: seq<Step>, i: nat, c: Id, k: Id, j: Option<Id>)
    requires i < |steps| && ShapeSeq(steps) && AtSeq(env, g, steps, c, k, j)
    ensures Reaches(g, Entry(steps[i], c + SizeSeq(steps, i, j.Some?)), k)
    decreases steps, |steps| - i
  {
    hide Emit, EmitSeq, Reaches, Entry, Size;
    var ci, next := c + SizeSeq(steps, i, j.Some?), Cont(steps, i, c, k, j.Some?);
    EntryGoesOn(env, g, steps, i, c, k, j);
    if i + 1 < |steps| {
      StepGoesOn(env, g, steps, i + 1, c, k, j);
      Then(g, Entry(steps[i], ci), next, k);
    }
  }

  lemma {:induction false} EntryGoesOn(env: Env, g: seq<Node>, steps: seq<Step>, i: nat, c: Id, k: Id, j: Option<Id>)
    requires i < |steps| && ShapeSeq(steps) && AtSeq(env, g, steps, c, k, j)
    ensures Reaches(g, Entry(steps[i], c + SizeSeq(steps, i, j.Some?)), Cont(steps, i, c, k, j.Some?))
    decreases steps, 0
  {
    hide Emit, EmitSeq, Reaches;
    var ci, next := c + SizeSeq(steps, i, j.Some?), Cont(steps, i, c, k, j.Some?);
    StepOf(env, g, steps, i, c, k, j);
    EntryIsStep(env, g, steps[i], ci, next, j);
    StepOnTheWay(env, g, steps[i], ci, next, j, Entry(steps[i], ci));
  }

  lemma {:induction false} StepReached(env: Env, g: seq<Node>, steps: seq<Step>, i: nat, c: Id, k: Id, j: Option<Id>)
    requires i < |steps| && ShapeSeq(steps) && AtSeq(env, g, steps, c, k, j)
    ensures Reaches(g, EntrySeq(steps, c), Entry(steps[i], c + SizeSeq(steps, i, j.Some?)))
    decreases steps, i + 1
  {
    hide Emit, EmitSeq, Reaches, Entry, Size;
    if i == 0 {
      Here(g, EntrySeq(steps, c));
    } else {
      StepReached(env, g, steps, i - 1, c, k, j);
      EntryGoesOn(env, g, steps, i - 1, c, k, j);
      Then(g, EntrySeq(steps, c), Entry(steps[i - 1], c + SizeSeq(steps, i - 1, j.Some?)),
           Entry(steps[i], c + SizeSeq(steps, i, j.Some?)));
    }
  }

  lemma {:induction false} SeqOnTheWay(env: Env, g: seq<Node>, steps: seq<Step>, c: Id, k: Id, j: Option<Id>, u: Id)
    requires ShapeSeq(steps) && AtSeq(env, g, steps, c, k, j) && c <= u < c + SizeSeq(steps, |steps|, j.Some?)
    ensures OnTheWay(g, EntrySeq(steps, c), k, u)
    decreases steps, |steps| + 1
  {
    hide Emit, EmitSeq, Reaches, OnTheWay, Entry, EntrySeq;
    var i := StepAt(steps, |steps|, c, j.Some?, u);
    var ci, next := c + SizeSeq(steps, i, j.Some?), Cont(steps, i, c, k, j.Some?);
    StepOf(env, g, steps, i, c, k, j);
    StepOnTheWay(env, g, steps[i], ci, next, j, u);
    StepReached(env, g, steps, i, c, k, j);
    if i + 1 < |steps| { StepGoesOn(env, g, steps, i + 1, c, k, j); } else { Here(g, k); }
    Extend(g, Entry(steps[i], ci), next, u, EntrySeq(steps, c), k);
  }

  /** Every node is reached from the start, and every node but an END reaches the final END. */
  lemma EveryNodeIsOnTheWay(env: Env, steps: seq<Step>, u: Id)
    requires ShapeSeq(steps) && steps != [] && u < |Program(env, steps)|
    ensures var g := Program(env, steps);
            && Reaches(g, EntrySeq(steps, 0), u)
            && (g[u].kind != END ==> Reaches(g, u, |g| - 1))
            && g[|g| - 1] == EndNode("")
  {
    hide Emit, EmitSeq, Program, Reaches;
    var g, m := Program(env, steps), SizeSeq(steps, |steps|, false);
    ProgramParts(env, steps);
    EntrySeqIsStep(env, g, steps, 0, m, None);
    if u < m {
      SeqOnTheWay(env, g, steps, 0, m, None, u);
    } else {
      SeqOnTheWay(env, g, steps, 0, m, None, EntrySeq(steps, 0));
    }
  }
}
