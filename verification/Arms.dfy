/**
 * The arms of every fork, and the body of every forEach, are closed: each has its own run of ids right after
 * the fork's join, no edge leaves it but to that join, and there is no END in it.
 */
module Arms {
  import opened Topology
  import opened Layout
  import opened WellFormed
  import opened Placement
  import opened Structure

  predicate IsFork(n: Node) { n.kind == FORK || n.kind == DYN_FORK }

  /** Ids lo to hi-1 hold an arm of the fork at f, whose join is the node after it. */
  ghost predicate ClosedArm(g: seq<Node>, f: Id, lo: Id, hi: Id) {
    && hi <= |g|
    && (forall u :: lo <= u < hi ==> g[u].kind != END)
    && (forall u: Id, v: Id :: lo <= u < hi && EdgeTo(g, u, v) ==> lo <= v < hi || v == f + 1)
  }

  /** The arms of the fork at f lie between these bounds, from just after its join up to its combine. */
  ghost predicate Bounds(g: seq<Node>, f: Id, bounds: seq<Id>) {
    && f + 1 < |g| && IsFork(g[f]) && |bounds| == |g[f].branches| + 1
    && g[f + 1].kind == JOIN && g[f + 1].info == Expected(if g[f].kind == FORK then |g[f].branches| else 0)
    && bounds[0] == f + 2 && g[f + 1].next == Some(bounds[|g[f].branches|])
    && (forall i :: 0 <= i < |g[f].branches| ==>
          bounds[i] <= g[f].branches[i] < bounds[i + 1] && ClosedArm(g, f, bounds[i], bounds[i + 1]))
  }

  ghost predicate Closed(g: seq<Node>, f: Id) { exists bounds :: Bounds(g, f, bounds) }

  lemma ArmIsClosed(env: Env, g: seq<Node>, steps: seq<Step>, f: Id, c: Id, hi: Id)
    requires ShapeSeq(steps) && AtSeq(env, g, steps, c, f + 1, Some(f + 1)) && f + 2 <= c
    requires hi == c + SizeSeq(steps, |steps|, true) && Onward(g, hi, f + 1)
    ensures ClosedArm(g, f, c, hi)
  {
    hide Emit, EmitSeq, Onward, SizeSeq, Rank;
    LocalSeq(env, g, steps, c, f + 1, Some(f + 1));
    forall u | c <= u < hi ensures g[u].kind != END { assert Local(g, u, c, hi, f + 1, Some(f + 1)); }
    forall u: Id, v: Id | c <= u < hi && EdgeTo(g, u, v) ensures c <= v < hi || v == f + 1 {
      assert Local(g, u, c, hi, f + 1, Some(f + 1));
    }
  }

  /** Where the arms of a fork laid out from id c start, and where the last of them ends. */
  function ArmBounds(arms: seq<Block>, c: Id): (bounds: seq<Id>)
    ensures |bounds| == |arms| + 1
  {
    seq(|arms| + 1, i requires 0 <= i <= |arms| => c + 2 + SizeBlocks(arms, i, true))
  }

  lemma ForkIsClosed(env: Env, g: seq<Node>, s: Step, c: Id, k: Id, j: Option<Id>)
    requires s.Fork? && Fits(env, g, s, c, k, j)
    ensures Bounds(g, c, ArmBounds(s.arms, c)) && Closed(g, c)
  {
    hide Emit, EmitSeq, EmitBlocks, BlockStart, ClosedArm;
    ForkParts(env, g, s, c, k, j);
    var n, bounds := |s.arms|, ArmBounds(s.arms, c);
    forall i | 0 <= i < n
      ensures bounds[i] <= g[c].branches[i] < bounds[i + 1] && ClosedArm(g, c, bounds[i], bounds[i + 1])
    {
      ArmOf(env, g, s, i, c, k, j);
      ArmEntry(env, g, s, i, c, k, j);
      BlockShape(s.arms, i);
      SizeBlocksGrows(s.arms, i + 1, n, true);
      ArmIsClosed(env, g, s.arms[i].steps, c, bounds[i], bounds[i + 1]);
    }
    assert Bounds(g, c, bounds);
  }

  lemma ForEachIsClosed(env: Env, g: seq<Node>, s: Step, c: Id, k: Id, j: Option<Id>)
    requires s.ForEach? && Fits(env, g, s, c, k, j)
    ensures Closed(g, c)
  {
    hide Emit, EmitSeq, EntrySeq, ClosedArm;
    ForEachParts(env, g, s, c, k, j);
    var bounds := [c + 2, c + 2 + SizeSeq(s.body, |s.body|, true)];
    EntrySeqIsStep(env, g, s.body, c + 2, c + 1, Some(c + 1));
    ArmIsClosed(env, g, s.body, c, bounds[0], bounds[1]);
    assert Bounds(g, c, bounds);
  }

  lemma {:induction false} ForksClosed(env: Env, g: seq<Node>, s: Step, c: Id, k: Id, j: Option<Id>, f: Id)
    requires Fits(env, g, s, c, k, j) && c <= f < c + Size(s, j.Some?) <= |g| && IsFork(g[f])
    ensures Closed(g, f)
    decreases s
  {
    hide Emit, EmitSeq, EmitBlocks, Closed, EntrySeq;
    match s
    case Task(_, _, _, _, _) => TaskParts(env, g, s, c, k, j);
    case Gate(_, _, _) => GateParts(env, g, s, c, k, j);
    case Sleep(_, _) => PlainParts(env, g, s, c, k, j);
    case SubFlow(_, _) => PlainParts(env, g, s, c, k, j);
    case Signal(_, _, escalation) =>
      SignalParts(env, g, s, c, k, j);
      if f > c { ForksClosedSeq(env, g, escalation, c + 1, k, j, f); }
    case Fork(arms, _) =>
      if f == c { ForkIsClosed(env, g, s, c, k, j); } else { ForksClosedArms(env, g, s, c, k, j, f); }
    case ForEach(_, _, _, _) =>
      if f == c { ForEachIsClosed(env, g, s, c, k, j); } else { ForksClosedBody(env, g, s, c, k, j, f); }
    case Choose(cases) => ForksClosedCases(env, g, s, c, k, j, f);
    case Loop(_, _, body) =>
      LoopParts(env, g, s, c, k, j);
      if f < c + SizeSeq(body, |body|, j.Some?) {
        ForksClosedSeq(env, g, body, c, c + SizeSeq(body, |body|, j.Some?), j, f);
      }
  }

  lemma {:induction false} ForksClosedBody(env: Env, g: seq<Node>, s: Step, c: Id, k: Id, j: Option<Id>, f: Id)
    requires s.ForEach? && Fits(env, g, s, c, k, j) && c < f < c + Size(s, j.Some?) <= |g| && IsFork(g[f])
    ensures Closed(g, f)
    decreases s, 0
  {
    hide Emit, EmitSeq, Closed, EntrySeq;
    var body := s.body;
    ForEachParts(env, g, s, c, k, j);
    if c + 1 < f < c + 2 + SizeSeq(body, |body|, true) { ForksClosedSeq(env, g, body, c + 2, c + 1, Some(c + 1), f); }
  }

  lemma {:induction false} ForksClosedArms(env: Env, g: seq<Node>, s: Step, c: Id, k: Id, j: Option<Id>, f: Id)
    requires s.Fork? && Fits(env, g, s, c, k, j) && c < f < c + Size(s, j.Some?) <= |g| && IsFork(g[f])
    ensures Closed(g, f)
    decreases s.arms, |s.arms| + 1
  {
    hide Emit, EmitSeq, EmitBlocks, Closed;
    ForkParts(env, g, s, c, k, j);
    var i := BlockAt(s.arms, |s.arms|, c + 2, true, f);
    ArmOf(env, g, s, i, c, k, j);
    BlockShape(s.arms, i);
    SizeBlocksGrows(s.arms, i + 1, |s.arms|, true);
    ForksClosedSeq(env, g, s.arms[i].steps, c + 2 + SizeBlocks(s.arms, i, true), c + 1, Some(c + 1), f);
  }

  lemma {:induction false} ForksClosedCases(env: Env, g: seq<Node>, s: Step, c: Id, k: Id, j: Option<Id>, f: Id)
    requires s.Choose? && Fits(env, g, s, c, k, j) && c <= f < c + Size(s, j.Some?) <= |g| && IsFork(g[f])
    ensures Closed(g, f)
    decreases s.cases, |s.cases| + 1
  {
    hide Emit, EmitSeq, EmitBlocks, Closed;
    var b := c + Guards(s.cases);
    if f < b {
      GuardOf(env, g, s, f - c, c, k, j);
    } else {
      var i := BlockAt(s.cases, |s.cases|, b, j.Some?, f);
      CaseOf(env, g, s, i, c, k, j);
      BlockShape(s.cases, i);
      SizeBlocksGrows(s.cases, i + 1, |s.cases|, j.Some?);
      ForksClosedSeq(env, g, s.cases[i].steps, b + SizeBlocks(s.cases, i, j.Some?), k, j, f);
    }
  }

  lemma {:induction false} ForksClosedSeq(env: Env, g: seq<Node>, steps: seq<Step>, c: Id, k: Id, j: Option<Id>, f: Id)
    requires ShapeSeq(steps) && AtSeq(env, g, steps, c, k, j)
    requires var hi := c + SizeSeq(steps, |steps|, j.Some?);
             Onward(g, hi, k) && (j.Some? ==> Onward(g, hi, j.value)) && c <= f < hi <= |g|
    requires IsFork(g[f])
    ensures Closed(g, f)
    decreases steps
  {
    hide Emit, EmitSeq, Size, SizeSeq, Closed, Onward;
    var i := StepAt(steps, |steps|, c, j.Some?, f);
    var ci, next := StepFits(env, g, steps, i, c, k, j);
    ForksClosed(env, g, steps[i], ci, next, j, f);
  }

  /** Every fork and forEach of a compiled flow has closed arms. */
  lemma ArmsAreClosed(env: Env, steps: seq<Step>, f: Id)
    requires ShapeSeq(steps) && f < |Program(env, steps)| && IsFork(Program(env, steps)[f])
    ensures Closed(Program(env, steps), f)
  {
    hide Emit, EmitSeq, Program, Closed;
    ProgramParts(env, steps);
    ForksClosedSeq(env, Program(env, steps), steps, 0, SizeSeq(steps, |steps|, false), None, f);
  }
}
