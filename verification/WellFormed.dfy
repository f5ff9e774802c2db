/** Which trees compile: the compiler's first mistake, and what it accepts. */
module WellFormed {
  import opened Topology
  import Layout

  // `Check` walks a tree in the compiler's own order and finds its first mistake; `AcceptedIff` says what it accepts
  // without any order: trees of a sound shape whose reserved names are non-empty and pairwise distinct.

  datatype Error =
    | NoWorkflowName | NoSteps
    | NoName | Duplicate(name: string)
    | EscalationTimeout(signal: string) | NoChildWorkflow
    | TooFewArms | ForkNeedsCombine | EmptyArm(arm: string)
    | EmptyForEach(name: string) | ForEachNeedsCombine
    | NoCases | OtherwiseNotLast | OnlyOtherwise | EmptyCase
    | EmptyLoop | BadBudget(cond: string)

  datatype Verdict = Accepted(names: set<string>) | Rejected(error: Error) {
    predicate IsFailure() { Rejected? }
    function PropagateFailure(): Verdict requires Rejected? { this }
    function Extract(): set<string> requires Accepted? { names }
  }

  // ---- the first mistake, in the compiler's order ----

  function Reserve(name: string, names: set<string>): Verdict {
    if name == "" then Rejected(NoName)
    else if name in names then Rejected(Duplicate(name))
    else Accepted(names + {name})
  }

  function Check(s: Step, names: set<string>): Verdict
    decreases s
  {
    match s
    case Task(name, _, _, _, combine) =>
      var names :- Reserve(name, names);
      if combine == "" then Accepted(names) else Reserve(combine, names)
    case Gate(name, _, _) => Reserve(name, names)
    case Sleep(_, _) => Accepted(names)
    case Signal(name, timeout, escalation) =>
      var names :- Reserve(name, names);
      if escalation == [] then Accepted(names)
      else if timeout <= 0 then Rejected(EscalationTimeout(name))
      else CheckSeq(escalation, |escalation|, names)
    case SubFlow(name, workflow) =>
      if workflow == "" then Rejected(NoChildWorkflow) else Reserve(Layout.SubFlowName(name, workflow), names)
    case Fork(arms, combine) =>
      if |arms| < 2 then Rejected(TooFewArms)
      else if combine == "" then Rejected(ForkNeedsCombine)
      else
        var names :- CheckBlocks(arms, |arms|, names, true);
        Reserve(combine, names)
    case ForEach(name, itemsKey, body, combine) =>
      if body == [] then Rejected(EmptyForEach(name))
      else if combine == "" then Rejected(ForEachNeedsCombine)
      else
        var names :- Reserve(ForEachName(name, itemsKey), names);
        var names :- CheckSeq(body, |body|, names);
        Reserve(combine, names)
    case Choose(cases) =>
      if cases == [] then Rejected(NoCases)
      else if exists i :: 0 <= i < |cases| - 1 && cases[i].tag == "" then Rejected(OtherwiseNotLast)
      else if Guards(cases) == 0 then Rejected(OnlyOtherwise)
      else
        var names :- CheckGuards(cases, Guards(cases), names);
        CheckBlocks(cases, |cases|, names, false)
    case Loop(cond, maxIterations, body) =>
      var names :- CheckSeq(body, |body|, names);
      if body == [] then Rejected(EmptyLoop)
      else if maxIterations < 0 then Rejected(BadBudget(cond))
      else Reserve(cond, names)
  }

  /** The first n steps. */
  function CheckSeq(steps: seq<Step>, n: nat, names: set<string>): Verdict
    requires n <= |steps|
    decreases steps, n
  {
    if n == 0 then Accepted(names)
    else
      var names :- CheckSeq(steps, n - 1, names);
      Check(steps[n - 1], names)
  }

  /** The first n arms of a fork, or cases of a choice. */
  function CheckBlocks(blocks: seq<Block>, n: nat, names: set<string>, arms: bool): Verdict
    requires n <= |blocks|
    decreases blocks, n
  {
    if n == 0 then Accepted(names)
    else
      var names :- CheckBlocks(blocks, n - 1, names, arms);
      CheckBlock(blocks[n - 1], names, arms)
  }

  function CheckBlock(b: Block, names: set<string>, arm: bool): Verdict
    decreases b.steps, |b.steps| + 1
  {
    var names :- CheckSeq(b.steps, |b.steps|, names);
    if b.steps == [] then Rejected(if arm then EmptyArm(b.tag) else EmptyCase) else Accepted(names)
  }

  /** The guards of the first n cases. */
  function CheckGuards(cases: seq<Block>, n: nat, names: set<string>): Verdict
    requires n <= |cases|
  {
    if n == 0 then Accepted(names)
    else
      var names :- CheckGuards(cases, n - 1, names);
      Reserve(cases[n - 1].tag, names)
  }

  /** compile's own checks, before any step is compiled. */
  function CheckFlow(flow: string, steps: seq<Step>): Verdict {
    if flow == "" then Rejected(NoWorkflowName)
    else if steps == [] then Rejected(NoSteps)
    else CheckSeq(steps, |steps|, {})
  }

  // ---- what a well-formed tree is ----

  ghost predicate Shape(s: Step)
    decreases s
  {
    match s
    case Task(_, _, _, _, _) => true
    case Gate(_, _, _) => true
    case Sleep(_, _) => true
    case Signal(_, timeout, escalation) => ShapeSeq(escalation) && (escalation != [] ==> timeout > 0)
    case SubFlow(_, workflow) => workflow != ""
    case Fork(arms, combine) => |arms| >= 2 && combine != "" && ShapeBlocks(arms)
    case ForEach(_, _, body, combine) => body != [] && combine != "" && ShapeSeq(body)
    case Choose(cases) =>
      && Guards(cases) > 0
      && (forall i :: 0 <= i < |cases| - 1 ==> cases[i].tag != "")
      && ShapeBlocks(cases)
    case Loop(_, maxIterations, body) => body != [] && ShapeSeq(body) && maxIterations >= 0
  }

  ghost predicate ShapeSeq(steps: seq<Step>)
    decreases steps
  {
    forall i :: 0 <= i < |steps| ==> Shape(steps[i])
  }

  /** Blocks with steps, each of a sound shape. */
  ghost predicate ShapeBlocks(blocks: seq<Block>)
    decreases blocks
  {
    forall i :: 0 <= i < |blocks| ==> blocks[i].steps != [] && ShapeSeq(blocks[i].steps)
  }

  /** The names a step reserves. */
  ghost function Names(s: Step): seq<string>
    decreases s
  {
    match s
    case Task(name, _, _, _, combine) => if combine == "" then [name] else [name] + [combine]
    case Gate(name, _, _) => [name]
    case Sleep(_, _) => []
    case Signal(name, _, escalation) => [name] + NamesSeq(escalation, |escalation|)
    case SubFlow(name, workflow) => [Layout.SubFlowName(name, workflow)]
    case Fork(arms, combine) => NamesBlocks(arms, |arms|) + [combine]
    case ForEach(name, itemsKey, body, combine) => [ForEachName(name, itemsKey)] + NamesSeq(body, |body|) + [combine]
    case Choose(cases) => Layout.Tags(cases, Guards(cases)) + NamesBlocks(cases, |cases|)
    case Loop(cond, _, body) => NamesSeq(body, |body|) + [cond]
  }

  ghost function NamesSeq(steps: seq<Step>, n: nat): seq<string>
    requires n <= |steps|
    decreases steps, n
  {
    if n == 0 then [] else NamesSeq(steps, n - 1) + Names(steps[n - 1])
  }

  ghost function NamesBlocks(blocks: seq<Block>, n: nat): seq<string>
    requires n <= |blocks|
    decreases blocks, n
  {
    if n == 0 then [] else NamesBlocks(blocks, n - 1) + NamesSeq(blocks[n - 1].steps, |blocks[n - 1].steps|)
  }

  ghost function Elems(names: seq<string>): set<string> { set n | n in names }

  /** Non-empty names, pairwise distinct and not among `taken`. */
  ghost predicate Fresh(names: seq<string>, taken: set<string>) {
    && (forall i :: 0 <= i < |names| ==> names[i] != "" && names[i] !in taken)
    && (forall i, j :: 0 <= i < j < |names| ==> names[i] != names[j])
  }

  // ---- Check accepts exactly the well-formed trees ----

  lemma FreshConcat(a: seq<string>, b: seq<string>, taken: set<string>)
    ensures Fresh(a + b, taken) <==> Fresh(a, taken) && Fresh(b, taken + Elems(a))
    ensures Elems(a + b) == Elems(a) + Elems(b)
  {
    var ab := a + b;
    if Fresh(ab, taken) {
      forall i | 0 <= i < |a| ensures a[i] == ab[i] {}
      forall i | 0 <= i < |b| ensures b[i] == ab[|a| + i] {}
      assert forall i :: 0 <= i < |b| ==> b[i] !in Elems(a);
    }
    if Fresh(a, taken) && Fresh(b, taken + Elems(a)) {
      forall i, j | 0 <= i < j < |ab| ensures ab[i] != ab[j] {
        if i < |a| <= j { assert a[i] in Elems(a); }
      }
    }
  }

  lemma FreshOne(name: string, taken: set<string>)
    ensures Fresh([name], taken) <==> Reserve(name, taken).Accepted?
    ensures Elems([name]) == {name}
  {
    assert Fresh([name], taken) <==> [name][0] != "" && [name][0] !in taken;
  }

  /** A verdict that accepts exactly sound shapes with fresh names, and adds those names. */
  ghost predicate Decides(v: Verdict, shape: bool, names: seq<string>, taken: set<string>) {
    && (v.Accepted? <==> shape && Fresh(names, taken))
    && (v.Accepted? ==> v.names == taken + Elems(names))
  }

  lemma {:induction false} CheckGuardsIff(cases: seq<Block>, n: nat, taken: set<string>)
    requires n <= |cases|
    ensures Decides(CheckGuards(cases, n, taken), true, Layout.Tags(cases, n), taken)
  {
    if n > 0 {
      var before := Layout.Tags(cases, n - 1);
      CheckGuardsIff(cases, n - 1, taken);
      assert Layout.Tags(cases, n) == before + [cases[n - 1].tag];
      FreshConcat(before, [cases[n - 1].tag], taken);
      FreshOne(cases[n - 1].tag, taken + Elems(before));
    }
  }

  lemma {:induction false} CheckIff(s: Step, taken: set<string>)
    ensures Decides(Check(s, taken), Shape(s), Names(s), taken)
    decreases s
  {
    hide CheckSeq, CheckBlocks, NamesSeq, NamesBlocks;
    match s
    case Task(name, _, _, _, combine) =>
      FreshOne(name, taken);
      FreshConcat([name], [combine], taken);
      FreshOne(combine, taken + {name});
    case Gate(name, _, _) => FreshOne(name, taken);
    case Sleep(_, _) =>
    case Signal(_, _, _) => CheckSignalIff(s, taken);
    case SubFlow(name, workflow) => FreshOne(Layout.SubFlowName(name, workflow), taken);
    case Fork(arms, combine) =>
      var inner := NamesBlocks(arms, |arms|);
      CheckBlocksIff(arms, |arms|, taken, true);
      FreshConcat(inner, [combine], taken);
      FreshOne(combine, taken + Elems(inner));
    case ForEach(name, itemsKey, body, combine) =>
      CheckForEachIff(s, taken);
    case Choose(cases) =>
      CheckChooseIff(s, taken);
    case Loop(cond, _, body) =>
      var inner := NamesSeq(body, |body|);
      CheckSeqIff(body, |body|, taken);
      FreshConcat(inner, [cond], taken);
      FreshOne(cond, taken + Elems(inner));
  }

  lemma {:induction false} CheckSignalIff(s: Step, taken: set<string>)
    requires s.Signal?
    ensures Decides(Check(s, taken), Shape(s), Names(s), taken)
    decreases s.escalation, |s.escalation| + 1
  {
    FreshOne(s.name, taken);
    FreshConcat([s.name], NamesSeq(s.escalation, |s.escalation|), taken);
    CheckSeqIff(s.escalation, |s.escalation|, taken + {s.name});
  }

  lemma {:induction false} CheckForEachIff(s: Step, taken: set<string>)
    requires s.ForEach?
    ensures Decides(Check(s, taken), Shape(s), Names(s), taken)
    decreases s.body, |s.body| + 1
  {
    var own, inner := [ForEachName(s.name, s.itemsKey)], NamesSeq(s.body, |s.body|);
    FreshOne(own[0], taken);
    FreshConcat(own, inner, taken);
    CheckSeqIff(s.body, |s.body|, taken + Elems(own));
    FreshConcat(own + inner, [s.combine], taken);
    FreshOne(s.combine, taken + Elems(own + inner));
    assert taken + Elems(own + inner) == taken + Elems(own) + Elems(inner);
  }

  lemma {:induction false} CheckChooseIff(s: Step, taken: set<string>)
    requires s.Choose?
    ensures Decides(Check(s, taken), Shape(s), Names(s), taken)
    decreases s.cases, |s.cases| + 1
  {
    var guards := Layout.Tags(s.cases, Guards(s.cases));
    CheckGuardsIff(s.cases, Guards(s.cases), taken);
    FreshConcat(guards, NamesBlocks(s.cases, |s.cases|), taken);
    CheckBlocksIff(s.cases, |s.cases|, taken + Elems(guards), false);
  }

  lemma {:induction false} CheckSeqIff(steps: seq<Step>, n: nat, taken: set<string>)
    requires n <= |steps|
    ensures Decides(CheckSeq(steps, n, taken), forall i :: 0 <= i < n ==> Shape(steps[i]), NamesSeq(steps, n), taken)
    decreases steps, n
  {
    if n > 0 {
      var before := NamesSeq(steps, n - 1);
      CheckSeqIff(steps, n - 1, taken);
      CheckIff(steps[n - 1], taken + Elems(before));
      FreshConcat(before, Names(steps[n - 1]), taken);
    }
  }

  lemma {:induction false} CheckBlocksIff(blocks: seq<Block>, n: nat, taken: set<string>, arms: bool)
    requires n <= |blocks|
    ensures Decides(CheckBlocks(blocks, n, taken, arms),
                    forall i :: 0 <= i < n ==> blocks[i].steps != [] && ShapeSeq(blocks[i].steps),
                      NamesBlocks(blocks, n), taken)
    decreases blocks, n
  {
    if n > 0 {
      var before, steps := NamesBlocks(blocks, n - 1), blocks[n - 1].steps;
      CheckBlocksIff(blocks, n - 1, taken, arms);
      CheckSeqIff(steps, |steps|, taken + Elems(before));
      FreshConcat(before, NamesSeq(steps, |steps|), taken);
    }
  }

  /** The compiler accepts exactly the named flows with steps that are well-formed. */
  lemma AcceptedIff(flow: string, steps: seq<Step>)
    ensures CheckFlow(flow, steps).Accepted? <==>
            flow != "" && steps != [] && ShapeSeq(steps) && Fresh(NamesSeq(steps, |steps|), {})
  {
    CheckSeqIff(steps, |steps|, {});
  }
}
