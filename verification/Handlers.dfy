/** Binding handlers to the steps of a registered graph, by name. */
module Handlers {
  import opened Topology
  import opened Spawns

  // A handler set's methods are matched under a folding of names, `fold`, which keeps a name's letters and digits in
  // lower case.

  /** What a method's signature makes it. */
  datatype Shape = TaskShape | StepTaskShape | GateShape | EffectShape | ItemShape

  datatype Candidate = Candidate(name: string, shape: Shape)

  function KindOf(cand: Candidate): Kind { if cand.shape.GateShape? then PREDICATE else TASK }

  /** Only a method that returns the next context can serve a combine. */
  predicate CanCombine(cand: Candidate) { cand.shape.TaskShape? || cand.shape.StepTaskShape? }

  /** A compensator, by the name of its method. */
  datatype Compensator = Compensator(name: string)

  /** Candidates and compensators by the folded name of their step, and the steps only created branches run. */
  datatype HandlerSet = HandlerSet(workflow: string, candidates: map<string, Candidate>,
                                   compensators: map<string, Compensator>,
                                   branch: set<string>)

  /** How a handler was bound: by itself, or from a set's candidate, as a combine, an item step, or an undo. */
  datatype Handler =
    | Own(id: nat) | Plain(cand: Candidate) | AsCombine(cand: Candidate) | AsItem(cand: Candidate)
    | Undo(comp: Compensator)

  datatype Binding = Binding(activity: string, step: string, queue: string, handler: Handler)

  datatype Error =
    | NoStep(name: string) | WrongKind(name: string) | CannotCombine(name: string) | NotCompensable(name: string)
    | NeedsCompensator(step: string) | NeedsHandle(step: string) | NeedsHandleCombine(step: string)
    | Duplicate(activity: string)
    | NotRegistered(workflow: string)

  /** The handler found for a step, if there is one, or why it does not fit. */
  type Found = Result<Option<Handler>, Error>

  const UNDO := "#compensate"

  function ActivityOf(workflow: string, step: string): string { workflow + "#" + step }

  function QueueOf(n: Node, workflow: string): string {
    if n.info.Work? && n.info.queue != "" then n.info.queue else workflow
  }

  predicate IsCompensable(n: Node) { n.info.Work? && n.info.compensable }

  // ---- a handler set ----

  predicate IsStep(n: Node) { n.name != "" && (n.kind == TASK || n.kind == PREDICATE) }

  /** The first step listed, of the first n nodes, whose name folds to this. */
  function FirstNamed(nodes: seq<Node>, n: nat, fold: string -> string, canon: string): Option<Node>
    requires n <= |nodes|
  {
    if n == 0 then None
    else
      var before := FirstNamed(nodes, n - 1, fold, canon);
      if before.Some? then before
      else if IsStep(nodes[n - 1]) && fold(nodes[n - 1].name) == canon then Some(nodes[n - 1]) else None
  }

  /** The graph a set is bound to, read by folded names. */
  ghost predicate Reads(steps: map<string, Node>, nodes: seq<Node>, n: nat, fold: string -> string)
    requires n <= |nodes|
  {
    forall c :: FirstNamed(nodes, n, fold, c) == if c in steps then Some(steps[c]) else None
  }

  method ReadSteps(nodes: seq<Node>, fold: string -> string) returns (steps: map<string, Node>)
    ensures Reads(steps, nodes, |nodes|, fold)
  {
    steps := map[];
    for i := 0 to |nodes|
      invariant Reads(steps, nodes, i, fold)
    {
      if IsStep(nodes[i]) {
        var c := fold(nodes[i].name);
        if c !in steps { steps := steps[c := nodes[i]]; }
      }
    }
  }

  predicate CandidateFits(hs: HandlerSet, steps: map<string, Node>, c: string)
    requires c in hs.candidates
  {
    var cand := hs.candidates[c];
    if c !in steps then c in hs.branch
    else
      && steps[c].kind == KindOf(cand)
      && (IsCombine(steps[c]) && !cand.shape.ItemShape? ==> CanCombine(cand))
      && (IsCompensable(steps[c]) && steps[c].kind == TASK ==> c in hs.compensators)
  }

  predicate CompensatorFits(hs: HandlerSet, steps: map<string, Node>, c: string) {
    if c !in steps then c in hs.branch
    else steps[c].kind == TASK && !IsCombine(steps[c]) && IsCompensable(steps[c])
  }

  /** Every candidate and every compensator fits the step it names, and each compensable step served has its undo. */
  ghost predicate Bindable(hs: HandlerSet, steps: map<string, Node>) {
    && (forall c :: c in hs.candidates ==> CandidateFits(hs, steps, c))
    && (forall c :: c in hs.compensators ==> CompensatorFits(hs, steps, c))
  }

  function CandidateBinding(hs: HandlerSet, steps: map<string, Node>, c: string): Binding
    requires c in hs.candidates && c in steps
  {
    var cand, node := hs.candidates[c], steps[c];
    Binding(ActivityOf(hs.workflow, node.name), node.name, QueueOf(node, hs.workflow),
            if cand.shape.ItemShape? then AsItem(cand) else if IsCombine(node) then AsCombine(cand) else Plain(cand))
  }

  function CompensatorBinding(hs: HandlerSet, steps: map<string, Node>, c: string): Binding
    requires c in hs.compensators && c in steps
  {
    Binding(ActivityOf(hs.workflow, steps[c].name) + UNDO, steps[c].name, QueueOf(steps[c], hs.workflow),
            Undo(hs.compensators[c]))
  }

  /** The names, of the first n keys, that a step of the graph has. */
  function Matched(keys: seq<string>, n: nat, steps: map<string, Node>): seq<string>
    requires n <= |keys|
  {
    if n == 0 then []
    else Matched(keys, n - 1, steps) + (if keys[n - 1] in steps then [keys[n - 1]] else [])
  }

  /** A binding for each of these candidates, in this order. */
  ghost predicate BindsCandidates(bindings: seq<Binding>, names: seq<string>, hs: HandlerSet,
                                  steps: map<string, Node>) {
    && |bindings| == |names|
    && forall i :: 0 <= i < |names| ==>
         names[i] in hs.candidates && names[i] in steps && bindings[i] == CandidateBinding(hs, steps, names[i])
  }

  ghost predicate BindsCompensators(bindings: seq<Binding>, names: seq<string>, hs: HandlerSet,
                                    steps: map<string, Node>) {
    && |bindings| == |names|
    && forall i :: 0 <= i < |names| ==>
         names[i] in hs.compensators && names[i] in steps && bindings[i] == CompensatorBinding(hs, steps, names[i])
  }

  /** A listing of a set, each element once. */
  ghost predicate Enumerates(keys: seq<string>, all: set<string>) {
    (forall k :: k in keys <==> k in all) && NoRepeats(keys)
  }

  /**
   * One binding for each candidate and each compensator that names a step of the graph, in this order, and no others.
   */
  ghost predicate BindsAs(bindings: seq<Binding>, forward: seq<string>, undo: seq<string>, hs: HandlerSet,
                          steps: map<string, Node>) {
    && Enumerates(forward, hs.candidates.Keys * steps.Keys) && Enumerates(undo, hs.compensators.Keys * steps.Keys)
    && |forward| <= |bindings|
    && BindsCandidates(bindings[..|forward|], forward, hs, steps)
    && BindsCompensators(bindings[|forward|..], undo, hs, steps)
  }

  ghost predicate BindsExactly(bindings: seq<Binding>, hs: HandlerSet, steps: map<string, Node>) {
    exists forward, undo :: BindsAs(bindings, forward, undo, hs, steps)
  }

  /** Which binding stands where. */
  lemma BoundAt(bindings: seq<Binding>, forward: seq<string>, undo: seq<string>, hs: HandlerSet,
                steps: map<string, Node>, i: nat)
    requires BindsAs(bindings, forward, undo, hs, steps) && i < |bindings|
    ensures |bindings| == |forward| + |undo|
    ensures if i < |forward|
            then forward[i] in hs.candidates && forward[i] in steps &&
                 bindings[i] == CandidateBinding(hs, steps, forward[i])
            else var c := undo[i - |forward|];
                 c in hs.compensators && c in steps && bindings[i] == CompensatorBinding(hs, steps, c)
  {
    hide CandidateBinding, CompensatorBinding;
    if i < |forward| {
      assert bindings[..|forward|][i] == bindings[i];
    } else {
      assert bindings[|forward|..][i - |forward|] == bindings[i];
    }
  }

  lemma WhereBound(bindings: seq<Binding>, forward: seq<string>, undo: seq<string>, hs: HandlerSet,
                   steps: map<string, Node>, c: string) returns (i: nat)
    requires BindsAs(bindings, forward, undo, hs, steps) && c in hs.candidates && c in steps
    ensures i < |forward| <= |bindings| && bindings[i] == CandidateBinding(hs, steps, c)
  {
    hide CandidateBinding, BindsCandidates, BindsCompensators;
    assert c in forward;
    i :| 0 <= i < |forward| && forward[i] == c;
    BoundAt(bindings, forward, undo, hs, steps, i);
  }

  lemma WhereUndone(bindings: seq<Binding>, forward: seq<string>, undo: seq<string>, hs: HandlerSet,
                    steps: map<string, Node>, c: string) returns (i: nat)
    requires BindsAs(bindings, forward, undo, hs, steps) && c in hs.compensators && c in steps
    ensures |forward| <= i < |bindings| && bindings[i] == CompensatorBinding(hs, steps, c)
  {
    hide CompensatorBinding, BindsCandidates;
    assert c in undo;
    var x :| 0 <= x < |undo| && undo[x] == c;
    i := |forward| + x;
    BoundAt(bindings, forward, undo, hs, steps, i);
  }

  lemma {:induction false} FirstNamedFolds(nodes: seq<Node>, n: nat, fold: string -> string, canon: string)
    requires n <= |nodes|
    ensures var first := FirstNamed(nodes, n, fold, canon); first.Some? ==> fold(first.value.name) == canon
  {
    if n > 0 { FirstNamedFolds(nodes, n - 1, fold, canon); }
  }

  lemma ActivitiesApart(workflow: string, a: string, b: string)
    ensures ActivityOf(workflow, a) == ActivityOf(workflow, b) ==> a == b
    ensures ActivityOf(workflow, a) + UNDO == ActivityOf(workflow, b) + UNDO ==> a == b
  {
    var left, right := ActivityOf(workflow, a), ActivityOf(workflow, b);
    assert left[|workflow| + 1..] == a && right[|workflow| + 1..] == b;
    assert (left + UNDO)[..|left|] == left && (right + UNDO)[..|right|] == right;
    assert |left + UNDO| == |left| + |UNDO| && |right + UNDO| == |right| + |UNDO|;
  }

  /** Steps read under different names have different activities, and different undos. */
  lemma StepsApart(steps: map<string, Node>, nodes: seq<Node>, fold: string -> string, workflow: string, c: string,
                   d: string)
    requires Reads(steps, nodes, |nodes|, fold) && c in steps && d in steps && c != d
    ensures ActivityOf(workflow, steps[c].name) != ActivityOf(workflow, steps[d].name)
    ensures ActivityOf(workflow, steps[c].name) + UNDO != ActivityOf(workflow, steps[d].name) + UNDO
  {
    ActivitiesApart(workflow, steps[c].name, steps[d].name);
    FirstNamedFolds(nodes, |nodes|, fold, c);
    FirstNamedFolds(nodes, |nodes|, fold, d);
  }

  /** Of two bindings of one activity the first is a candidate's and the second an undo. */
  lemma BoundApart(bindings: seq<Binding>, forward: seq<string>, undo: seq<string>, hs: HandlerSet,
                   steps: map<string, Node>, nodes: seq<Node>, fold: string -> string, x: nat, i: nat)
    requires Reads(steps, nodes, |nodes|, fold) && BindsAs(bindings, forward, undo, hs, steps)
    requires x < i < |bindings| && bindings[x].activity == bindings[i].activity
    ensures x < |forward| <= i
  {
    hide BindsCandidates, BindsCompensators, ActivityOf, Reads;
    BoundAt(bindings, forward, undo, hs, steps, x);
    BoundAt(bindings, forward, undo, hs, steps, i);
    if i < |forward| {
      StepsApart(steps, nodes, fold, hs.workflow, forward[x], forward[i]);
    } else if |forward| <= x {
      StepsApart(steps, nodes, fold, hs.workflow, undo[x - |forward|], undo[i - |forward|]);
    }
  }

  lemma OneMore(keys: seq<string>, k: string)
    requires NoRepeats(keys) && forall i :: 0 <= i < |keys| ==> keys[i] != k
    ensures NoRepeats(keys + [k])
  {}

  lemma {:induction false} MatchedIs(keys: seq<string>, n: nat, steps: map<string, Node>)
    requires n <= |keys| && NoRepeats(keys)
    ensures forall k :: k in Matched(keys, n, steps) <==> k in keys[..n] && k in steps
    ensures NoRepeats(Matched(keys, n, steps))
  {
    if n > 0 {
      MatchedIs(keys, n - 1, steps);
      assert keys[..n] == keys[..n - 1] + [keys[n - 1]];
      assert keys[n - 1] !in keys[..n - 1];
      var before := Matched(keys, n - 1, steps);
      forall x | 0 <= x < |before| ensures before[x] != keys[n - 1] { assert before[x] in before; }
      OneMore(before, keys[n - 1]);
    }
  }

  method Enumerate(all: set<string>) returns (keys: seq<string>)
    ensures Enumerates(keys, all)
  {
    keys := [];
    var rest := all;
    while rest != {}
      invariant rest <= all && Enumerates(keys, all - rest)
      decreases rest
    {
      var k :| k in rest;
      keys, rest := keys + [k], rest - {k};
    }
    assert all - {} == all;
  }

  predicate ForwardFits(hs: HandlerSet, steps: map<string, Node>, c: string)
    requires c in hs.candidates
  {
    var cand := hs.candidates[c];
    if c !in steps then c in hs.branch
    else steps[c].kind == KindOf(cand) && (IsCombine(steps[c]) && !cand.shape.ItemShape? ==> CanCombine(cand))
  }

  method BindCandidates(keys: seq<string>, hs: HandlerSet, steps: map<string, Node>)
    returns (bindings: seq<Binding>, error: Option<Error>)
    requires Enumerates(keys, hs.candidates.Keys)
    ensures error.None? <==> forall c :: c in hs.candidates ==> ForwardFits(hs, steps, c)
    ensures error.None? ==> BindsCandidates(bindings, Matched(keys, |keys|, steps), hs, steps)
    ensures error.Some? ==> !error.value.Duplicate?
  {
    hide IsCombine, CanCombine, KindOf;
    bindings := [];
    for i := 0 to |keys|
      invariant forall x :: 0 <= x < i ==> keys[x] in hs.candidates && ForwardFits(hs, steps, keys[x])
      invariant BindsCandidates(bindings, Matched(keys, i, steps), hs, steps)
    {
      var c := keys[i];
      assert c in hs.candidates;
      var cand := hs.candidates[c];
      if c !in steps {
        if c !in hs.branch { return [], Some(NoStep(cand.name)); }
      } else {
        if steps[c].kind != KindOf(cand) { return [], Some(WrongKind(cand.name)); }
        if !cand.shape.ItemShape? && IsCombine(steps[c]) && !CanCombine(cand) {
          return [], Some(CannotCombine(cand.name));
        }
        bindings := bindings + [CandidateBinding(hs, steps, c)];
      }
    }
    return bindings, None;
  }

  method BindCompensators(keys: seq<string>, hs: HandlerSet, steps: map<string, Node>)
    returns (bindings: seq<Binding>, error: Option<Error>)
    requires Enumerates(keys, hs.compensators.Keys)
    ensures error.None? <==> forall c :: c in hs.compensators ==> CompensatorFits(hs, steps, c)
    ensures error.None? ==> BindsCompensators(bindings, Matched(keys, |keys|, steps), hs, steps)
    ensures error.Some? ==> !error.value.Duplicate?
  {
    hide IsCombine, IsCompensable;
    bindings := [];
    for i := 0 to |keys|
      invariant forall x :: 0 <= x < i ==> CompensatorFits(hs, steps, keys[x])
      invariant BindsCompensators(bindings, Matched(keys, i, steps), hs, steps)
    {
      var c := keys[i];
      assert c in hs.compensators;
      var comp := hs.compensators[c];
      if c !in steps {
        if c !in hs.branch { return [], Some(NoStep(comp.name)); }
      } else {
        if steps[c].kind != TASK || IsCombine(steps[c]) || !IsCompensable(steps[c]) {
          return [], Some(NotCompensable(comp.name));
        }
        bindings := bindings + [CompensatorBinding(hs, steps, c)];
      }
    }
    return bindings, None;
  }

  method CheckPaired(keys: seq<string>, hs: HandlerSet, steps: map<string, Node>) returns (error: Option<Error>)
    requires Enumerates(keys, hs.candidates.Keys)
    ensures error.None? <==>
            forall c :: c in hs.candidates && c in steps && IsCompensable(steps[c]) && steps[c].kind == TASK ==>
              c in hs.compensators
    ensures error.Some? ==> !error.value.Duplicate?
  {
    hide IsCompensable;
    for i := 0 to |keys|
      invariant forall x :: 0 <= x < i ==>
                  keys[x] in steps && IsCompensable(steps[keys[x]]) && steps[keys[x]].kind == TASK ==>
                    keys[x] in hs.compensators
    {
      var c := keys[i];
      assert c in hs.candidates;
      if c in steps && IsCompensable(steps[c]) && steps[c].kind == TASK && c !in hs.compensators {
        return Some(NeedsCompensator(steps[c].name));
      }
    }
    return None;
  }

  /** Binds a set to the steps of a graph, or says what does not fit. */
  method BindHandlerSet(nodes: seq<Node>, hs: HandlerSet, fold: string -> string)
    returns (r: Result<seq<Binding>, Error>, steps: map<string, Node>)
    ensures Reads(steps, nodes, |nodes|, fold)
    ensures r.Ok? <==> Bindable(hs, steps)
    ensures r.Ok? ==> BindsExactly(r.value, hs, steps)
    ensures r.Err? ==> !r.error.Duplicate?
  {
    hide IsCombine, IsCompensable, CanCombine, KindOf, Reads, BindsCandidates, BindsCompensators;
    steps := ReadSteps(nodes, fold);
    var keys := Enumerate(hs.candidates.Keys);
    var forward, bad := BindCandidates(keys, hs, steps);
    if bad.Some? { return Err(bad.value), steps; }
    var undoKeys := Enumerate(hs.compensators.Keys);
    var undo, badUndo := BindCompensators(undoKeys, hs, steps);
    if badUndo.Some? { return Err(badUndo.value), steps; }
    var unpaired := CheckPaired(keys, hs, steps);
    if unpaired.Some? { return Err(unpaired.value), steps; }
    r := Ok(forward + undo);
    AllMatched(keys, hs.candidates.Keys, steps);
    AllMatched(undoKeys, hs.compensators.Keys, steps);
    BoundExactly(forward, undo, Matched(keys, |keys|, steps), Matched(undoKeys, |undoKeys|, steps), hs, steps);
  }

  lemma AllMatched(keys: seq<string>, all: set<string>, steps: map<string, Node>)
    requires Enumerates(keys, all)
    ensures Enumerates(Matched(keys, |keys|, steps), all * steps.Keys)
  {
    MatchedIs(keys, |keys|, steps);
    assert keys[..|keys|] == keys;
  }

  lemma BoundExactly(forward: seq<Binding>, undo: seq<Binding>, names: seq<string>, undoNames: seq<string>,
                     hs: HandlerSet,
                     steps: map<string, Node>)
    requires Enumerates(names, hs.candidates.Keys * steps.Keys) &&
             Enumerates(undoNames, hs.compensators.Keys * steps.Keys)
    requires BindsCandidates(forward, names, hs, steps) && BindsCompensators(undo, undoNames, hs, steps)
    ensures BindsExactly(forward + undo, hs, steps)
  {
    var all := forward + undo;
    assert |forward| == |names|;
    assert all[..|names|] == forward && all[|names|..] == undo;
    assert BindsAs(all, names, undoNames, hs, steps);
  }

  /**
   * Undoing is paired with doing, both ways: a binding for a compensable step comes with one for its undo on the
   * same queue, and an undo is bound only for a compensable step.
   */
  lemma UndoIsPaired(bindings: seq<Binding>, forward: seq<string>, undo: seq<string>, hs: HandlerSet,
                     steps: map<string, Node>,
                     c: string)
    requires Bindable(hs, steps) && BindsAs(bindings, forward, undo, hs, steps) && c in steps
    ensures c in hs.candidates ==> CandidateBinding(hs, steps, c) in bindings
    ensures c in hs.compensators <==> exists b ::
            b in bindings && b.handler.Undo? && b.step == steps[c].name &&
            UndoOf(hs, steps, c, b)
    ensures c in hs.candidates && IsCompensable(steps[c]) && steps[c].kind == TASK ==>
              c in hs.compensators && CompensatorBinding(hs, steps, c) in bindings &&
              CompensatorBinding(hs, steps, c).queue == CandidateBinding(hs, steps, c).queue
    ensures c in hs.compensators ==> IsCompensable(steps[c]) && steps[c].kind == TASK && !IsCombine(steps[c])
  {
    hide IsCombine, IsCompensable;
    if c in hs.candidates { var i := WhereBound(bindings, forward, undo, hs, steps, c); }
    if c in hs.compensators {
      var i := WhereUndone(bindings, forward, undo, hs, steps, c);
      assert CompensatorBinding(hs, steps, c) in bindings;
    }
  }

  ghost predicate UndoOf(hs: HandlerSet, steps: map<string, Node>, c: string, b: Binding) {
    c in hs.compensators && c in steps && b == CompensatorBinding(hs, steps, c)
  }

  /** Every binding is that of a candidate or a compensator; one under an undo's activity is a compensable step's. */
  lemma NothingElseIsBound(bindings: seq<Binding>, forward: seq<string>, undo: seq<string>, hs: HandlerSet,
                           steps: map<string, Node>, b: Binding)
    requires BindsAs(bindings, forward, undo, hs, steps) && b in bindings
    ensures if b.handler.Undo? then exists c :: UndoOf(hs, steps, c, b)
            else exists c :: c in hs.candidates && c in steps && b == CandidateBinding(hs, steps, c)
  {
    var i :| 0 <= i < |bindings| && bindings[i] == b;
    BoundAt(bindings, forward, undo, hs, steps, i);
    if i >= |forward| { assert UndoOf(hs, steps, undo[i - |forward|], b); }
  }

  // ---- a step of a created branch ----

  /** What a task is dispatched as: its kind, and whether it is a combine or an undo. */
  datatype Role = Role(kind: Kind, combine: bool, undo: bool)

  /** The handler of a set for a step in no graph, matched by name when it is dispatched. */
  function BindCreated(hs: HandlerSet, canon: string, role: Role): Found {
    if role.undo then Ok(if canon in hs.compensators then Some(Undo(hs.compensators[canon])) else None)
    else if canon !in hs.candidates then Ok(None)
    else
      var cand := hs.candidates[canon];
      if cand.shape.ItemShape? then Err(NeedsHandle(cand.name))
      else if role.combine then if CanCombine(cand) then Ok(Some(AsCombine(cand))) else Err(CannotCombine(cand.name))
      else if KindOf(cand) != role.kind then Err(WrongKind(cand.name))
      else Ok(Some(Plain(cand)))
  }

  /** A handler serves a role: an undo only undoes, a combine is given by a merge, a gate by a gate. */
  predicate Serves(h: Handler, role: Role) {
    match h
    case Undo(_) => role.undo
    case AsCombine(cand) => !role.undo && role.combine && CanCombine(cand)
    case Plain(cand) => !role.undo && !role.combine && KindOf(cand) == role.kind
    case _ => false
  }

  /** Two roles a handler cannot tell apart. */
  predicate SameUse(a: Role, b: Role) {
    && a.undo == b.undo
    && (!a.undo ==> a.combine == b.combine && (!a.combine ==> a.kind == b.kind))
  }

  /** A handler that serves one role serves another exactly when it cannot tell them apart. */
  lemma ServesIff(h: Handler, first: Role, later: Role)
    requires Serves(h, first)
    ensures Serves(h, later) <==> SameUse(first, later)
  {}

  lemma CreatedServes(hs: HandlerSet, canon: string, role: Role)
    ensures var r := BindCreated(hs, canon, role); r.Ok? && r.value.Some? ==> Serves(r.value.value, role)
  {}
}
