/** A worker's registries: what it claims, and the handler of each task it is dispatched. */
module Worker {
  import opened Topology
  import opened Handlers
  import Spawns
  import Combine
  import Layout
  import WellFormed

  // Handlers are claimed step by step, and checked against the registered graphs when the worker starts.

  datatype ClaimKind = TaskClaim | GateClaim | CombineClaim | UndoClaim

  datatype Claim = Claim(workflow: string, step: string, kind: ClaimKind)

  /** A node of a registered graph, or one created at run time, whose id starts with "~". */
  datatype NodeRef = InGraph(id: Id) | CreatedNode

  /** A graph as the server returns it. */
  datatype Registered = Registered(version: int, listed: seq<Spawns.Listed>)

  /** What a leased task says of the step to run. */
  datatype Task<V> = Task(taskId: string, leaseOwner: string, workflow: string, version: int, node: NodeRef,
                          stepName: string,
                          kind: Kind, activity: string, isItem: bool, rawIsObject: bool,
                          activation: Combine.Activation<V>)

  // ---- claims against a graph ----

  function NodesOf(listed: seq<Spawns.Listed>): (nodes: seq<Node>)
    ensures |nodes| == |listed|
  {
    seq(|listed|, i requires 0 <= i < |listed| => listed[i].node)
  }

  predicate Runs(n: Node) { n.info.Work? && n.info.activity != "" && (n.kind == TASK || n.kind == PREDICATE) }

  /** The last listed, of the first n nodes, that runs an activity. */
  function ByActivity(nodes: seq<Node>, n: nat): map<string, Node>
    requires n <= |nodes|
  {
    if n == 0 then map[]
    else if Runs(nodes[n - 1]) then ByActivity(nodes, n - 1)[nodes[n - 1].info.activity := nodes[n - 1]]
    else ByActivity(nodes, n - 1)
  }

  function ActivityFor(c: Claim): string { ActivityOf(c.workflow, c.step) }

  /** The activity a claim's handler is dispatched under. */
  function KeyOf(c: Claim): string { if c.kind == UndoClaim then ActivityFor(c) + UNDO else ActivityFor(c) }

  predicate KindFits(kind: ClaimKind, n: Node) {
    match kind
    case UndoClaim => n.kind == TASK && !Spawns.IsCombine(n) && IsCompensable(n)
    case CombineClaim => Spawns.IsCombine(n)
    case TaskClaim => !Spawns.IsCombine(n) && n.kind == TASK
    case GateClaim => !Spawns.IsCombine(n) && n.kind == PREDICATE
  }

  /** A claim names a step of its kind, or one that only created branches run. */
  predicate ClaimFits(c: Claim, nodes: map<string, Node>, branch: set<string>, fold: string -> string) {
    if ActivityFor(c) in nodes then KindFits(c.kind, nodes[ActivityFor(c)]) else fold(c.step) in branch
  }

  predicate NeedsUndo(c: Claim, nodes: map<string, Node>) {
    c.kind == TaskClaim && ActivityFor(c) in nodes && IsCompensable(nodes[ActivityFor(c)])
  }

  ghost predicate HasUndo(claims: seq<Claim>, step: string) {
    exists i :: 0 <= i < |claims| && claims[i].kind == UndoClaim && claims[i].step == step
  }

  /** Every claim fits, and every compensable step claimed has its undo claimed too. */
  ghost predicate ClaimsFit(claims: seq<Claim>, nodes: map<string, Node>, branch: set<string>, fold: string -> string) {
    && (forall i :: 0 <= i < |claims| ==> ClaimFits(claims[i], nodes, branch, fold))
    && (forall i :: 0 <= i < |claims| && NeedsUndo(claims[i], nodes) ==> HasUndo(claims, claims[i].step))
  }

  /** The queues of the steps claimed by the first n claims. */
  function QueuesClaimed(queues: set<string>, claims: seq<Claim>, n: nat, nodes: map<string, Node>,
                         workflow: string): set<string>
    requires n <= |claims|
  {
    if n == 0 then queues
    else
      var before, a := QueuesClaimed(queues, claims, n - 1, nodes, workflow), ActivityFor(claims[n - 1]);
      if a in nodes then before + {QueueOf(nodes[a], workflow)} else before
  }

  /** The kinds that the first n claims were made as, of steps in no graph. */
  function KindsClaimed(kinds: map<string, ClaimKind>, claims: seq<Claim>, n: nat,
                        nodes: map<string, Node>): map<string, ClaimKind>
    requires n <= |claims|
  {
    if n == 0 then kinds
    else
      var before, c := KindsClaimed(kinds, claims, n - 1, nodes), claims[n - 1];
      if ActivityFor(c) in nodes then before
      else before[KeyOf(c) := c.kind]
  }

  /** Doing is paired with undoing: they are claimed together, of the same step, and so on the same queue. */
  lemma ClaimsArePaired(claims: seq<Claim>, workflow: string, nodes: map<string, Node>, branch: set<string>,
                        fold: string -> string,
                        i: nat)
    returns (x: nat)
    requires ClaimsFit(claims, nodes, branch, fold) && i < |claims| && forall y :: 0 <= y < |claims| ==>
             claims[y].workflow == workflow
    requires NeedsUndo(claims[i], nodes)
    ensures x < |claims| && claims[x].kind == UndoClaim && ActivityFor(claims[x]) == ActivityFor(claims[i])
    ensures var n := nodes[ActivityFor(claims[x])]; n.kind == TASK && !Spawns.IsCombine(n) && IsCompensable(n)
    ensures QueueOf(nodes[ActivityFor(claims[i])], workflow) in QueuesClaimed({}, claims, |claims|, nodes, workflow)
  {
    hide QueuesClaimed, ActivityOf;
    x :| 0 <= x < |claims| && claims[x].kind == UndoClaim && claims[x].step == claims[i].step;
    assert ClaimFits(claims[x], nodes, branch, fold);
    QueueIsClaimed({}, claims, |claims|, nodes, workflow, i);
  }

  /** A claim that fits a step of a graph is one for exactly the role of that step, or for undoing it. */
  lemma ClaimServesItsStep(claims: seq<Claim>, nodes: map<string, Node>, branch: set<string>, fold: string -> string,
                           i: nat, role: Role)
    requires ClaimsFit(claims, nodes, branch, fold) && i < |claims| && ActivityFor(claims[i]) in nodes
    ensures ClaimServes(claims[i].kind, role) <==>
            if claims[i].kind == UndoClaim then role.undo else SameUse(NodeRole(nodes[ActivityFor(claims[i])]), role)
  {
    hide ActivityOf;
    assert ClaimFits(claims[i], nodes, branch, fold);
  }

  lemma {:induction false} QueueIsClaimed(before: set<string>, claims: seq<Claim>, n: nat, nodes: map<string, Node>,
                                          workflow: string, i: nat)
    requires i < n <= |claims| && ActivityFor(claims[i]) in nodes
    ensures QueueOf(nodes[ActivityFor(claims[i])], workflow) in QueuesClaimed(before, claims, n, nodes, workflow)
  {
    if i < n - 1 { QueueIsClaimed(before, claims, n - 1, nodes, workflow, i); }
  }

  // ---- starting as a whole ----

  function Workflows(claims: seq<Claim>): set<string> { set i | 0 <= i < |claims| :: claims[i].workflow }

  /** The claims of a workflow, among the first n. */
  function ClaimsOf(claims: seq<Claim>, n: nat, workflow: string): seq<Claim>
    requires n <= |claims|
  {
    if n == 0 then []
    else ClaimsOf(claims, n - 1, workflow) + (if claims[n - 1].workflow == workflow then [claims[n - 1]] else [])
  }

  ghost predicate WorkflowFits(claims: seq<Claim>, workflow: string, branchSteps: map<string, set<string>>,
                               registered: map<string, Registered>, fold: string -> string) {
    workflow in registered &&
    var listed := registered[workflow].listed;
    ClaimsFit(ClaimsOf(claims, |claims|, workflow), ByActivity(NodesOf(listed), |listed|),
              if workflow in branchSteps then branchSteps[workflow] else {}, fold)
  }

  function WithBranch(hs: HandlerSet, branchSteps: map<string, set<string>>): HandlerSet {
    hs.(branch := if hs.workflow in branchSteps then branchSteps[hs.workflow] else {})
  }

  ghost predicate SetFits(hs: HandlerSet, branchSteps: map<string, set<string>>, registered: map<string, Registered>,
                          fold: string -> string) {
    hs.workflow in registered &&
    var nodes := NodesOf(registered[hs.workflow].listed);
    exists steps :: Reads(steps, nodes, |nodes|, fold) && Bindable(WithBranch(hs, branchSteps), steps)
  }

  lemma SetIsRegistered(hs: HandlerSet, branchSteps: map<string, set<string>>, registered: map<string, Registered>,
                        fold: string -> string)
    requires SetFits(hs, branchSteps, registered, fold)
    ensures hs.workflow in registered
  {}

  /** A graph is read in one way only. */
  lemma ReadOneWay(steps: map<string, Node>, other: map<string, Node>, nodes: seq<Node>, fold: string -> string)
    requires Reads(steps, nodes, |nodes|, fold) && Reads(other, nodes, |nodes|, fold)
    ensures steps == other
  {
    forall c: string ensures (c in other <==> c in steps) && (c in steps ==> other[c] == steps[c]) {
      var first := FirstNamed(nodes, |nodes|, fold, c);
    }
  }

  lemma SetFitsIff(hs: HandlerSet, branchSteps: map<string, set<string>>, registered: map<string, Registered>,
                   fold: string -> string, steps: map<string, Node>)
    requires hs.workflow in registered
    requires var nodes := NodesOf(registered[hs.workflow].listed); Reads(steps, nodes, |nodes|, fold)
    ensures SetFits(hs, branchSteps, registered, fold) <==> Bindable(WithBranch(hs, branchSteps), steps)
  {
    hide Bindable, Reads;
    var nodes := NodesOf(registered[hs.workflow].listed);
    forall other | Reads(other, nodes, |nodes|, fold) ensures other == steps { ReadOneWay(steps, other, nodes, fold); }
  }

  /** The graphs held once a workflow's is. */
  function Held(graphs: map<(string, int), seq<Spawns.Listed>>, registered: map<string, Registered>, workflow: string):
    map<(string, int), seq<Spawns.Listed>>
    requires workflow in registered
  {
    graphs[(workflow, registered[workflow].version) := registered[workflow].listed]
  }

  ghost predicate Holds(graphs: map<(string, int), seq<Spawns.Listed>>, registered: map<string, Registered>,
                        workflow: string) {
    && workflow in registered && (workflow, registered[workflow].version) in graphs
    && graphs[(workflow, registered[workflow].version)] == registered[workflow].listed
  }

  /** The queue of every step of a workflow that is claimed. */
  ghost predicate QueuesKnown(queues: set<string>, claims: seq<Claim>, registered: map<string, Registered>,
                              workflow: string) {
    workflow in registered &&
    var listed, claimed := registered[workflow].listed, ClaimsOf(claims, |claims|, workflow);
    var nodes := ByActivity(NodesOf(listed), |listed|);
    forall i :: 0 <= i < |claimed| && ActivityFor(claimed[i]) in nodes ==>
      QueueOf(nodes[ActivityFor(claimed[i])], workflow) in queues
  }

  lemma NowKnown(before: set<string>, claims: seq<Claim>, registered: map<string, Registered>, workflow: string)
    requires workflow in registered
    ensures var listed, claimed := registered[workflow].listed, ClaimsOf(claims, |claims|, workflow);
            var queues := QueuesClaimed(before, claimed, |claimed|, ByActivity(NodesOf(listed), |listed|), workflow);
            before <= queues && QueuesKnown(queues, claims, registered, workflow)
  {
    hide QueuesClaimed, ByActivity, ClaimsOf, ActivityOf;
    var listed, claimed := registered[workflow].listed, ClaimsOf(claims, |claims|, workflow);
    var nodes := ByActivity(NodesOf(listed), |listed|);
    QueuesGrow(before, claimed, |claimed|, nodes, workflow);
    forall i | 0 <= i < |claimed| && ActivityFor(claimed[i]) in nodes
      ensures QueueOf(nodes[ActivityFor(claimed[i])], workflow) in
              QueuesClaimed(before, claimed, |claimed|, nodes, workflow)
    {
      QueueIsClaimed(before, claimed, |claimed|, nodes, workflow, i);
    }
  }

  lemma {:induction false} QueuesGrow(before: set<string>, claims: seq<Claim>, n: nat, nodes: map<string, Node>,
                                      workflow: string)
    requires n <= |claims|
    ensures before <= QueuesClaimed(before, claims, n, nodes, workflow)
  {
    if n > 0 { QueuesGrow(before, claims, n - 1, nodes, workflow); }
  }

  lemma StillKnown(before: set<string>, after: set<string>, claims: seq<Claim>, registered: map<string, Registered>,
                   workflow: string)
    requires before <= after && QueuesKnown(before, claims, registered, workflow)
    ensures QueuesKnown(after, claims, registered, workflow)
  {}

  // ---- what a handler was bound for ----

  /** A claim of some kind, or, by a handler set, a step of a graph or its undo. */
  datatype Origin = Claimed(kind: ClaimKind) | ForStep(node: Node) | ForUndo(node: Node)

  /** The role a step of a graph is dispatched in. */
  function NodeRole(n: Node): Role { Role(n.kind, Spawns.IsCombine(n), false) }

  /** What a handler's origin says it is for. */
  function BoundAs(o: Origin): Role {
    match o
    case Claimed(TaskClaim) => Role(TASK, false, false)
    case Claimed(GateClaim) => Role(PREDICATE, false, false)
    case Claimed(CombineClaim) => Role(TASK, true, false)
    case Claimed(UndoClaim) => Role(TASK, false, true)
    case ForStep(n) => NodeRole(n)
    case ForUndo(_) => Role(TASK, false, true)
  }

  /** A claim brings its own handler; a set's is made for the node it is bound to. */
  predicate Stems(h: Handler, o: Origin) {
    match o
    case Claimed(_) => h.Own?
    case ForStep(n) =>
      if Spawns.IsCombine(n) then h.AsCombine? && CanCombine(h.cand) else h.Plain? && KindOf(h.cand) == n.kind
    case ForUndo(n) => h.Undo? && n.kind == TASK && !Spawns.IsCombine(n) && IsCompensable(n)
  }

  ghost predicate AllStem(handlers: map<string, Handler>, origins: map<string, Origin>) {
    origins.Keys == handlers.Keys && forall a :: a in handlers ==> Stems(handlers[a], origins[a])
  }

  /** Every claim is for its handler, or for an item handler. */
  ghost predicate AllClaimed(claims: seq<Claim>, origins: map<string, Origin>, items: map<string, Handler>) {
    forall i :: 0 <= i < |claims| ==>
      || (KeyOf(claims[i]) in origins && origins[KeyOf(claims[i])] == Claimed(claims[i].kind))
      || (claims[i].kind == TaskClaim && KeyOf(claims[i]) in items)
  }

  ghost predicate AllServe(lazy: map<string, Handler>, roles: map<string, Role>) {
    roles.Keys == lazy.Keys && forall a :: a in lazy ==> Serves(lazy[a], roles[a])
  }

  ghost predicate KindsAreClaimed(kinds: map<string, ClaimKind>, claims: seq<Claim>) {
    forall a :: a in kinds ==> exists i :: 0 <= i < |claims| && KeyOf(claims[i]) == a && claims[i].kind == kinds[a]
  }

  lemma OneMoreHandler(handlers: map<string, Handler>, origins: map<string, Origin>, claims: seq<Claim>,
                       items: map<string, Handler>, a: string, h: Handler, o: Origin)
    requires AllStem(handlers, origins) && AllClaimed(claims, origins, items) && a !in handlers && Stems(h, o)
    ensures AllStem(handlers[a := h], origins[a := o]) && AllClaimed(claims, origins[a := o], items)
  {
    hide Stems, KeyOf;
  }

  lemma OneMoreItem(claims: seq<Claim>, origins: map<string, Origin>, items: map<string, Handler>, a: string,
                    h: Handler)
    requires AllClaimed(claims, origins, items)
    ensures AllClaimed(claims, origins, items[a := h])
  {
    hide KeyOf;
  }

  lemma OneMoreClaim(claims: seq<Claim>, origins: map<string, Origin>, items: map<string, Handler>, c: Claim)
    requires AllClaimed(claims, origins, items)
    requires (KeyOf(c) in origins && origins[KeyOf(c)] == Claimed(c.kind)) || (c.kind == TaskClaim && KeyOf(c) in items)
    ensures AllClaimed(claims + [c], origins, items)
  {
    hide KeyOf;
  }

  lemma MoreClaims(kinds: map<string, ClaimKind>, claims: seq<Claim>, c: Claim)
    requires KindsAreClaimed(kinds, claims)
    ensures KindsAreClaimed(kinds, claims + [c])
  {
    hide KeyOf;
    var more := claims + [c];
    forall a | a in kinds ensures exists i :: 0 <= i < |more| && KeyOf(more[i]) == a && more[i].kind == kinds[a] {
      var i :| 0 <= i < |claims| && KeyOf(claims[i]) == a && claims[i].kind == kinds[a];
      assert more[i] == claims[i];
    }
  }

  lemma {:induction false} KindsStayClaimed(kinds: map<string, ClaimKind>, claimed: seq<Claim>, n: nat,
                                            nodes: map<string, Node>, claims: seq<Claim>)
    requires n <= |claimed| && KindsAreClaimed(kinds, claims)
    requires forall i :: 0 <= i < |claimed| ==> claimed[i] in claims
    ensures KindsAreClaimed(KindsClaimed(kinds, claimed, n, nodes), claims)
  {
    hide KeyOf, ActivityOf;
    if n > 0 { KindsStayClaimed(kinds, claimed, n - 1, nodes, claims); }
  }

  lemma {:induction false} ClaimsOfAreClaims(claims: seq<Claim>, n: nat, workflow: string)
    requires n <= |claims|
    ensures forall i :: 0 <= i < |ClaimsOf(claims, n, workflow)| ==> ClaimsOf(claims, n, workflow)[i] in claims
  {
    if n > 0 { ClaimsOfAreClaims(claims, n - 1, workflow); }
  }

  // ---- installing a set's bindings ----

  /** What bindings are installed in. */
  datatype Installation = Installation(handlers: map<string, Handler>, items: map<string, Handler>, queues: set<string>,
                                       origins: map<string, Origin>)

  /** What the bindings of these candidates and then these compensators are for. */
  function Origins(forward: seq<string>, undo: seq<string>, steps: map<string, Node>): (from: seq<Origin>)
    requires forall c :: c in forward || c in undo ==> c in steps
    ensures |from| == |forward| + |undo|
  {
    seq(|forward|, i requires 0 <= i < |forward| => ForStep(steps[forward[i]])) +
    seq(|undo|, i requires 0 <= i < |undo| => ForUndo(steps[undo[i]]))
  }

  lemma BindingsStem(bindings: seq<Binding>, forward: seq<string>, undo: seq<string>, hs: HandlerSet,
                     steps: map<string, Node>)
    requires Bindable(hs, steps) && BindsAs(bindings, forward, undo, hs, steps)
    ensures |bindings| == |forward| + |undo| && forall c :: c in forward || c in undo ==> c in steps
    ensures var from := Origins(forward, undo, steps);
            forall i :: 0 <= i < |bindings| && !bindings[i].handler.AsItem? ==> Stems(bindings[i].handler, from[i])
  {
    hide Spawns.IsCombine, CanCombine, KindOf, IsCompensable, ActivityOf, QueueOf;
    var from := Origins(forward, undo, steps);
    forall i | 0 <= i < |bindings| && !bindings[i].handler.AsItem? ensures Stems(bindings[i].handler, from[i]) {
      BoundAt(bindings, forward, undo, hs, steps, i);
      if i < |forward| {
        assert CandidateFits(hs, steps, forward[i]);
      } else {
        assert CompensatorFits(hs, steps, undo[i - |forward|]);
      }
    }
  }

  /** The first n bindings, installed one after the other; None once an activity already has a handler. */
  function Installed(at: Installation, bindings: seq<Binding>, from: seq<Origin>, n: nat): Option<Installation>
    requires n <= |bindings| == |from|
  {
    if n == 0 then Some(at)
    else
      var before, b := Installed(at, bindings, from, n - 1), bindings[n - 1];
      if before.None? || b.activity in before.value.handlers then None
      else
        var queues := before.value.queues + {b.queue};
        if b.handler.AsItem?
          then Some(before.value.(items := before.value.items[b.activity := b.handler], queues := queues))
        else Some(before.value.(handlers := before.value.handlers[b.activity := b.handler], queues := queues,
                                origins := before.value.origins[b.activity := from[n - 1]]))
  }

  /** The activity of a binding is taken, by an earlier handler or by an earlier binding that is not of an item. */
  ghost predicate Taken(at: Installation, bindings: seq<Binding>, i: nat)
    requires i < |bindings|
  {
    || bindings[i].activity in at.handlers
    || exists x :: 0 <= x < i && !bindings[x].handler.AsItem? && bindings[x].activity == bindings[i].activity
  }

  /** Bindings are refused exactly when one of them has a taken activity. */
  lemma {:induction false} RefusedIff(at: Installation, bindings: seq<Binding>, from: seq<Origin>, n: nat)
    requires n <= |bindings| == |from|
    ensures Installed(at, bindings, from, n).None? <==> exists i :: 0 <= i < n && Taken(at, bindings, i)
    ensures var after := Installed(at, bindings, from, n);
            after.Some? ==> forall a :: a in after.value.handlers <==>
              || a in at.handlers
              || exists x :: 0 <= x < n && !bindings[x].handler.AsItem? && bindings[x].activity == a
  {
    if n > 0 {
      RefusedIff(at, bindings, from, n - 1);
      var before, after, b := Installed(at, bindings, from, n - 1), Installed(at, bindings, from, n), bindings[n - 1];
      if before.Some? { assert Taken(at, bindings, n - 1) <==> b.activity in before.value.handlers; }
      if after.Some? {
        forall a ensures a in after.value.handlers <==> a in at.handlers || exists x ::
                           0 <= x < n && !bindings[x].handler.AsItem? && bindings[x].activity == a {
          if !b.handler.AsItem? && a == b.activity { assert bindings[n - 1].activity == a; }
        }
      }
    }
  }

  lemma {:induction false} StaysRefused(at: Installation, bindings: seq<Binding>, from: seq<Origin>, i: nat, n: nat)
    requires i <= n <= |bindings| == |from| && Installed(at, bindings, from, i).None?
    ensures Installed(at, bindings, from, n).None?
  {
    if i < n { StaysRefused(at, bindings, from, i, n - 1); }
  }

  /**
   * A candidate or a compensator of a set is for an activity that already has a handler, or a compensator is for one
   * that a candidate of the same set takes.
   */
  ghost predicate Overlaps(handlers: map<string, Handler>, hs: HandlerSet, steps: map<string, Node>) {
    || (exists c :: c in hs.candidates && c in steps && CandidateBinding(hs, steps, c).activity in handlers)
    || (exists c :: c in hs.compensators && c in steps && CompensatorBinding(hs, steps, c).activity in handlers)
    || (exists c, d :: c in hs.compensators && c in steps && TakenBy(hs, steps, c, d))
  }

  /** A set overlaps the handlers there are, by the steps of its registered graph. */
  ghost predicate SetOverlaps(handlers: map<string, Handler>, hs: HandlerSet, registered: map<string, Registered>,
                              fold: string -> string) {
    hs.workflow in registered &&
    var nodes := NodesOf(registered[hs.workflow].listed);
    exists steps :: Reads(steps, nodes, |nodes|, fold) && Overlaps(handlers, hs, steps)
  }

  lemma SetOverlapsIff(handlers: map<string, Handler>, hs: HandlerSet, registered: map<string, Registered>,
                       fold: string -> string, steps: map<string, Node>)
    requires hs.workflow in registered
    requires var nodes := NodesOf(registered[hs.workflow].listed); Reads(steps, nodes, |nodes|, fold)
    ensures SetOverlaps(handlers, hs, registered, fold) <==> Overlaps(handlers, hs, steps)
  {
    hide Overlaps, Reads;
    var nodes := NodesOf(registered[hs.workflow].listed);
    forall other | Reads(other, nodes, |nodes|, fold) ensures other == steps { ReadOneWay(steps, other, nodes, fold); }
  }

  ghost predicate TakenBy(hs: HandlerSet, steps: map<string, Node>, c: string, d: string)
    requires c in hs.compensators && c in steps
  {
    && d in hs.candidates && d in steps && !hs.candidates[d].shape.ItemShape?
    && CandidateBinding(hs, steps, d).activity == CompensatorBinding(hs, steps, c).activity
  }

  /** In whatever order a set is listed, its bindings are refused exactly when it overlaps. */
  lemma OverlapIff(at: Installation, bindings: seq<Binding>, forward: seq<string>, undo: seq<string>, hs: HandlerSet,
                   steps: map<string, Node>, nodes: seq<Node>, fold: string -> string)
    requires Reads(steps, nodes, |nodes|, fold) && BindsAs(bindings, forward, undo, hs, steps)
    ensures (exists i :: 0 <= i < |bindings| && Taken(at, bindings, i)) <==> Overlaps(at.handlers, hs, steps)
  {
    hide Reads, BindsAs, CandidateBinding, CompensatorBinding, TakenBy;
    if i :| 0 <= i < |bindings| && Taken(at, bindings, i) {
      TakenOverlaps(at, bindings, forward, undo, hs, steps, nodes, fold, i);
    }
    if Overlaps(at.handlers, hs, steps) { OverlapIsTaken(at, bindings, forward, undo, hs, steps); }
  }

  lemma TakenOverlaps(at: Installation, bindings: seq<Binding>, forward: seq<string>, undo: seq<string>,
                      hs: HandlerSet, steps: map<string, Node>, nodes: seq<Node>, fold: string -> string, i: nat)
    requires Reads(steps, nodes, |nodes|, fold) && BindsAs(bindings, forward, undo, hs, steps)
    requires i < |bindings| && Taken(at, bindings, i)
    ensures Overlaps(at.handlers, hs, steps)
  {
    hide Reads, BindsAs;
    BoundAt(bindings, forward, undo, hs, steps, i);
    if bindings[i].activity !in at.handlers {
      var x :| 0 <= x < i && !bindings[x].handler.AsItem? && bindings[x].activity == bindings[i].activity;
      BoundApart(bindings, forward, undo, hs, steps, nodes, fold, x, i);
      BoundAt(bindings, forward, undo, hs, steps, x);
      assert TakenBy(hs, steps, undo[i - |forward|], forward[x]);
    }
  }

  lemma OverlapIsTaken(at: Installation, bindings: seq<Binding>, forward: seq<string>, undo: seq<string>,
                       hs: HandlerSet, steps: map<string, Node>)
    requires BindsAs(bindings, forward, undo, hs, steps) && Overlaps(at.handlers, hs, steps)
    ensures exists i :: 0 <= i < |bindings| && Taken(at, bindings, i)
  {
    hide BindsAs, Taken;
    if exists c :: c in hs.candidates && c in steps && CandidateBinding(hs, steps, c).activity in at.handlers {
      var c :| c in hs.candidates && c in steps && CandidateBinding(hs, steps, c).activity in at.handlers;
      var i := WhereBound(bindings, forward, undo, hs, steps, c);
      HeldIsTaken(at, bindings, i);
    } else if exists c ::
        c in hs.compensators && c in steps && CompensatorBinding(hs, steps, c).activity in at.handlers {
      var c :| c in hs.compensators && c in steps && CompensatorBinding(hs, steps, c).activity in at.handlers;
      var i := WhereUndone(bindings, forward, undo, hs, steps, c);
      HeldIsTaken(at, bindings, i);
    } else {
      var c, d :| c in hs.compensators && c in steps && TakenBy(hs, steps, c, d);
      var x := WhereBound(bindings, forward, undo, hs, steps, d);
      var i := WhereUndone(bindings, forward, undo, hs, steps, c);
      RepeatIsTaken(at, bindings, x, i);
    }
  }

  lemma HeldIsTaken(at: Installation, bindings: seq<Binding>, i: nat)
    requires i < |bindings| && bindings[i].activity in at.handlers
    ensures Taken(at, bindings, i)
  {}

  lemma RepeatIsTaken(at: Installation, bindings: seq<Binding>, x: nat, i: nat)
    requires x < i < |bindings| && !bindings[x].handler.AsItem? && bindings[x].activity == bindings[i].activity
    ensures Taken(at, bindings, i)
  {}

  /**
   * A set's bindings to its graph are installed, all of them, or as many as come before one whose activity already has
   * a handler.
   */
  ghost predicate SetInstalls(before: Installation, hs: HandlerSet, registered: map<string, Registered>,
                              fold: string -> string, after: Installation, clash: Option<string>) {
    hs.workflow in registered &&
    var nodes := NodesOf(registered[hs.workflow].listed);
    exists bindings, forward, undo, steps, n: nat ::
      && Reads(steps, nodes, |nodes|, fold) && BindsAs(bindings, forward, undo, hs, steps)
      && InstallsUpTo(before, bindings, forward, undo, steps, n, after, clash)
  }

  ghost predicate InstallsUpTo(before: Installation, bindings: seq<Binding>, forward: seq<string>, undo: seq<string>,
                               steps: map<string, Node>, n: nat, after: Installation, clash: Option<string>) {
    && (forall c :: c in forward || c in undo ==> c in steps) && n <= |bindings| == |forward| + |undo|
    && Installed(before, bindings, Origins(forward, undo, steps), n) == Some(after)
    && if clash.None? then n == |bindings|
       else n < |bindings| && bindings[n].activity == clash.value && clash.value in after.handlers
  }

  /** The first n sets, installed one after the other. */
  ghost predicate SetsInstall(before: Installation, sets: seq<HandlerSet>, n: nat,
                              branchSteps: map<string, set<string>>, registered: map<string, Registered>,
                              fold: string -> string, after: Installation)
    requires n <= |sets|
  {
    exists states :: InTurn(states, before, sets, n, branchSteps, registered, fold) && states[n] == after
  }

  ghost predicate InTurn(states: seq<Installation>, before: Installation, sets: seq<HandlerSet>, n: nat,
                         branchSteps: map<string, set<string>>, registered: map<string, Registered>,
                         fold: string -> string)
    requires n <= |sets|
  {
    && |states| == n + 1 && states[0] == before
    && forall i :: 0 <= i < n ==>
         SetInstalls(states[i], WithBranch(sets[i], branchSteps), registered, fold, states[i + 1], None)
  }

  lemma NoSets(before: Installation, sets: seq<HandlerSet>, branchSteps: map<string, set<string>>,
               registered: map<string, Registered>, fold: string -> string)
    ensures SetsInstall(before, sets, 0, branchSteps, registered, fold, before)
  {
    assert InTurn([before], before, sets, 0, branchSteps, registered, fold);
  }

  lemma OneMoreSet(before: Installation, sets: seq<HandlerSet>, n: nat, branchSteps: map<string, set<string>>,
                   registered: map<string, Registered>, fold: string -> string, mid: Installation, after: Installation)
    requires n < |sets| && SetsInstall(before, sets, n, branchSteps, registered, fold, mid)
    requires SetInstalls(mid, WithBranch(sets[n], branchSteps), registered, fold, after, None)
    ensures SetsInstall(before, sets, n + 1, branchSteps, registered, fold, after)
  {
    hide SetInstalls, WithBranch;
    var states :| InTurn(states, before, sets, n, branchSteps, registered, fold) && states[n] == mid;
    var more := states + [after];
    forall i | 0 <= i < n + 1
      ensures SetInstalls(more[i], WithBranch(sets[i], branchSteps), registered, fold, more[i + 1], None)
    {
      if i < n { assert more[i] == states[i] && more[i + 1] == states[i + 1]; }
    }
    assert InTurn(more, before, sets, n + 1, branchSteps, registered, fold);
  }

  /** Some set fits its graph and binds an activity that already has a handler when its turn comes. */
  ghost predicate SetsClash(before: Installation, sets: seq<HandlerSet>, branchSteps: map<string, set<string>>,
                            registered: map<string, Registered>, fold: string -> string, after: Installation,
                            activity: string) {
    exists i, mid ::
      && 0 <= i < |sets| && SetsInstall(before, sets, i, branchSteps, registered, fold, mid)
      && SetFits(sets[i], branchSteps, registered, fold)
      && SetOverlaps(mid.handlers, WithBranch(sets[i], branchSteps), registered, fold)
      && SetInstalls(mid, WithBranch(sets[i], branchSteps), registered, fold, after, Some(activity))
  }

  lemma ClashesAt(before: Installation, sets: seq<HandlerSet>, i: nat, branchSteps: map<string, set<string>>,
                  registered: map<string, Registered>, fold: string -> string, mid: Installation,
                  after: Installation, activity: string)
    requires i < |sets| && SetsInstall(before, sets, i, branchSteps, registered, fold, mid)
    requires SetFits(sets[i], branchSteps, registered, fold)
    requires SetOverlaps(mid.handlers, WithBranch(sets[i], branchSteps), registered, fold)
    requires SetInstalls(mid, WithBranch(sets[i], branchSteps), registered, fold, after, Some(activity))
    ensures SetsClash(before, sets, branchSteps, registered, fold, after, activity)
  {
    hide SetsInstall, SetFits, SetOverlaps, SetInstalls, WithBranch;
  }

  // ---- what claims teach ----

  /** What a worker learns from its claims and the graphs of their workflows. */
  datatype Learnt = Learnt(queues: set<string>, createdKinds: map<string, ClaimKind>,
                           graphs: map<(string, int), seq<Spawns.Listed>>)

  function LearntFrom(at: Learnt, claims: seq<Claim>, registered: map<string, Registered>, workflows: seq<string>,
                      n: nat): Learnt
    requires n <= |workflows|
  {
    if n == 0 then at
    else
      var before, wf := LearntFrom(at, claims, registered, workflows, n - 1), workflows[n - 1];
      if wf !in registered then before
      else
        var listed, claimed := registered[wf].listed, ClaimsOf(claims, |claims|, wf);
        var nodes := ByActivity(NodesOf(listed), |listed|);
        Learnt(QueuesClaimed(before.queues, claimed, |claimed|, nodes, wf),
               KindsClaimed(before.createdKinds, claimed, |claimed|, nodes), Held(before.graphs, registered, wf))
  }

  /** The graphs held once the first n sets are matched. */
  function HeldForSets(graphs: map<(string, int), seq<Spawns.Listed>>, registered: map<string, Registered>,
                       sets: seq<HandlerSet>, n: nat): map<(string, int), seq<Spawns.Listed>>
    requires n <= |sets|
  {
    if n == 0 then graphs
    else
      var before := HeldForSets(graphs, registered, sets, n - 1);
      if sets[n - 1].workflow in registered then Held(before, registered, sets[n - 1].workflow) else before
  }

  lemma {:induction false} StillHeld(graphs: map<(string, int), seq<Spawns.Listed>>,
                                     registered: map<string, Registered>, sets: seq<HandlerSet>, n: nat,
                                     workflow: string)
    requires n <= |sets| && Holds(graphs, registered, workflow)
    ensures Holds(HeldForSets(graphs, registered, sets, n), registered, workflow)
  {
    if n > 0 { StillHeld(graphs, registered, sets, n - 1, workflow); }
  }

  // ---- the handler of a task ----

  predicate HasSuffix(s: string, suffix: string) { |suffix| <= |s| && s[|s| - |suffix|..] == suffix }

  function TrimSuffix(s: string, suffix: string): string { if HasSuffix(s, suffix) then s[..|s| - |suffix|] else s }

  /** Where the first '#' is. */
  function IndexHash(s: string): (at: Option<nat>)
    ensures at.Some? ==> at.value < |s| && s[at.value] == '#'
  {
    if s == "" then None
    else if s[0] == '#' then Some(0)
    else
      match IndexHash(s[1..])
      case None => None
      case Some(i) => Some(i + 1)
  }

  function RoleOf<V>(task: Task<V>): Role {
    var undo := HasSuffix(task.activity, UNDO);
    Role(task.kind, !undo && (task.activation.collectKey != "" || task.activation.armNames != []), undo)
  }

  /** The kind a claim on a created step must have been made as. */
  predicate ClaimServes(kind: ClaimKind, role: Role) {
    match kind
    case UndoClaim => role.undo
    case CombineClaim => !role.undo && role.combine
    case TaskClaim => !role.undo && !role.combine && role.kind == TASK
    case GateClaim => !role.undo && !role.combine && role.kind == PREDICATE
  }

  /** The first of the first n sets of this workflow that binds the step, or refuses to. */
  function FirstBound(sets: seq<HandlerSet>, n: nat, workflow: string, canon: string,
                      role: Role): Found
    requires n <= |sets|
  {
    if n == 0 then Ok(None)
    else
      var before := FirstBound(sets, n - 1, workflow, canon, role);
      if before != Ok(None) || sets[n - 1].workflow != workflow then before else BindCreated(sets[n - 1], canon, role)
  }

  lemma {:induction false} FirstBoundStays(sets: seq<HandlerSet>, i: nat, n: nat, workflow: string, canon: string,
                                           role: Role)
    requires i <= n <= |sets| && FirstBound(sets, i, workflow, canon, role) != Ok(None)
    ensures FirstBound(sets, n, workflow, canon, role) == FirstBound(sets, i, workflow, canon, role)
  {
    hide BindCreated;
    if i < n { FirstBoundStays(sets, i, n - 1, workflow, canon, role); }
  }

  lemma {:induction false} FirstBoundServes(sets: seq<HandlerSet>, n: nat, workflow: string, canon: string, role: Role)
    requires n <= |sets|
    ensures var r := FirstBound(sets, n, workflow, canon, role); r.Ok? && r.value.Some? ==> Serves(r.value.value, role)
  {
    hide BindCreated, Serves;
    if n > 0 {
      FirstBoundServes(sets, n - 1, workflow, canon, role);
      CreatedServes(sets[n - 1], canon, role);
    }
  }

  /** What the sets bind to a created step, when it is first dispatched. */
  function BoundFor<V>(sets: seq<HandlerSet>, task: Task<V>, fold: string -> string): Found {
    match IndexHash(task.activity)
    case None => Ok(None)
    case Some(i) =>
      FirstBound(sets, |sets|, task.activity[..i], fold(TrimSuffix(task.activity[i + 1..], UNDO)), RoleOf(task))
  }

  class Worker {
    var handlers: map<string, Handler>
    var itemHandlers: map<string, Handler>
    var queues: set<string>
    var claims: seq<Claim>
    var handlerSets: seq<HandlerSet>
    var branchSteps: map<string, set<string>>
    var createdKinds: map<string, ClaimKind>
    var lazy: map<string, Handler>
    var graphs: map<(string, int), seq<Spawns.Listed>>
    /** What each handler was bound for. */
    ghost var origins: map<string, Origin>
    /** The role each lazily bound handler was bound in. */
    ghost var roles: map<string, Role>

    ghost predicate Valid()
      reads this
    {
      && AllStem(handlers, origins) && AllClaimed(claims, origins, itemHandlers)
      && KindsAreClaimed(createdKinds, claims) && AllServe(lazy, roles)
    }

    ghost function Seen(): Installation
      reads this
    {
      Installation(handlers, itemHandlers, queues, origins)
    }

    constructor ()
      ensures Valid() && claims == [] && handlerSets == [] && handlers == map[] && itemHandlers == map[] &&
              lazy == map[]
      ensures queues == {} && branchSteps == map[] && createdKinds == map[] && graphs == map[]
    {
      handlers, itemHandlers, queues, claims, handlerSets := map[], map[], {}, [], [];
      branchSteps, createdKinds, lazy, graphs, roles, origins := map[], map[], map[], map[], map[], map[];
    }

    /** Claims a step for a handler; false when its activity is taken. */
    method Bind(workflow: string, step: string, kind: ClaimKind, fn: nat) returns (ok: bool)
      requires Valid() && kind != UndoClaim
      modifies this`handlers, this`claims, this`origins
      ensures Valid() && ok == (ActivityOf(workflow, step) !in old(handlers))
      ensures handlers == if ok then old(handlers)[ActivityOf(workflow, step) := Own(fn)] else old(handlers)
      ensures claims == if ok then old(claims) + [Claim(workflow, step, kind)] else old(claims)
      ensures origins == if ok then old(origins)[ActivityOf(workflow, step) := Claimed(kind)] else old(origins)
    {
      hide ActivityOf, AllStem, AllClaimed, KindsAreClaimed, AllServe;
      var activity := ActivityOf(workflow, step);
      if activity in handlers { return false; }
      ghost var c := Claim(workflow, step, kind);
      MoreClaims(createdKinds, claims, c);
      OneMoreHandler(handlers, origins, claims, itemHandlers, activity, Own(fn), Claimed(kind));
      OneMoreClaim(claims, origins[activity := Claimed(kind)], itemHandlers, c);
      handlers, origins := handlers[activity := Own(fn)], origins[activity := Claimed(kind)];
      claims := claims + [Claim(workflow, step, kind)];
      return true;
    }

    method HandleCompensation(workflow: string, step: string, fn: nat) returns (ok: bool)
      requires Valid()
      modifies this`handlers, this`claims, this`origins
      ensures Valid() && ok == (ActivityOf(workflow, step) + UNDO !in old(handlers))
      ensures handlers == if ok then old(handlers)[ActivityOf(workflow, step) + UNDO := Own(fn)] else old(handlers)
      ensures claims == if ok then old(claims) + [Claim(workflow, step, UndoClaim)] else old(claims)
      ensures origins ==
              if ok then old(origins)[ActivityOf(workflow, step) + UNDO := Claimed(UndoClaim)] else old(origins)
    {
      hide ActivityOf, AllStem, AllClaimed, KindsAreClaimed, AllServe;
      var activity := ActivityOf(workflow, step) + UNDO;
      if activity in handlers { return false; }
      ghost var c := Claim(workflow, step, UndoClaim);
      MoreClaims(createdKinds, claims, c);
      OneMoreHandler(handlers, origins, claims, itemHandlers, activity, Own(fn), Claimed(UndoClaim));
      OneMoreClaim(claims, origins[activity := Claimed(UndoClaim)], itemHandlers, c);
      handlers, origins := handlers[activity := Own(fn)], origins[activity := Claimed(UndoClaim)];
      claims := claims + [Claim(workflow, step, UndoClaim)];
      return true;
    }

    method HandleItem(workflow: string, step: string, fn: nat) returns (ok: bool)
      requires Valid()
      modifies this`itemHandlers, this`claims
      ensures Valid() && ok == (ActivityOf(workflow, step) !in old(itemHandlers))
      ensures itemHandlers == if ok then old(itemHandlers)[ActivityOf(workflow, step) := Own(fn)] else old(itemHandlers)
      ensures claims == if ok then old(claims) + [Claim(workflow, step, TaskClaim)] else old(claims)
    {
      hide ActivityOf, AllStem, AllClaimed, KindsAreClaimed, AllServe;
      var activity := ActivityOf(workflow, step);
      if activity in itemHandlers { return false; }
      ghost var c := Claim(workflow, step, TaskClaim);
      MoreClaims(createdKinds, claims, c);
      OneMoreItem(claims, origins, itemHandlers, activity, Own(fn));
      OneMoreClaim(claims, origins, itemHandlers[activity := Own(fn)], c);
      itemHandlers := itemHandlers[activity := Own(fn)];
      claims := claims + [Claim(workflow, step, TaskClaim)];
      return true;
    }

    method RegisterHandler(hs: HandlerSet)
      requires Valid()
      modifies this`handlerSets
      ensures Valid() && handlerSets == old(handlerSets) + [hs]
    {
      handlerSets := handlerSets + [hs];
    }

    /** Declares steps that only created branches run; false without a workflow or a step. */
    method BranchSteps(workflow: string, steps: seq<string>, fold: string -> string) returns (ok: bool)
      requires Valid()
      modifies this`branchSteps
      ensures Valid() && ok == (workflow != "" && steps != [])
      ensures forall wf :: wf in branchSteps <==> wf in old(branchSteps) || (ok && wf == workflow)
      ensures forall wf :: wf in old(branchSteps) && !(ok && wf == workflow) ==> branchSteps[wf] == old(branchSteps)[wf]
      ensures ok ==>
                forall c :: c in branchSteps[workflow] <==>
                  (workflow in old(branchSteps) && c in old(branchSteps)[workflow]) || exists i ::
                    0 <= i < |steps| &&
                    fold(steps[i]) == c
    {
      if workflow == "" || |steps| == 0 { return false; }
      var declared: set<string> := if workflow in branchSteps then branchSteps[workflow] else {};
      ghost var before := declared;
      for i := 0 to |steps|
        invariant branchSteps == old(branchSteps)
        invariant forall c :: c in declared <==> c in before || exists x :: 0 <= x < i && fold(steps[x]) == c
      {
        declared := declared + {fold(steps[i])};
      }
      branchSteps := branchSteps[workflow := declared];
      return true;
    }

    // ---- starting ----

    method CheckClaim(c: Claim, nodes: map<string, Node>, branch: set<string>, fold: string -> string)
      returns (error: Option<Error>)
      ensures error.None? <==> ClaimFits(c, nodes, branch, fold)
      ensures error.Some? ==> !error.value.Duplicate?
    {
      var activity := ActivityFor(c);
      if activity !in nodes { return if fold(c.step) in branch then None else Some(NoStep(c.step)); }
      var n := nodes[activity];
      var combine := Spawns.IsCombine(n);
      if c.kind == UndoClaim {
        return if n.kind != TASK || combine || !IsCompensable(n) then Some(NotCompensable(c.step)) else None;
      }
      if c.kind == CombineClaim { return if combine then None else Some(NeedsHandle(c.step)); }
      if combine { return Some(NeedsHandleCombine(c.step)); }
      if (if c.kind == TaskClaim then TASK else PREDICATE) != n.kind { return Some(WrongKind(c.step)); }
      return None;
    }

    /** Checks the claims of one workflow against its graph, and learns their queues and the kinds of created steps. */
    method ReconcileWorkflow(workflow: string, listed: seq<Spawns.Listed>, claimed: seq<Claim>, fold: string -> string)
      returns (error: Option<Error>)
      requires Valid() && forall i :: 0 <= i < |claimed| ==> claimed[i] in claims
      modifies this`queues, this`createdKinds
      ensures Valid()
      ensures var nodes := ByActivity(NodesOf(listed), |listed|);
              var branch := if workflow in branchSteps then branchSteps[workflow] else {};
              && (error.None? <==> ClaimsFit(claimed, nodes, branch, fold))
              && (error.None? ==>
                    && queues == QueuesClaimed(old(queues), claimed, |claimed|, nodes, workflow)
                    && createdKinds == KindsClaimed(old(createdKinds), claimed, |claimed|, nodes))
      ensures error.Some? ==> !error.value.Duplicate?
    {
      hide ClaimFits, ActivityOf, QueueOf, AllStem, AllClaimed, KindsAreClaimed, AllServe;
      var nodes: map<string, Node> := map[];
      for i := 0 to |listed|
        invariant nodes == ByActivity(NodesOf(listed), i)
      {
        if Runs(listed[i].node) { nodes := nodes[listed[i].node.info.activity := listed[i].node]; }
      }
      var branch := if workflow in branchSteps then branchSteps[workflow] else {};
      for i := 0 to |claimed|
        invariant Valid()
        invariant forall x :: 0 <= x < i ==> ClaimFits(claimed[x], nodes, branch, fold)
        invariant queues == QueuesClaimed(old(queues), claimed, i, nodes, workflow)
        invariant createdKinds == KindsClaimed(old(createdKinds), claimed, i, nodes)
      {
        var c := claimed[i];
        var bad := CheckClaim(c, nodes, branch, fold);
        if bad.Some? { return bad; }
        KindsStayClaimed(old(createdKinds), claimed, i + 1, nodes, claims);
        if ActivityFor(c) in nodes {
          queues := queues + {QueueOf(nodes[ActivityFor(c)], workflow)};
        } else {
          createdKinds := createdKinds[KeyOf(c) := c.kind];
        }
      }
      error := CheckUndone(claimed, nodes);
    }

    method CheckUndone(claimed: seq<Claim>, nodes: map<string, Node>) returns (error: Option<Error>)
      ensures error.None? <==> forall i :: 0 <= i < |claimed| && NeedsUndo(claimed[i], nodes) ==>
              HasUndo(claimed, claimed[i].step)
      ensures error.Some? ==> !error.value.Duplicate?
    {
      hide IsCompensable, ActivityOf;
      var compensated: set<string> := {};
      for i := 0 to |claimed|
        invariant forall s :: s in compensated <==> HasUndo(claimed[..i], s)
      {
        OneMoreUndo(claimed, i);
        if claimed[i].kind == UndoClaim { compensated := compensated + {claimed[i].step}; }
      }
      assert claimed[..|claimed|] == claimed;
      for i := 0 to |claimed|
        invariant forall x :: 0 <= x < i && NeedsUndo(claimed[x], nodes) ==> HasUndo(claimed, claimed[x].step)
      {
        if NeedsUndo(claimed[i], nodes) && claimed[i].step !in compensated {
          return Some(NeedsCompensator(claimed[i].step));
        }
      }
      return None;
    }

    /** Installs the bindings of a set in turn, up to the first whose activity already has a handler. */
    method ApplyBindings(bindings: seq<Binding>, ghost from: seq<Origin>)
      returns (error: Option<Error>, ghost n: nat)
      requires Valid() && |from| == |bindings|
      requires forall i :: 0 <= i < |bindings| && !bindings[i].handler.AsItem? ==> Stems(bindings[i].handler, from[i])
      modifies this`handlers, this`itemHandlers, this`queues, this`origins
      ensures Valid() && n <= |bindings| && Installed(old(Seen()), bindings, from, n) == Some(Seen())
      ensures error.None? ==> n == |bindings|
      ensures error.Some? ==> n < |bindings| && error.value == Duplicate(bindings[n].activity) &&
                              bindings[n].activity in handlers
      ensures error.None? <==> !exists i :: 0 <= i < |bindings| && Taken(old(Seen()), bindings, i)
      ensures old(queues) <= queues
    {
      hide Stems, AllServe, AllStem, AllClaimed, KindsAreClaimed, Taken;
      ghost var start := Seen();
      RefusedIff(start, bindings, from, |bindings|);
      for i := 0 to |bindings|
        invariant Valid() && Installed(start, bindings, from, i) == Some(Seen())
        invariant old(queues) <= queues
      {
        var b := bindings[i];
        if b.activity in handlers {
          StaysRefused(start, bindings, from, i + 1, |bindings|);
          return Some(Duplicate(b.activity)), i;
        }
        if b.handler.AsItem? {
          OneMoreItem(claims, origins, itemHandlers, b.activity, b.handler);
          itemHandlers := itemHandlers[b.activity := b.handler];
        } else {
          OneMoreHandler(handlers, origins, claims, itemHandlers, b.activity, b.handler, from[i]);
          handlers, origins := handlers[b.activity := b.handler], origins[b.activity := from[i]];
        }
        queues := queues + {b.queue};
      }
      return None, |bindings|;
    }

    /**
     * Binds a set to its registered graph and installs the bindings. It fails exactly on a misfit, which installs
     * nothing, or when the set overlaps the handlers there are, which installs the bindings before the first clash.
     */
    method MatchHandlerSet(hs: HandlerSet, registered: map<string, Registered>, fold: string -> string)
      returns (error: Option<Error>)
      requires Valid()
      modifies this`handlers, this`itemHandlers, this`queues, this`graphs, this`origins
      ensures Valid() && old(queues) <= queues
      ensures graphs == if hs.workflow in registered then Held(old(graphs), registered, hs.workflow) else old(graphs)
      ensures SetFits(hs, branchSteps, registered, fold) <==> error.None? || error.value.Duplicate?
      ensures SetFits(hs, branchSteps, registered, fold) ==>
                (error.None? <==> !SetOverlaps(old(handlers), WithBranch(hs, branchSteps), registered, fold))
      ensures if SetFits(hs, branchSteps, registered, fold)
              then SetInstalls(old(Seen()), WithBranch(hs, branchSteps), registered, fold, Seen(),
                               if error.None? then None else Some(error.value.activity))
              else Seen() == old(Seen())
    {
      hide Bindable, Reads, Installed, Stems, AllClaimed, KindsAreClaimed, AllServe, BindsAs, Taken, Overlaps;
      if hs.workflow !in registered { return Some(NotRegistered(hs.workflow)); }
      var graph := registered[hs.workflow];
      graphs := graphs[(hs.workflow, graph.version) := graph.listed];
      var nodes := NodesOf(graph.listed);
      ghost var with := WithBranch(hs, branchSteps);
      var r, steps := BindHandlerSet(nodes, WithBranch(hs, branchSteps), fold);
      SetFitsIff(hs, branchSteps, registered, fold, steps);
      if r.Err? { return Some(r.error); }
      ghost var forward, undo :| BindsAs(r.value, forward, undo, with, steps);
      BindingsStem(r.value, forward, undo, with, steps);
      OverlapIff(Seen(), r.value, forward, undo, with, steps, nodes, fold);
      SetOverlapsIff(handlers, with, registered, fold, steps);
      ghost var n;
      error, n := ApplyBindings(r.value, Origins(forward, undo, steps));
      assert InstallsUpTo(old(Seen()), r.value, forward, undo, steps, n, Seen(),
                          if error.None? then None else Some(error.value.activity));
    }

    /**
     * Checks everything this worker was given against the registered graphs. It starts exactly when all of it fits and
     * no set binds a taken activity; it then has installed every set, holds every graph and knows the queue of every
     * step claimed.
     */
    method Reconcile(registered: map<string, Registered>, fold: string -> string)
      returns (error: Option<Error>, ghost workflows: seq<string>)
      requires Valid()
      modifies this`handlers, this`itemHandlers, this`queues, this`createdKinds, this`graphs, this`origins
      ensures Valid()
      ensures error.None? ==>
                && (forall wf :: wf in Workflows(claims) ==>
                      && WorkflowFits(claims, wf, branchSteps, registered, fold)
                      && Holds(graphs, registered, wf) && QueuesKnown(queues, claims, registered, wf))
                && (forall i :: 0 <= i < |handlerSets| ==>
                      && SetFits(handlerSets[i], branchSteps, registered, fold)
                      && Holds(graphs, registered, handlerSets[i].workflow))
      ensures Enumerates(workflows, Workflows(claims))
      ensures var learnt := LearntFrom(Learnt(old(queues), old(createdKinds), old(graphs)), claims, registered,
                                       workflows, |workflows|);
              var start := old(Seen()).(queues := learnt.queues);
              if error.None? then
                && SetsInstall(start, handlerSets, |handlerSets|, branchSteps, registered, fold, Seen())
                && createdKinds == learnt.createdKinds
                && graphs == HeldForSets(learnt.graphs, registered, handlerSets, |handlerSets|)
              else if error.value.Duplicate? then
                && (forall wf :: wf in Workflows(claims) ==> WorkflowFits(claims, wf, branchSteps, registered, fold))
                && SetsClash(start, handlerSets, branchSteps, registered, fold, Seen(), error.value.activity)
              else
                || (exists wf :: wf in Workflows(claims) && !WorkflowFits(claims, wf, branchSteps, registered, fold))
                || (exists i :: 0 <= i < |handlerSets| && !SetFits(handlerSets[i], branchSteps, registered, fold))
    {
      hide WorkflowFits, SetFits, SetsInstall, SetsClash, QueuesKnown, LearntFrom, Holds, HeldForSets;
      hide AllClaimed, AllStem, KindsAreClaimed, AllServe;
      error, workflows := ReconcileClaims(registered, fold);
      if error.Some? { return; }
      ghost var queuesClaimed, graphsClaimed := queues, graphs;
      error := MatchHandlerSets(registered, fold);
      if error.Some? { return; }
      forall wf | wf in Workflows(claims)
        ensures Holds(graphs, registered, wf) && QueuesKnown(queues, claims, registered, wf)
      {
        StillKnown(queuesClaimed, queues, claims, registered, wf);
        StillHeld(graphsClaimed, registered, handlerSets, |handlerSets|, wf);
      }
    }

    /** The handler sets, in the order they were registered. */
    method MatchHandlerSets(registered: map<string, Registered>, fold: string -> string) returns (error: Option<Error>)
      requires Valid()
      modifies this`handlers, this`itemHandlers, this`queues, this`graphs, this`origins
      ensures Valid() && old(queues) <= queues
      ensures error.None? ==>
                && (forall i :: 0 <= i < |handlerSets| ==>
                      && SetFits(handlerSets[i], branchSteps, registered, fold)
                      && Holds(graphs, registered, handlerSets[i].workflow))
                && SetsInstall(old(Seen()), handlerSets, |handlerSets|, branchSteps, registered, fold, Seen())
                && graphs == HeldForSets(old(graphs), registered, handlerSets, |handlerSets|)
      ensures error.Some? ==>
                if error.value.Duplicate?
                  then SetsClash(old(Seen()), handlerSets, branchSteps, registered, fold, Seen(), error.value.activity)
                  else exists i :: 0 <= i < |handlerSets| && !SetFits(handlerSets[i], branchSteps, registered, fold)
    {
      hide SetFits, SetInstalls, SetsInstall, SetOverlaps, SetsClash, AllClaimed, AllStem, KindsAreClaimed, AllServe;
      error := None;
      ghost var start := Seen();
      NoSets(start, handlerSets, branchSteps, registered, fold);
      for i := 0 to |handlerSets|
        invariant error.None? && Valid() && old(queues) <= queues
        invariant forall x :: 0 <= x < i ==>
                    && SetFits(handlerSets[x], branchSteps, registered, fold)
                    && Holds(graphs, registered, handlerSets[x].workflow)
        invariant SetsInstall(start, handlerSets, i, branchSteps, registered, fold, Seen())
        invariant graphs == HeldForSets(old(graphs), registered, handlerSets, i)
      {
        ghost var mid := Seen();
        error := MatchHandlerSet(handlerSets[i], registered, fold);
        if error.Some? {
          if error.value.Duplicate? {
            ClashesAt(start, handlerSets, i, branchSteps, registered, fold, mid, Seen(), error.value.activity);
          } else {
            assert !SetFits(handlerSets[i], branchSteps, registered, fold);
          }
          return;
        }
        OneMoreSet(start, handlerSets, i, branchSteps, registered, fold, mid, Seen());
        SetIsRegistered(handlerSets[i], branchSteps, registered, fold);
      }
    }

    /** The claims, workflow by workflow. */
    method ReconcileClaims(registered: map<string, Registered>, fold: string -> string)
      returns (error: Option<Error>, ghost order: seq<string>)
      requires Valid()
      modifies this`queues, this`createdKinds, this`graphs
      ensures Valid()
      ensures error.None? ==>
                forall wf :: wf in Workflows(claims) ==>
                  && WorkflowFits(claims, wf, branchSteps, registered, fold)
                  && Holds(graphs, registered, wf) && QueuesKnown(queues, claims, registered, wf)
      ensures Enumerates(order, Workflows(claims))
      ensures error.None? ==>
                Learnt(queues, createdKinds, graphs) ==
                LearntFrom(old(Learnt(queues, createdKinds, graphs)), claims, registered, order, |order|)
      ensures error.Some? ==>
                && !error.value.Duplicate?
                && exists wf :: wf in Workflows(claims) && !WorkflowFits(claims, wf, branchSteps, registered, fold)
    {
      hide ClaimsFit, ByActivity, NodesOf, KindsClaimed, QueuesClaimed, QueuesKnown, ClaimsOf;
      hide AllClaimed, AllStem, KindsAreClaimed, AllServe;
      var workflows := Enumerate(Workflows(claims));
      order := workflows;
      for i := 0 to |workflows|
        invariant Valid()
        invariant Learnt(queues, createdKinds, graphs) ==
                  LearntFrom(old(Learnt(queues, createdKinds, graphs)), claims, registered, workflows, i)
        invariant forall x :: 0 <= x < i ==>
                    && WorkflowFits(claims, workflows[x], branchSteps, registered, fold)
                    && Holds(graphs, registered, workflows[x]) && QueuesKnown(queues, claims, registered, workflows[x])
      {
        var wf := workflows[i];
        assert wf in Workflows(claims);
        if wf !in registered { return Some(NotRegistered(wf)), order; }
        graphs := graphs[(wf, registered[wf].version) := registered[wf].listed];
        ghost var before := queues;
        ClaimsOfAreClaims(claims, |claims|, wf);
        var bad := ReconcileWorkflow(wf, registered[wf].listed, ClaimsOf(claims, |claims|, wf), fold);
        if bad.Some? {
          assert wf in Workflows(claims) && !WorkflowFits(claims, wf, branchSteps, registered, fold);
          return bad, order;
        }
        NowKnown(before, claims, registered, wf);
        forall x | 0 <= x < i ensures QueuesKnown(queues, claims, registered, workflows[x]) {
          StillKnown(before, queues, claims, registered, workflows[x]);
        }
      }
      return None, order;
    }

    // ---- dispatching ----

    /** The handler of a task: its own, or, on a created node, one that fits the role it is dispatched in. */
    function Dispatched<V>(task: Task<V>, fold: string -> string): Found
      reads this
    {
      var a := task.activity;
      if task.node.InGraph? then Ok(if a in handlers then Some(handlers[a]) else None)
      else if a in handlers then
        if a in createdKinds && !ClaimServes(createdKinds[a], RoleOf(task)) then Err(WrongKind(task.stepName))
          else Ok(Some(handlers[a]))
      else if a in lazy then Ok(Some(lazy[a]))
      else BoundFor(handlerSets, task, fold)
    }

    /**
     * A step in no graph that no handler claims is bound from the sets on its first dispatch, and that binding is
     * kept by its activity alone. A later dispatch is given it unchecked: it fits exactly when its role is the same.
     */
    method HandlerFor<V>(task: Task<V>, fold: string -> string) returns (r: Found)
      requires Valid()
      modifies this`lazy, this`roles
      ensures Valid() && r == old(Dispatched(task, fold))
      ensures var a := task.activity;
              var binds := task.node.CreatedNode? && a !in handlers && a !in old(lazy) && r.Ok? && r.value.Some?;
              && lazy == (if binds then old(lazy)[a := r.value.value] else old(lazy))
              && roles == (if binds then old(roles)[a := RoleOf(task)] else old(roles))
              && (binds ==> Serves(r.value.value, RoleOf(task)))
      ensures task.node.CreatedNode? && task.activity !in handlers && task.activity in old(lazy) ==>
                && r == Ok(Some(old(lazy)[task.activity]))
                && (Serves(r.value.value, RoleOf(task)) <==> SameUse(old(roles)[task.activity], RoleOf(task)))
    {
      hide Serves, ClaimServes, SameUse, FirstBound, AllClaimed, AllStem, KindsAreClaimed, RoleOf, BoundFor;
      var a := task.activity;
      if task.node.InGraph? { return Ok(if a in handlers then Some(handlers[a]) else None); }
      if a in handlers {
        if a in createdKinds && !ClaimServes(createdKinds[a], RoleOf(task)) { return Err(WrongKind(task.stepName)); }
        return Ok(Some(handlers[a]));
      }
      if a in lazy {
        ServesIff(lazy[a], roles[a], RoleOf(task));
        return Ok(Some(lazy[a]));
      }
      r := BindFirst(task, fold);
    }

    /** The first dispatch of a created step. */
    method BindFirst<V>(task: Task<V>, fold: string -> string) returns (r: Found)
      requires Valid()
      modifies this`lazy, this`roles
      ensures Valid() && r == BoundFor(handlerSets, task, fold)
      ensures var binds := r.Ok? && r.value.Some?;
              && lazy == (if binds then old(lazy)[task.activity := r.value.value] else old(lazy))
              && roles == (if binds then old(roles)[task.activity := RoleOf(task)] else old(roles))
              && (binds ==> Serves(r.value.value, RoleOf(task)))
    {
      hide Serves, FirstBound, AllClaimed, AllStem, KindsAreClaimed, RoleOf;
      var a, hash := task.activity, IndexHash(task.activity);
      if hash.None? { return Ok(None); }
      r := FromSets(a[..hash.value], fold(TrimSuffix(a[hash.value + 1..], UNDO)), RoleOf(task));
      if r.Ok? && r.value.Some? { lazy, roles := lazy[a := r.value.value], roles[a := RoleOf(task)]; }
    }

    /** The sets of a workflow are asked for a created step in the order they were registered. */
    method FromSets(workflow: string, canon: string, role: Role) returns (r: Found)
      ensures r == FirstBound(handlerSets, |handlerSets|, workflow, canon, role)
      ensures r.Ok? && r.value.Some? ==> Serves(r.value.value, role)
    {
      hide Serves, BindCreated;
      FirstBoundServes(handlerSets, |handlerSets|, workflow, canon, role);
      for i := 0 to |handlerSets|
        invariant FirstBound(handlerSets, i, workflow, canon, role) == Ok(None)
      {
        if handlerSets[i].workflow == workflow {
          r := BindCreated(handlerSets[i], canon, role);
          if r != Ok(None) {
            FirstBoundStays(handlerSets, i + 1, |handlerSets|, workflow, canon, role);
            return;
          }
        }
      }
      return Ok(None);
    }

    /** Whether a task may create branches: for a graph this worker does not hold, the server decides. */
    predicate MayCreate<V>(task: Task<V>)
      reads this
    {
      || SPAWN_PREFIX <= task.activation.collectKey
      || task.node.CreatedNode?
      || (task.workflow, task.version) !in graphs
      || var listed := graphs[(task.workflow, task.version)]; Spawns.Spawning(Spawns.Read(listed, |listed|),
                                                                              task.node.id)
    }

    method CreatesBranches<V>(task: Task<V>) returns (may: bool)
      ensures may == MayCreate(task)
    {
      hide Spawns.Spawning, Spawns.Read;
      if SPAWN_PREFIX <= task.activation.collectKey || task.node.CreatedNode? { return true; }
      if (task.workflow, task.version) !in graphs { return true; }
      may := Spawns.MaySpawn(graphs[(task.workflow, task.version)], task.node.id);
    }
  }

  /** A handler does what a role asks: one claimed by itself, what it was claimed for; one of a set, what it serves. */
  predicate DoesFor(h: Handler, o: Origin, role: Role) {
    if o.Claimed? then ClaimServes(o.kind, role) else Serves(h, role)
  }

  lemma BoundFits(h: Handler, o: Origin, role: Role)
    requires Stems(h, o)
    ensures DoesFor(h, o, role) <==> SameUse(BoundAs(o), role)
  {}

  /**
   * When the handler given for a step of a created branch fits. A first binding from a set always does. A handler that
   * was claimed or bound to a step of a graph, and a binding kept from an earlier dispatch, fit exactly when the step
   * is dispatched in the role they were bound for; a claim for created steps is checked against that.
   */
  lemma DispatchFitsIff<V>(w: Worker, task: Task<V>, fold: string -> string)
    requires w.Valid() && task.node.CreatedNode?
    requires w.Dispatched(task, fold).Ok? && w.Dispatched(task, fold).value.Some?
    ensures var a, h, role := task.activity, w.Dispatched(task, fold).value.value, RoleOf(task);
            if a in w.handlers then DoesFor(h, w.origins[a], role) <==> SameUse(BoundAs(w.origins[a]), role)
            else Serves(h, role) <==> a !in w.lazy || SameUse(w.roles[a], role)
    ensures var a, h, role := task.activity, w.Dispatched(task, fold).value.value, RoleOf(task);
            a in w.createdKinds && a !in w.itemHandlers ==>
              a in w.handlers && w.origins[a] == Claimed(w.createdKinds[a]) && DoesFor(h, w.origins[a], role)
  {
    hide Serves, SameUse, ClaimServes, FirstBound, Stems, BoundAs;
    var a := task.activity;
    if a in w.handlers {
      BoundFits(w.handlers[a], w.origins[a], RoleOf(task));
    } else {
      if a in w.lazy { ServesIff(w.lazy[a], w.roles[a], RoleOf(task)); }
      BoundServes(w.handlerSets, task, fold);
    }
  }

  lemma BoundServes<V>(sets: seq<HandlerSet>, task: Task<V>, fold: string -> string)
    ensures var r := BoundFor(sets, task, fold);
            r.Ok? && r.value.Some? ==> Serves(r.value.value, RoleOf(task))
  {
    match IndexHash(task.activity)
    case None =>
    case Some(i) =>
      FirstBoundServes(sets, |sets|, task.activity[..i], fold(TrimSuffix(task.activity[i + 1..], UNDO)), RoleOf(task));
  }

  /**
   * A worker that dispatches one step of created branches as a task and then as a gate hands the gate the task's
   * handler, where dispatched first the gate is refused.
   */
  method GateGivenATask(first: Task<int>, later: Task<int>, fold: string -> string)
    returns (given: Found, again: Found, alone: Found)
    requires first.activity == later.activity == "order#review" && fold("review") == "review"
    requires first.node == later.node == CreatedNode && first.kind == TASK && later.kind == PREDICATE
    requires first.activation == later.activation == Combine.Activation([], "", map[])
    ensures given == Ok(Some(Plain(Candidate("Review", TaskShape)))) && Serves(given.value.value, RoleOf(first))
    ensures again == given && !Serves(again.value.value, RoleOf(later))
    ensures alone == Err(WrongKind("Review"))
  {
    hide BoundFor, RoleOf, ActivityOf;
    var hs := HandlerSet("order", map["review" := Candidate("Review", TaskShape)], map[], {});
    ReviewIsBound(first, hs, fold);
    ReviewIsBound(later, hs, fold);
    assert BindCreated(hs, "review", Role(TASK, false, false)) == Ok(Some(Plain(Candidate("Review", TaskShape))));
    assert BindCreated(hs, "review", Role(PREDICATE, false, false)) == Err(WrongKind("Review"));
    var w := new Worker();
    w.RegisterHandler(hs);
    assert w.handlerSets == [hs];
    given := w.HandlerFor(first, fold);
    again := w.HandlerFor(later, fold);
    var other := new Worker();
    other.RegisterHandler(hs);
    assert other.handlerSets == [hs];
    alone := other.HandlerFor(later, fold);
  }

  /** A worker that claimed a task of the graph hands its handler to a gate of that name in a created branch. */
  method GateGivenAClaimedTask(gate: Task<int>, fold: string -> string) returns (given: Found)
    requires gate.activity == "order#charge" && gate.node == CreatedNode && gate.kind == PREDICATE
    requires gate.activation == Combine.Activation([], "", map[])
    ensures given == Ok(Some(Own(1))) && !DoesFor(Own(1), Claimed(TaskClaim), RoleOf(gate))
  {
    hide AllStem, AllClaimed, KindsAreClaimed, AllServe, QueuesClaimed, BoundFor;
    var node := TaskNode(Env("order", "order"), "charge", "", NO_RETRY, false);
    var listed := [Spawns.Listed(0, node)];
    var nodes := ByActivity(NodesOf(listed), 1);
    assert "order" + "#" + "charge" == "order#charge";
    assert ByActivity(NodesOf(listed), 0) == map[];
    assert nodes == map["order#charge" := node];
    assert "order#charge"[11] == 'e' && "order#charge"[10] == 'g' && UNDO[|UNDO| - 2] == 't';
    var w := new Worker();
    var ok := w.Bind("order", "charge", TaskClaim, 1);
    var claim := Claim("order", "charge", TaskClaim);
    assert w.claims == [claim];
    assert KindsClaimed(w.createdKinds, [claim], 0, nodes) == map[];
    assert KindsClaimed(w.createdKinds, [claim], 1, nodes) == map[];
    assert ClaimsFit([claim], nodes, {}, fold);
    var error := w.ReconcileWorkflow("order", listed, [claim], fold);
    assert error.None?;
    given := w.HandlerFor(gate, fold);
  }

  lemma ReviewIsBound(task: Task<int>, hs: HandlerSet, fold: string -> string)
    requires task.activity == "order#review" && fold("review") == "review"
    requires task.activation == Combine.Activation([], "", map[])
    requires hs == HandlerSet("order", map["review" := Candidate("Review", TaskShape)], map[], {})
    ensures RoleOf(task) == Role(task.kind, false, false)
    ensures BoundFor([hs], task, fold) == BindCreated(hs, "review", RoleOf(task))
  {
    hide BindCreated, FirstBound, RoleOf;
    var a, tail := "order#review", "review";
    HashInReview();
    ReviewIsDone(task);
    OnlySet(hs, "review", RoleOf(task));
    assert a[..5] == "order" && a[6..] == tail;
    assert |tail| < |UNDO|;
  }

  lemma ReviewIsDone(task: Task<int>)
    requires task.activity == "order#review" && task.activation == Combine.Activation([], "", map[])
    ensures RoleOf(task) == Role(task.kind, false, false)
  {
    var a := "order#review";
    assert a[|a| - 1] == 'w' && UNDO[|UNDO| - 1] == 'e';
  }

  lemma OnlySet(hs: HandlerSet, canon: string, role: Role)
    ensures FirstBound([hs], 1, hs.workflow, canon, role) == BindCreated(hs, canon, role)
  {
    hide BindCreated;
    assert FirstBound([hs], 0, hs.workflow, canon, role) == Ok(None);
  }

  lemma HashInReview()
    ensures IndexHash("order#review") == Some(5)
  {
    var a := "order#review";
    assert IndexHash(a[5..]) == Some(0);
    assert IndexHash(a[4..]) == Some(1) by { assert a[4..][1..] == a[5..]; }
    assert IndexHash(a[3..]) == Some(2) by { assert a[3..][1..] == a[4..]; }
    assert IndexHash(a[2..]) == Some(3) by { assert a[2..][1..] == a[3..]; }
    assert IndexHash(a[1..]) == Some(4) by { assert a[1..][1..] == a[2..]; }
    assert IndexHash(a) == Some(5);
  }

  /**
   * On a node of a compiled graph the worker holds, exactly the spawning tasks and their combines may create branches.
   */
  lemma MayCreateIff<V>(w: Worker, task: Task<V>, env: Env, steps: seq<Step>)
    requires WellFormed.ShapeSeq(steps) && task.node.InGraph? && (task.workflow, task.version) in w.graphs
    requires Spawns.Lists(w.graphs[(task.workflow, task.version)], Layout.Program(env, steps))
    requires SPAWN_PREFIX <= task.activation.collectKey ==> Spawns.RecordedSeq(steps, |steps|, 0, false, task.node.id)
    ensures w.MayCreate(task) <==> Spawns.RecordedSeq(steps, |steps|, 0, false, task.node.id)
  {
    hide Spawns.Spawning, Spawns.Lists, Spawns.Read, Layout.Program, Spawns.RecordedSeq;
    Spawns.ReadsBack(w.graphs[(task.workflow, task.version)], Layout.Program(env, steps));
    Spawns.SpawnsExactlyTheRecorded(env, steps, task.node.id);
  }

  lemma OneMoreUndo(claims: seq<Claim>, i: nat)
    requires i < |claims|
    ensures forall s :: HasUndo(claims[..i + 1], s) <==>
            HasUndo(claims[..i], s) ||
            (claims[i].kind == UndoClaim && claims[i].step == s)
  {
    var more, less := claims[..i + 1], claims[..i];
    forall s ensures HasUndo(more, s) <==> HasUndo(less, s) || (claims[i].kind == UndoClaim && claims[i].step == s) {
      if HasUndo(more, s) {
        var x :| 0 <= x < |more| && more[x].kind == UndoClaim && more[x].step == s;
        if x < i { assert less[x] == more[x]; }
      }
      if HasUndo(less, s) {
        var x :| 0 <= x < |less| && less[x].kind == UndoClaim && less[x].step == s;
        assert more[x] == less[x];
      }
      if claims[i].kind == UndoClaim && claims[i].step == s { assert more[i] == claims[i]; }
    }
  }
}
