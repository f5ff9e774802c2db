/**
 * Back-patching. A compiler that leaves edges open and wires them later reaches the same nodes as the
 * one-pass layout: wiring what `Layout.Opens` leaves open in a step laid out with k None gives the step
 * laid out with k known.
 */
module Wiring {
  import opened Topology
  import opened Layout
  import opened WellFormed

  function EdgeOf(n: Node, edge: Edge): Option<Id> {
    match edge case Next => n.next case Alt => n.alt
  }

  function Patch(n: Node, edge: Edge, target: Id): Node {
    match edge case Next => n.(next := Some(target)) case Alt => n.(alt := Some(target))
  }

  function Wire(nodes: seq<Node>, e: OpenEnd, target: Id): (r: seq<Node>)
    ensures |r| == |nodes|
  {
    if e.id < |nodes| then nodes[e.id := Patch(nodes[e.id], e.edge, target)] else nodes
  }

  /** The first n open ends, wired to the target. */
  function WireFirst(nodes: seq<Node>, open: seq<OpenEnd>, n: nat, target: Id): (r: seq<Node>)
    requires n <= |open|
    ensures |r| == |nodes|
  {
    if n == 0 then nodes else Wire(WireFirst(nodes, open, n - 1, target), open[n - 1], target)
  }

  function WireAll(nodes: seq<Node>, open: seq<OpenEnd>, target: Id): (r: seq<Node>)
    ensures |r| == |nodes|
  {
    WireFirst(nodes, open, |open|, target)
  }

  /** Every open end is an edge of an existing node, not yet set, and none is listed twice. */
  ghost predicate AllFree(nodes: seq<Node>, open: seq<OpenEnd>) {
    && (forall i :: 0 <= i < |open| ==> open[i].id < |nodes| && EdgeOf(nodes[open[i].id], open[i].edge) == None)
    && (forall i, j :: 0 <= i < j < |open| ==> open[i] != open[j])
  }

  ghost predicate Within(open: seq<OpenEnd>, lo: Id, hi: Id) {
    forall i :: 0 <= i < |open| ==> lo <= open[i].id < hi
  }

  // ---- wiring lists of open ends ----

  lemma {:induction false} WireFirstConcat(nodes: seq<Node>, a: seq<OpenEnd>, b: seq<OpenEnd>, n: nat, t: Id)
    requires n <= |a| + |b|
    ensures WireFirst(nodes, a + b, n, t) ==
            if n <= |a| then WireFirst(nodes, a, n, t) else WireFirst(WireAll(nodes, a, t), b, n - |a|, t)
  {
    if n > 0 { WireFirstConcat(nodes, a, b, n - 1, t); }
  }

  lemma WireNone(nodes: seq<Node>, open: seq<OpenEnd>, t: Id)
    ensures WireFirst(nodes, open, 0, t) == nodes
  {}

  lemma WireOne(nodes: seq<Node>, e: OpenEnd, t: Id)
    ensures WireAll(nodes, [e], t) == Wire(nodes, e, t)
  {
    assert WireFirst(nodes, [e], 0, t) == nodes;
  }

  lemma WireMid(pre: seq<Node>, n: Node, post: seq<Node>, edge: Edge, t: Id)
    ensures Wire(pre + [n] + post, OpenEnd(|pre|, edge), t) == pre + [Patch(n, edge, t)] + post
  {}

  lemma WireLast(pre: seq<Node>, n: Node, edge: Edge, t: Id)
    ensures Wire(pre + [n], OpenEnd(|pre|, edge), t) == pre + [Patch(n, edge, t)]
  {}

  lemma Assoc<T>(a: seq<T>, b: seq<T>, c: seq<T>)
    ensures (a + b) + c == a + (b + c)
  {}

  /** Wiring edges of a prefix leaves the rest alone. */
  lemma {:induction false} WireFirstPrefix(pre: seq<Node>, post: seq<Node>, open: seq<OpenEnd>, n: nat, t: Id)
    requires n <= |open| && Within(open, 0, |pre|)
    ensures WireFirst(pre + post, open, n, t) == WireFirst(pre, open, n, t) + post
  {
    if n > 0 {
      WireFirstPrefix(pre, post, open, n - 1, t);
      var before := WireFirst(pre, open, n - 1, t);
      assert Wire(before + post, open[n - 1], t) == Wire(before, open[n - 1], t) + post;
    }
  }

  /** Wiring some of the open ends keeps the others free. */
  lemma {:induction false} WireKeepsFree(nodes: seq<Node>, open: seq<OpenEnd>, n: nat, t: Id)
    requires n <= |open| && AllFree(nodes, open)
    ensures forall i :: n <= i < |open| ==> EdgeOf(WireFirst(nodes, open, n, t)[open[i].id], open[i].edge) == None
  {
    if n > 0 {
      WireKeepsFree(nodes, open, n - 1, t);
      forall i | n <= i < |open|
        ensures EdgeOf(WireFirst(nodes, open, n, t)[open[i].id], open[i].edge) == None
      {
        assert open[n - 1] != open[i];
      }
    }
  }

  /** An edge that is free and not among the ends wired stays free. */
  lemma {:induction false} WiredStaysFree(nodes: seq<Node>, open: seq<OpenEnd>, n: nat, e: OpenEnd, t: Id)
    requires n <= |open| && e.id < |nodes| && EdgeOf(nodes[e.id], e.edge) == None && e !in open
    ensures EdgeOf(WireFirst(nodes, open, n, t)[e.id], e.edge) == None
  {
    if n > 0 { WiredStaysFree(nodes, open, n - 1, e, t); }
  }

  // ---- the open ends of a step ----

  lemma {:induction false} OpensWithin(s: Step, c: Id, inArm: bool)
    ensures Within(Opens(s, c, inArm), c, c + Size(s, inArm))
    decreases s
  {
    if s.Signal? {
      OpensSeqWithin(s.escalation, |s.escalation|, c + 1, inArm);
      WithinConcat([OpenEnd(c, Next)], OpensSeq(s.escalation, |s.escalation|, c + 1, inArm), c, c + Size(s, inArm));
    } else if s.Choose? {
      OpensBlocksWithin(s.cases, |s.cases|, c + Guards(s.cases), inArm);
      WithinConcat(OpensBlocks(s.cases, |s.cases|, c + Guards(s.cases), inArm), LastAlt(s.cases, c), c,
                   c + Size(s, inArm));
    }
  }

  lemma WithinConcat(a: seq<OpenEnd>, b: seq<OpenEnd>, lo: Id, hi: Id)
    requires Within(a, lo, hi) && Within(b, lo, hi)
    ensures Within(a + b, lo, hi)
  {}

  lemma {:induction false} OpensSeqWithin(steps: seq<Step>, n: nat, c: Id, inArm: bool)
    requires n <= |steps|
    ensures Within(OpensSeq(steps, n, c, inArm), c, c + SizeSeq(steps, n, inArm))
    decreases steps, n
  {
    if n > 0 { OpensWithin(steps[n - 1], c + SizeSeq(steps, n - 1, inArm), inArm); }
  }

  lemma {:induction false} OpensBlocksWithin(blocks: seq<Block>, n: nat, c: Id, inArm: bool)
    requires n <= |blocks|
    ensures Within(OpensBlocks(blocks, n, c, inArm), c, c + SizeBlocks(blocks, n, inArm))
    decreases blocks, n
  {
    if n > 0 {
      var steps := blocks[n - 1].steps;
      OpensBlocksWithin(blocks, n - 1, c, inArm);
      OpensSeqWithin(steps, |steps|, c + SizeBlocks(blocks, n - 1, inArm), inArm);
    }
  }

  /** A step of a sound shape leaves an edge open: the flow always goes on somewhere. */
  lemma {:induction false} OpensSomething(s: Step, c: Id, inArm: bool)
    requires Shape(s)
    ensures Opens(s, c, inArm) != []
    decreases s
  {
    match s
    case Choose(cases) =>
      var n, last := |cases| - 1, cases[|cases| - 1].steps;
      assert ShapeSeq(last) && Shape(last[|last| - 1]);
      var c' := c + Guards(cases) + SizeBlocks(cases, n, inArm);
      OpensSomething(last[|last| - 1], c' + SizeSeq(last, |last| - 1, inArm), inArm);
      assert OpensSeq(last, |last|, c', inArm) != [];
    case _ =>
  }

  // ---- back-patching agrees with the one-pass layout ----

  /** `shut` is `open`, laid out after `pre`, with the given ends wired. */
  ghost predicate Shuts(pre: seq<Node>, open: seq<Node>, shut: seq<Node>, ends: seq<OpenEnd>, t: Id) {
    WireAll(pre + open, ends, t) == pre + shut
  }

  lemma ShutsNothing(pre: seq<Node>, nodes: seq<Node>, t: Id)
    ensures Shuts(pre, nodes, nodes, [], t)
  {}

  lemma ShutsAfter(pre: seq<Node>, head: seq<Node>, open: seq<Node>, shut: seq<Node>, ends: seq<OpenEnd>, t: Id)
    requires Shuts(pre + head, open, shut, ends, t)
    ensures Shuts(pre, head + open, head + shut, ends, t)
  {
    assert pre + (head + open) == (pre + head) + open;
    assert pre + (head + shut) == (pre + head) + shut;
  }

  lemma ShutsBefore(pre: seq<Node>, open: seq<Node>, shut: seq<Node>, rest: seq<Node>, ends: seq<OpenEnd>, t: Id)
    requires Shuts(pre, open, shut, ends, t) && Within(ends, 0, |pre| + |open|)
    ensures Shuts(pre, open + rest, shut + rest, ends, t)
  {
    assert pre + (open + rest) == (pre + open) + rest;
    assert pre + (shut + rest) == (pre + shut) + rest;
    WireFirstPrefix(pre + open, rest, ends, |ends|, t);
  }

  lemma ShutsThen(pre: seq<Node>, a: seq<Node>, b: seq<Node>, d: seq<Node>, ends: seq<OpenEnd>, more: seq<OpenEnd>,
                  t: Id)
    requires Shuts(pre, a, b, ends, t) && Shuts(pre, b, d, more, t)
    ensures Shuts(pre, a, d, ends + more, t)
  {
    hide WireFirst;
    WireFirstConcat(pre + a, ends, more, |ends| + |more|, t);
    if more == [] { WireNone(pre + b, more, t); }
  }

  /** First the front's ends, then the back's. */
  lemma ShutsPair(pre: seq<Node>, a: seq<Node>, a': seq<Node>, b: seq<Node>, b': seq<Node>, ends: seq<OpenEnd>,
                  more: seq<OpenEnd>, t: Id)
    requires Shuts(pre, a, a', ends, t) && Within(ends, 0, |pre| + |a|)
    requires Shuts(pre + a', b, b', more, t)
    ensures Shuts(pre, a + b, a' + b', ends + more, t)
  {
    ShutsBefore(pre, a, a', b, ends, t);
    ShutsAfter(pre, a', b, b', more, t);
    ShutsThen(pre, a + b, a' + b, a' + b', ends, more, t);
  }

  /** First the back's ends, then the front's. */
  lemma ShutsBack(pre: seq<Node>, a: seq<Node>, a': seq<Node>, b: seq<Node>, b': seq<Node>, ends: seq<OpenEnd>,
                  more: seq<OpenEnd>, t: Id)
    requires Shuts(pre + a, b, b', ends, t)
    requires Shuts(pre, a, a', more, t) && Within(more, 0, |pre| + |a|)
    ensures Shuts(pre, a + b, a' + b', ends + more, t)
  {
    ShutsAfter(pre, a, b, b', ends, t);
    ShutsBefore(pre, a, a', b', more, t);
    ShutsThen(pre, a + b, a + b', a' + b', ends, more, t);
  }

  lemma ShutsOne(pre: seq<Node>, open: seq<Node>, shut: seq<Node>, e: OpenEnd, t: Id)
    requires |open| == |shut| && |pre| <= e.id < |pre| + |open|
    requires shut == open[e.id - |pre| := Patch(open[e.id - |pre|], e.edge, t)]
    ensures Shuts(pre, open, shut, [e], t)
  {
    assert WireFirst(pre + open, [e], 0, t) == pre + open;
    assert Wire(pre + open, e, t) == pre + shut;
  }

  lemma {:induction false} WireEmit(env: Env, pre: seq<Node>, s: Step, j: Option<Id>, t: Id)
    ensures Shuts(pre, Emit(env, s, |pre|, None, j), Emit(env, s, |pre|, Some(t), j), Opens(s, |pre|, j.Some?), t)
    decreases s
  {
    if s.Signal? {
      WireSignal(env, pre, s, j, t);
    } else if s.Choose? {
      WireChoose(env, pre, s, j, t);
    } else {
      ShutsOne(pre, Emit(env, s, |pre|, None, j), Emit(env, s, |pre|, Some(t), j), Opens(s, |pre|, j.Some?)[0], t);
    }
  }

  lemma {:induction false} WireChoose(env: Env, pre: seq<Node>, s: Step, j: Option<Id>, t: Id)
    requires s.Choose?
    ensures Shuts(pre, Emit(env, s, |pre|, None, j), Emit(env, s, |pre|, Some(t), j), Opens(s, |pre|, j.Some?), t)
    decreases s.cases, |s.cases| + 1
  {
    var cases, c := s.cases, |pre| + Guards(s.cases);
    var open, shut := EmitGuards(env, cases, |pre|, None, j.Some?), EmitGuards(env, cases, |pre|, Some(t), j.Some?);
    WireEmitBlocks(env, pre + open, cases, |cases|, j, t);
    WireGuards(env, cases, pre, j.Some?, t);
    ShutsBack(pre, open, shut, EmitBlocks(env, cases, |cases|, c, None, j),
              EmitBlocks(env, cases, |cases|, c, Some(t), j),
              OpensBlocks(cases, |cases|, c, j.Some?), LastAlt(cases, |pre|), t);
  }

  lemma {:induction false} WireSignal(env: Env, pre: seq<Node>, s: Step, j: Option<Id>, t: Id)
    requires s.Signal?
    ensures Shuts(pre, Emit(env, s, |pre|, None, j), Emit(env, s, |pre|, Some(t), j), Opens(s, |pre|, j.Some?), t)
    decreases s.escalation, |s.escalation| + 1
  {
    var c, esc := |pre|, s.escalation;
    var open, shut := Emit(env, s, c, None, j)[..1], Emit(env, s, c, Some(t), j)[..1];
    var inner, inner' := EmitSeq(env, esc, |esc|, c + 1, None, j), EmitSeq(env, esc, |esc|, c + 1, Some(t), j);
    assert Emit(env, s, c, None, j) == open + inner && Emit(env, s, c, Some(t), j) == shut + inner';
    ShutsOne(pre, open, shut, OpenEnd(c, Next), t);
    WireEmitSeq(env, pre + shut, esc, |esc|, j, t);
    ShutsPair(pre, open, shut, inner, inner', [OpenEnd(c, Next)], OpensSeq(esc, |esc|, c + 1, j.Some?), t);
  }

  /** Without an otherwise, the last guard's false edge leaves the choice. */
  lemma WireGuards(env: Env, cases: seq<Block>, pre: seq<Node>, inArm: bool, t: Id)
    ensures Shuts(pre, EmitGuards(env, cases, |pre|, None, inArm), EmitGuards(env, cases, |pre|, Some(t), inArm),
                  LastAlt(cases, |pre|), t)
    ensures Within(LastAlt(cases, |pre|), |pre|, |pre| + Guards(cases))
  {
    var open, shut := EmitGuards(env, cases, |pre|, None, inArm), EmitGuards(env, cases, |pre|, Some(t), inArm);
    if LastAlt(cases, |pre|) == [] {
      assert open == shut;
    } else {
      ShutsOne(pre, open, shut, LastAlt(cases, |pre|)[0], t);
    }
  }

  lemma {:induction false} WireEmitSeq(env: Env, pre: seq<Node>, steps: seq<Step>, n: nat, j: Option<Id>, t: Id)
    requires n <= |steps|
    ensures Shuts(pre, EmitSeq(env, steps, n, |pre|, None, j), EmitSeq(env, steps, n, |pre|, Some(t), j),
                  OpensSeq(steps, n, |pre|, j.Some?), t)
    decreases steps, n
  {
    if n == 0 {
      ShutsNothing(pre, [], t);
    } else {
      var s, c' := steps[n - 1], |pre| + SizeSeq(steps, n - 1, j.Some?);
      var before := EmitSeq(env, steps, n - 1, |pre|, Some(Entry(s, c')), j);
      WireEmit(env, pre + before, s, j, t);
      ShutsAfter(pre, before, Emit(env, s, c', None, j), Emit(env, s, c', Some(t), j), Opens(s, c', j.Some?), t);
    }
  }

  lemma {:induction false} WireEmitBlocks(env: Env, pre: seq<Node>, blocks: seq<Block>, n: nat, j: Option<Id>, t: Id)
    requires n <= |blocks|
    ensures Shuts(pre, EmitBlocks(env, blocks, n, |pre|, None, j), EmitBlocks(env, blocks, n, |pre|, Some(t), j),
                  OpensBlocks(blocks, n, |pre|, j.Some?), t)
    decreases blocks, n
  {
    hide EmitSeq, OpensSeq, SizeSeq, Shuts, Within;
    if n == 0 {
      ShutsNothing(pre, [], t);
    } else {
      var steps, inArm := blocks[n - 1].steps, j.Some?;
      var c' := |pre| + SizeBlocks(blocks, n - 1, inArm);
      var before := EmitBlocks(env, blocks, n - 1, |pre|, Some(t), j);
      WireEmitBlocks(env, pre, blocks, n - 1, j, t);
      OpensBlocksWithin(blocks, n - 1, |pre|, inArm);
      WireEmitSeq(env, pre + before, steps, |steps|, j, t);
      ShutsPair(pre, EmitBlocks(env, blocks, n - 1, |pre|, None, j), before,
                EmitSeq(env, steps, |steps|, c', None, j), EmitSeq(env, steps, |steps|, c', Some(t), j),
                OpensBlocks(blocks, n - 1, |pre|, inArm), OpensSeq(steps, |steps|, c', inArm), t);
    }
  }

  // ---- the ends a step leaves open are free ----

  lemma FreeBoth(pre: seq<Node>, a: seq<Node>, b: seq<Node>, ends: seq<OpenEnd>, more: seq<OpenEnd>)
    requires AllFree(pre + a, ends) && Within(ends, |pre|, |pre| + |a|)
    requires AllFree((pre + a) + b, more) && Within(more, |pre| + |a|, |pre| + |a| + |b|)
    ensures AllFree(pre + (a + b), ends + more)
  {
    var all, nodes := ends + more, pre + (a + b);
    assert nodes == (pre + a) + b;
    forall i | 0 <= i < |all| ensures all[i].id < |nodes| && EdgeOf(nodes[all[i].id], all[i].edge) == None {
      if i < |ends| {
        assert all[i] == ends[i] && nodes[all[i].id] == (pre + a)[all[i].id];
      } else {
        assert all[i] == more[i - |ends|];
      }
    }
  }

  lemma FreeBack(pre: seq<Node>, a: seq<Node>, b: seq<Node>, ends: seq<OpenEnd>, more: seq<OpenEnd>)
    requires AllFree((pre + a) + b, ends) && Within(ends, |pre| + |a|, |pre| + |a| + |b|)
    requires AllFree(pre + a, more) && Within(more, |pre|, |pre| + |a|)
    ensures AllFree(pre + (a + b), ends + more)
  {
    var all, nodes := ends + more, pre + (a + b);
    assert nodes == (pre + a) + b;
    forall i | 0 <= i < |all| ensures all[i].id < |nodes| && EdgeOf(nodes[all[i].id], all[i].edge) == None {
      if i < |ends| {
        assert all[i] == ends[i];
      } else {
        assert all[i] == more[i - |ends|] && nodes[all[i].id] == (pre + a)[all[i].id];
      }
    }
  }

  lemma FreeOne(pre: seq<Node>, nodes: seq<Node>, e: OpenEnd)
    requires |pre| <= e.id < |pre| + |nodes| && EdgeOf(nodes[e.id - |pre|], e.edge) == None
    ensures AllFree(pre + nodes, [e])
  {}

  lemma {:induction false} FreeEmit(env: Env, pre: seq<Node>, s: Step, j: Option<Id>)
    ensures AllFree(pre + Emit(env, s, |pre|, None, j), Opens(s, |pre|, j.Some?))
    decreases s
  {
    if s.Signal? {
      FreeSignal(env, pre, s, j);
    } else if s.Choose? {
      FreeChoose(env, pre, s, j);
    } else {
      FreeOne(pre, Emit(env, s, |pre|, None, j), Opens(s, |pre|, j.Some?)[0]);
    }
  }

  lemma {:induction false} FreeSignal(env: Env, pre: seq<Node>, s: Step, j: Option<Id>)
    requires s.Signal?
    ensures AllFree(pre + Emit(env, s, |pre|, None, j), Opens(s, |pre|, j.Some?))
    decreases s.escalation, |s.escalation| + 1
  {
    var c, esc, head := |pre| + 1, s.escalation, Emit(env, s, |pre|, None, j)[..1];
    var inner := EmitSeq(env, esc, |esc|, c, None, j);
    FreeEmitSeq(env, pre + head, esc, |esc|, j);
    OpensSeqWithin(esc, |esc|, c, j.Some?);
    FreeOne(pre, head, OpenEnd(|pre|, Next));
    FreeBoth(pre, head, inner, [OpenEnd(|pre|, Next)], OpensSeq(esc, |esc|, c, j.Some?));
    assert Emit(env, s, |pre|, None, j) == head + inner;
  }

  lemma {:induction false} FreeChoose(env: Env, pre: seq<Node>, s: Step, j: Option<Id>)
    requires s.Choose?
    ensures AllFree(pre + Emit(env, s, |pre|, None, j), Opens(s, |pre|, j.Some?))
    decreases s.cases, |s.cases| + 1
  {
    hide EmitSeq, EmitBlocks, EmitGuards, OpensSeq, OpensBlocks, SizeBlocks, AllFree, Within, LastAlt;
    var cases, c, guards := s.cases, |pre| + Guards(s.cases), EmitGuards(env, s.cases, |pre|, None, j.Some?);
    FreeEmitBlocks(env, pre + guards, cases, |cases|, j);
    OpensBlocksWithin(cases, |cases|, c, j.Some?);
    FreeGuards(env, pre, cases, j.Some?);
    FreeBack(pre, guards, EmitBlocks(env, cases, |cases|, c, None, j), OpensBlocks(cases, |cases|, c, j.Some?),
             LastAlt(cases, |pre|));
  }

  lemma FreeGuards(env: Env, pre: seq<Node>, cases: seq<Block>, inArm: bool)
    ensures AllFree(pre + EmitGuards(env, cases, |pre|, None, inArm), LastAlt(cases, |pre|))
    ensures Within(LastAlt(cases, |pre|), |pre|, |pre| + Guards(cases))
  {
    if LastAlt(cases, |pre|) != [] {
      FreeOne(pre, EmitGuards(env, cases, |pre|, None, inArm), LastAlt(cases, |pre|)[0]);
    }
  }

  lemma {:induction false} FreeEmitSeq(env: Env, pre: seq<Node>, steps: seq<Step>, n: nat, j: Option<Id>)
    requires n <= |steps|
    ensures AllFree(pre + EmitSeq(env, steps, n, |pre|, None, j), OpensSeq(steps, n, |pre|, j.Some?))
    decreases steps, n
  {
    if n > 0 {
      var s, c' := steps[n - 1], |pre| + SizeSeq(steps, n - 1, j.Some?);
      var before := EmitSeq(env, steps, n - 1, |pre|, Some(Entry(s, c')), j);
      FreeEmit(env, pre + before, s, j);
      Assoc(pre, before, Emit(env, s, c', None, j));
    }
  }

  lemma NothingFree(nodes: seq<Node>)
    ensures AllFree(nodes, [])
  {}

  lemma {:induction false} FreeEmitBlocks(env: Env, pre: seq<Node>, blocks: seq<Block>, n: nat, j: Option<Id>)
    requires n <= |blocks|
    ensures AllFree(pre + EmitBlocks(env, blocks, n, |pre|, None, j), OpensBlocks(blocks, n, |pre|, j.Some?))
    decreases blocks, n
  {
    hide EmitSeq, OpensSeq, SizeSeq, Within, AllFree;
    if n == 0 {
      NothingFree(pre + []);
    } else {
      var steps, inArm := blocks[n - 1].steps, j.Some?;
      var c' := |pre| + SizeBlocks(blocks, n - 1, inArm);
      var before := EmitBlocks(env, blocks, n - 1, |pre|, None, j);
      FreeEmitBlocks(env, pre, blocks, n - 1, j);
      OpensBlocksWithin(blocks, n - 1, |pre|, inArm);
      FreeEmitSeq(env, pre + before, steps, |steps|, j);
      OpensSeqWithin(steps, |steps|, c', inArm);
      FreeBoth(pre, before, EmitSeq(env, steps, |steps|, c', None, j), OpensBlocks(blocks, n - 1, |pre|, inArm),
               OpensSeq(steps, |steps|, c', inArm));
    }
  }
}
