/**
 * Fork and join tokens, in every interleaving: they add up, and none is stranded.
 * A marking counts the tokens at each node. A FORK takes a token and puts one at the start of each branch; a JOIN
 * that expects n takes n and puts one after itself; every other node passes one token on. A forEach is followed here
 * for one item (or none): how many there are, and keeping their tokens apart, is the engine's. A signal with no
 * escalation that times out fails the run and is not a step.
 */
module Tokens {
  import opened Topology
  import opened Layout
  import opened WellFormed
  import opened Placement
  import opened Structure
  import Meaning

  type Marking = seq<nat>

  function Tok(m: Marking, u: Id): nat { if u < |m| then m[u] else 0 }

  function Put(m: Marking, u: Id): (r: Marking)
    ensures |r| == |m|
  {
    if u < |m| then m[u := m[u] + 1] else m
  }

  /** A token at each of the first n ids. */
  function PutFirst(m: Marking, ids: seq<Id>, n: nat): (r: Marking)
    requires n <= |ids|
    ensures |r| == |m|
  {
    if n == 0 then m else Put(PutFirst(m, ids, n - 1), ids[n - 1])
  }

  /** How many tokens a node takes when it fires. */
  function Takes(n: Node): nat {
    if n.kind == JOIN && n.info.Expected? && n.info.count > 0 then n.info.count else 1
  }

  function One(id: Option<Id>): seq<Id> { if id.Some? then [id.value] else [] }

  /** Where a node puts tokens when it fires; `yes` is the answer of a gate, guard, condition, signal or collection. */
  function Puts(g: seq<Node>, u: Id, yes: bool): seq<Id>
    requires u < |g|
  {
    var n := g[u];
    match n.kind
    case PREDICATE => One(if yes then n.next else n.alt)
    case SIGNAL => One(if yes then n.next else n.alt)
    case FORK => n.branches
    case DYN_FORK => if yes then n.branches else One(Meaning.PastCombine(g, n.next))
    case END => []
    case _ => One(n.next)
  }

  ghost predicate Enabled(g: seq<Node>, m: Marking, u: Id, yes: bool) {
    && |m| == |g| && u < |g| && g[u].kind != END && m[u] >= Takes(g[u])
    && (g[u].kind == SIGNAL && !yes ==> g[u].alt.Some?)
  }

  function Fire(g: seq<Node>, m: Marking, u: Id, yes: bool): (r: Marking)
    requires u < |g| == |m| && m[u] >= Takes(g[u])
    ensures |r| == |m|
  {
    var puts := Puts(g, u, yes);
    PutFirst(m[u := m[u] - Takes(g[u])], puts, |puts|)
  }

  // ---- how many tokens of the flow a step holds ----

  function Sum(m: Marking, c: Id, n: nat): nat {
    if n == 0 then 0 else Sum(m, c, n - 1) + Tok(m, c + n - 1)
  }

  /** A fork whose arms are under way stands for one token of the flow it is part of. */
  function Load(s: Step, c: Id, inArm: bool, m: Marking): nat
    decreases s
  {
    match s
    case Task(_, _, _, _, combine) => Sum(m, c, if combine == "" then 1 else 3)
    case Gate(_, _, _) => Sum(m, c, if inArm then 1 else 2)
    case Sleep(_, _) => Tok(m, c)
    case Signal(_, _, escalation) => Tok(m, c) + LoadSeq(escalation, |escalation|, c + 1, inArm, m)
    case SubFlow(_, _) => Tok(m, c)
    case Fork(arms, _) =>
      var busy := Tok(m, c + 1) + LoadBlocks(arms, |arms|, c + 2, true, m);
      Tok(m, c) + (if busy > 0 then 1 else 0) + Tok(m, c + 2 + SizeBlocks(arms, |arms|, true))
    case ForEach(_, _, body, _) =>
      Sum(m, c, 2) + LoadSeq(body, |body|, c + 2, true, m) + Tok(m, c + 2 + SizeSeq(body, |body|, true))
    case Choose(cases) => Sum(m, c, Guards(cases)) + LoadBlocks(cases, |cases|, c + Guards(cases), inArm, m)
    case Loop(_, _, body) => LoadSeq(body, |body|, c, inArm, m) + Tok(m, c + SizeSeq(body, |body|, inArm))
  }

  function LoadSeq(steps: seq<Step>, n: nat, c: Id, inArm: bool, m: Marking): nat
    requires n <= |steps|
    decreases steps, n
  {
    if n == 0 then 0
    else LoadSeq(steps, n - 1, c, inArm, m) + Load(steps[n - 1], c + SizeSeq(steps, n - 1, inArm), inArm, m)
  }

  function LoadBlocks(blocks: seq<Block>, n: nat, c: Id, inArm: bool, m: Marking): nat
    requires n <= |blocks|
    decreases blocks, n
  {
    if n == 0 then 0
    else LoadBlocks(blocks, n - 1, c, inArm, m) + LoadBlock(blocks, n - 1, c, inArm, m)
  }

  function LoadBlock(blocks: seq<Block>, i: nat, c: Id, inArm: bool, m: Marking): nat
    requires i < |blocks|
    decreases blocks[i].steps, |blocks[i].steps| + 1
  {
    LoadSeq(blocks[i].steps, |blocks[i].steps|, c + SizeBlocks(blocks, i, inArm), inArm, m)
  }

  /**
   * The tokens of every fork add up: while its arms are under way, those still in an arm (at most one each) and
   * those waiting at the join are one for each arm.
   */
  ghost predicate Sound(s: Step, c: Id, inArm: bool, m: Marking)
    decreases s
  {
    match s
    case Signal(_, _, escalation) => SoundSeq(escalation, |escalation|, c + 1, inArm, m)
    case Fork(arms, _) =>
      && Tok(m, c + 1) + LoadBlocks(arms, |arms|, c + 2, true, m) in {0, |arms|}
      && Light(arms, |arms|, c + 2, true, m)
      && SoundBlocks(arms, |arms|, c + 2, true, m)
    case ForEach(_, _, body, _) => SoundSeq(body, |body|, c + 2, true, m)
    case Choose(cases) => SoundBlocks(cases, |cases|, c + Guards(cases), inArm, m)
    case Loop(_, _, body) => SoundSeq(body, |body|, c, inArm, m)
    case _ => true
  }

  ghost predicate SoundSeq(steps: seq<Step>, n: nat, c: Id, inArm: bool, m: Marking)
    requires n <= |steps|
    decreases steps, n
  {
    n > 0 ==> SoundSeq(steps, n - 1, c, inArm, m) && Sound(steps[n - 1], c + SizeSeq(steps, n - 1, inArm), inArm, m)
  }

  ghost predicate SoundBlocks(blocks: seq<Block>, n: nat, c: Id, inArm: bool, m: Marking)
    requires n <= |blocks|
    decreases blocks, n
  {
    n > 0 ==>
      && SoundBlocks(blocks, n - 1, c, inArm, m)
      && SoundSeq(blocks[n - 1].steps, |blocks[n - 1].steps|, c + SizeBlocks(blocks, n - 1, inArm), inArm, m)
  }

  /** Each of the first n blocks holds one token at most. */
  ghost predicate Light(blocks: seq<Block>, n: nat, c: Id, inArm: bool, m: Marking)
    requires n <= |blocks|
    decreases blocks, n
  {
    n > 0 ==> Light(blocks, n - 1, c, inArm, m) && LoadBlock(blocks, n - 1, c, inArm, m) <= 1
  }

  // ---- only a step's own nodes matter to it ----

  ghost predicate SameOn(a: Marking, b: Marking, lo: Id, hi: Id) {
    forall u: Id :: lo <= u < hi ==> Tok(a, u) == Tok(b, u)
  }

  lemma {:induction false} SumSame(a: Marking, b: Marking, c: Id, n: nat)
    requires SameOn(a, b, c, c + n)
    ensures Sum(a, c, n) == Sum(b, c, n)
  {
    if n > 0 { SumSame(a, b, c, n - 1); }
  }

  lemma {:induction false} LoadSame(s: Step, c: Id, inArm: bool, a: Marking, b: Marking)
    requires SameOn(a, b, c, c + Size(s, inArm))
    ensures Load(s, c, inArm, a) == Load(s, c, inArm, b) && (Sound(s, c, inArm, a) <==> Sound(s, c, inArm, b))
    decreases s
  {
    hide LoadSeq, LoadBlocks, SoundSeq, SoundBlocks, Light, Sum, SizeSeq, SizeBlocks;
    match s
    case Task(_, _, _, _, combine) => SumSame(a, b, c, if combine == "" then 1 else 3);
    case Gate(_, _, _) => SumSame(a, b, c, if inArm then 1 else 2);
    case Sleep(_, _) =>
    case SubFlow(_, _) =>
    case Signal(_, _, escalation) => LoadSeqSame(escalation, |escalation|, c + 1, inArm, a, b);
    case Fork(arms, _) => LoadBlocksSame(arms, |arms|, c + 2, true, a, b);
    case ForEach(_, _, body, _) =>
      SumSame(a, b, c, 2);
      LoadSeqSame(body, |body|, c + 2, true, a, b);
    case Choose(cases) =>
      SumSame(a, b, c, Guards(cases));
      LoadBlocksSame(cases, |cases|, c + Guards(cases), inArm, a, b);
    case Loop(_, _, body) => LoadSeqSame(body, |body|, c, inArm, a, b);
  }

  lemma {:induction false} LoadSeqSame(steps: seq<Step>, n: nat, c: Id, inArm: bool, a: Marking, b: Marking)
    requires n <= |steps| && SameOn(a, b, c, c + SizeSeq(steps, n, inArm))
    ensures LoadSeq(steps, n, c, inArm, a) == LoadSeq(steps, n, c, inArm, b)
    ensures SoundSeq(steps, n, c, inArm, a) <==> SoundSeq(steps, n, c, inArm, b)
    decreases steps, n
  {
    hide Load, Sound, Size;
    if n > 0 {
      LoadSeqSame(steps, n - 1, c, inArm, a, b);
      LoadSame(steps[n - 1], c + SizeSeq(steps, n - 1, inArm), inArm, a, b);
    }
  }

  lemma {:induction false} LoadBlocksSame(blocks: seq<Block>, n: nat, c: Id, inArm: bool, a: Marking, b: Marking)
    requires n <= |blocks| && SameOn(a, b, c, c + SizeBlocks(blocks, n, inArm))
    ensures LoadBlocks(blocks, n, c, inArm, a) == LoadBlocks(blocks, n, c, inArm, b)
    ensures SoundBlocks(blocks, n, c, inArm, a) <==> SoundBlocks(blocks, n, c, inArm, b)
    ensures Light(blocks, n, c, inArm, a) <==> Light(blocks, n, c, inArm, b)
    decreases blocks, n
  {
    hide LoadSeq, SoundSeq, SizeSeq;
    if n > 0 {
      LoadBlocksSame(blocks, n - 1, c, inArm, a, b);
      LoadSeqSame(blocks[n - 1].steps, |blocks[n - 1].steps|, c + SizeBlocks(blocks, n - 1, inArm), inArm, a, b);
    }
  }

  // ---- a token enters a step that holds none ----

  lemma {:induction false} EnterStep(env: Env, g: seq<Node>, s: Step, c: Id, k: Id, j: Option<Id>, m: Marking)
    requires Shape(s) && At(env, g, s, c, k, j) && |m| == |g|
    requires Sound(s, c, j.Some?, m) && Load(s, c, j.Some?, m) == 0
    ensures var m' := Put(m, Entry(s, c)); Sound(s, c, j.Some?, m') && Load(s, c, j.Some?, m') == 1
    decreases s
  {
    hide Emit, EmitSeq, EmitBlocks, Sum;
    EntryIsStep(env, g, s, c, k, j);
    match s
    case Loop(_, _, body) =>
      var mid := c + SizeSeq(body, |body|, j.Some?);
      LoopParts(env, g, s, c, k, j);
      EnterSeq(env, g, body, c, mid, j, m);
      EntrySeqIsStep(env, g, body, c, mid, j);
    case Choose(_) => EnterChoose(s, c, j.Some?, m);
    case Fork(_, _) => EnterFork(s, c, j.Some?, m);
    case ForEach(_, _, _, _) => EnterForEach(s, c, j.Some?, m);
    case _ => EnterPlain(s, c, j.Some?, m);
  }

  lemma EnterChoose(s: Step, c: Id, inArm: bool, m: Marking)
    requires c < |m| && s.Choose? && Shape(s) && Sound(s, c, inArm, m) && Load(s, c, inArm, m) == 0
    ensures Sound(s, c, inArm, Put(m, c)) && Load(s, c, inArm, Put(m, c)) == 1
  {
    SumPut(m, c, Guards(s.cases), c);
    LoadBlocksSame(s.cases, |s.cases|, c + Guards(s.cases), inArm, m, Put(m, c));
  }

  lemma EnterFork(s: Step, c: Id, inArm: bool, m: Marking)
    requires c < |m| && s.Fork? && Sound(s, c, inArm, m) && Load(s, c, inArm, m) == 0
    ensures Sound(s, c, inArm, Put(m, c)) && Load(s, c, inArm, Put(m, c)) == 1
  {
    LoadBlocksSame(s.arms, |s.arms|, c + 2, true, m, Put(m, c));
  }

  lemma EnterForEach(s: Step, c: Id, inArm: bool, m: Marking)
    requires c < |m| && s.ForEach? && Sound(s, c, inArm, m) && Load(s, c, inArm, m) == 0
    ensures Sound(s, c, inArm, Put(m, c)) && Load(s, c, inArm, Put(m, c)) == 1
  {
    SumPut(m, c, 2, c);
    LoadSeqSame(s.body, |s.body|, c + 2, true, m, Put(m, c));
  }

  lemma EnterPlain(s: Step, c: Id, inArm: bool, m: Marking)
    requires c < |m| && (s.Task? || s.Gate? || s.Sleep? || s.SubFlow? || s.Signal?)
    requires Sound(s, c, inArm, m) && Load(s, c, inArm, m) == 0
    ensures Sound(s, c, inArm, Put(m, c)) && Load(s, c, inArm, Put(m, c)) == 1
  {
    match s
    case Task(_, _, _, _, combine) => SumPut(m, c, if combine == "" then 1 else 3, c);
    case Gate(_, _, _) => SumPut(m, c, if inArm then 1 else 2, c);
    case Signal(_, _, escalation) => LoadSeqSame(escalation, |escalation|, c + 1, inArm, m, Put(m, c));
    case _ =>
  }

  lemma {:induction false} SumPut(m: Marking, c: Id, n: nat, u: Id)
    requires c <= u < c + n && u < |m|
    ensures Sum(Put(m, u), c, n) == Sum(m, c, n) + 1
  {
    if u == c + n - 1 {
      SumSame(m, Put(m, u), c, n - 1);
    } else {
      SumPut(m, c, n - 1, u);
    }
  }

  lemma {:induction false} EnterSeq(env: Env, g: seq<Node>, steps: seq<Step>, c: Id, k: Id, j: Option<Id>, m: Marking)
    requires ShapeSeq(steps) && AtSeq(env, g, steps, c, k, j) && |m| == |g| && steps != []
    requires SoundSeq(steps, |steps|, c, j.Some?, m) && LoadSeq(steps, |steps|, c, j.Some?, m) == 0
    ensures var m' := Put(m, EntrySeq(steps, c));
            SoundSeq(steps, |steps|, c, j.Some?, m') && LoadSeq(steps, |steps|, c, j.Some?, m') == 1
    decreases steps, |steps| + 1
  {
    EnterFirst(env, g, steps, |steps|, c, k, j, m);
  }

  lemma {:induction false} EnterFirst(env: Env, g: seq<Node>, steps: seq<Step>, n: nat, c: Id, k: Id, j: Option<Id>,
                                      m: Marking)
    requires 0 < n <= |steps| && ShapeSeq(steps) && AtSeq(env, g, steps, c, k, j) && |m| == |g|
    requires SoundSeq(steps, n, c, j.Some?, m) && LoadSeq(steps, n, c, j.Some?, m) == 0
    ensures var m' := Put(m, EntrySeq(steps, c));
            SoundSeq(steps, n, c, j.Some?, m') && LoadSeq(steps, n, c, j.Some?, m') == 1
    decreases steps, n
  {
    hide Emit, EmitSeq, Load, Sound, Size;
    var m', inArm := Put(m, EntrySeq(steps, c)), j.Some?;
    var ci := c + SizeSeq(steps, n - 1, inArm);
    if n == 1 {
      StepOf(env, g, steps, 0, c, k, j);
      EnterStep(env, g, steps[0], c, Cont(steps, 0, c, k, inArm), j, m);
    } else {
      EnterFirst(env, g, steps, n - 1, c, k, j, m);
      FirstEntry(env, g, steps, n - 1, c, k, j);
      LoadSame(steps[n - 1], ci, inArm, m, m');
    }
  }

  /** The entry of a sequence lies in its first steps. */
  lemma FirstEntry(env: Env, g: seq<Node>, steps: seq<Step>, n: nat, c: Id, k: Id, j: Option<Id>)
    requires 0 < n <= |steps| && ShapeSeq(steps) && AtSeq(env, g, steps, c, k, j)
    ensures c <= EntrySeq(steps, c) < c + SizeSeq(steps, n, j.Some?)
  {
    hide Emit, EmitSeq, Entry, Size;
    StepOf(env, g, steps, 0, c, k, j);
    EntryIsStep(env, g, steps[0], c, Cont(steps, 0, c, k, j.Some?), j);
    SizeGrows(steps, 1, n, j.Some?);
    assert SizeSeq(steps, 0, j.Some?) == 0;
  }

  // ---- blocks ----

  lemma {:induction false} BlockShare(blocks: seq<Block>, n: nat, i: nat, c: Id, inArm: bool, m: Marking)
    requires i < n <= |blocks|
    ensures LoadBlock(blocks, i, c, inArm, m) <= LoadBlocks(blocks, n, c, inArm, m)
  {
    hide LoadBlock;
    if i < n - 1 { BlockShare(blocks, n - 1, i, c, inArm, m); }
  }

  lemma {:induction false} LightWhenFew(blocks: seq<Block>, n: nat, c: Id, inArm: bool, m: Marking)
    requires n <= |blocks| && LoadBlocks(blocks, n, c, inArm, m) <= 1
    ensures Light(blocks, n, c, inArm, m)
  {
    hide LoadBlock;
    if n > 0 { LightWhenFew(blocks, n - 1, c, inArm, m); }
  }

  /** A token enters a block that holds none; the other blocks keep theirs. */
  lemma {:induction false} EnterBlock(env: Env, g: seq<Node>, blocks: seq<Block>, n: nat, i: nat, c: Id, k: Id,
                                      j: Option<Id>,
                                      m: Marking)
    requires i < n <= |blocks| && ShapeBlocks(blocks) && |m| == |g|
    requires Has(g, c, EmitBlocks(env, blocks, |blocks|, c, Some(k), j))
    requires SoundBlocks(blocks, n, c, j.Some?, m) && Light(blocks, n, c, j.Some?, m)
    requires LoadBlock(blocks, i, c, j.Some?, m) == 0
    ensures var m', inArm := Put(m, BlockStart(blocks, i, c, j.Some?)), j.Some?;
            && SoundBlocks(blocks, n, c, inArm, m') && Light(blocks, n, c, inArm, m')
            && LoadBlocks(blocks, n, c, inArm, m') == LoadBlocks(blocks, n, c, inArm, m) + 1
            && (forall x :: i < x < n ==> LoadBlock(blocks, x, c, inArm, m') == LoadBlock(blocks, x, c, inArm, m))
    decreases n
  {
    hide Emit, EmitSeq, EmitBlocks, Sound, Load, SoundSeq, LoadSeq, SizeSeq, EntrySeq, BlockStart, Has, ShapeSeq, Put;
    var m', inArm := Put(m, BlockStart(blocks, i, c, j.Some?)), j.Some?;
    var steps, ci := blocks[n - 1].steps, c + SizeBlocks(blocks, n - 1, inArm);
    BlockEntry(env, g, blocks, i, c, k, j);
    PutElsewhere(m, BlockStart(blocks, i, c, inArm));
    if i == n - 1 {
      BlockPart(env, g, blocks, |blocks|, i, c, k, j);
      EnterSeq(env, g, steps, ci, k, j, m);
      LoadBlocksSame(blocks, n - 1, c, inArm, m, m');
    } else {
      EnterBlock(env, g, blocks, n - 1, i, c, k, j, m);
      SizeBlocksGrows(blocks, i + 1, n - 1, inArm);
      LoadSeqSame(steps, |steps|, ci, inArm, m, m');
    }
  }

  lemma PutElsewhere(m: Marking, u: Id)
    ensures forall v: Id :: v != u ==> Tok(Put(m, u), v) == Tok(m, v)
  {}

  lemma BlockEntry(env: Env, g: seq<Node>, blocks: seq<Block>, i: nat, c: Id, k: Id, j: Option<Id>)
    requires i < |blocks| && ShapeBlocks(blocks) && Has(g, c, EmitBlocks(env, blocks, |blocks|, c, Some(k), j))
    ensures c + SizeBlocks(blocks, i, j.Some?) <= BlockStart(blocks, i, c, j.Some?) <
            c + SizeBlocks(blocks, i + 1, j.Some?) <= |g|
    ensures BlockStart(blocks, i, c, j.Some?) == EntrySeq(blocks[i].steps, c + SizeBlocks(blocks, i, j.Some?))
  {
    hide Emit, EmitSeq, EmitBlocks, EntrySeq;
    BlockPart(env, g, blocks, |blocks|, i, c, k, j);
    EntrySeqIsStep(env, g, blocks[i].steps, c + SizeBlocks(blocks, i, j.Some?), k, j);
  }

  /** A fork puts a token in every arm, none of which held one. */
  lemma {:induction false} EnterAll(env: Env, g: seq<Node>, arms: seq<Block>, n: nat, c: Id, join: Id, m: Marking)
    requires n <= |arms| && ShapeBlocks(arms) && |m| == |g|
    requires Has(g, c, EmitBlocks(env, arms, |arms|, c, Some(join), Some(join)))
    requires SoundBlocks(arms, |arms|, c, true, m) && LoadBlocks(arms, |arms|, c, true, m) == 0
    ensures var m' := PutFirst(m, Starts(arms, |arms|, c, true), n);
            && SoundBlocks(arms, |arms|, c, true, m') && Light(arms, |arms|, c, true, m')
            && LoadBlocks(arms, |arms|, c, true, m') == n
            && (forall i :: n <= i < |arms| ==> LoadBlock(arms, i, c, true, m') == 0)
    decreases n
  {
    hide EmitBlocks, SoundBlocks, Light, LoadBlocks, LoadBlock, BlockStart, Put, SizeBlocks;
    if n == 0 {
      LightWhenFew(arms, |arms|, c, true, m);
      forall i | 0 <= i < |arms| ensures LoadBlock(arms, i, c, true, m) == 0 {
        BlockShare(arms, |arms|, i, c, true, m);
      }
    } else {
      EnterAll(env, g, arms, n - 1, c, join, m);
      EnterBlock(env, g, arms, |arms|, n - 1, c, join, Some(join), PutFirst(m, Starts(arms, |arms|, c, true), n - 1));
    }
  }
}
