/** A reference compiler, which lays a tree out in one pass and never patches an edge. */
module Layout {
  import opened Topology

  // Every step occupies a contiguous run of ids, and is laid out with the id its flow goes on to (`k`) and the join
  // around it (`j`, None at the top level) known in advance. With `k` None the edges that leave the step are left open.

  // ---- how many nodes a step takes ----

  function Size(s: Step, inArm: bool): nat
    decreases s
  {
    match s
    case Task(_, _, _, _, combine) => if combine == "" then 1 else 3
    case Gate(_, _, _) => if inArm then 1 else 2
    case Sleep(_, _) => 1
    case Signal(_, _, escalation) => 1 + SizeSeq(escalation, |escalation|, inArm)
    case SubFlow(_, _) => 1
    case Fork(arms, _) => 3 + SizeBlocks(arms, |arms|, true)
    case ForEach(_, _, body, _) => 3 + SizeSeq(body, |body|, true)
    case Choose(cases) => Guards(cases) + SizeBlocks(cases, |cases|, inArm)
    case Loop(_, _, body) => SizeSeq(body, |body|, inArm) + 1
  }

  /** The first n steps. */
  function SizeSeq(steps: seq<Step>, n: nat, inArm: bool): nat
    requires n <= |steps|
    decreases steps, n
  {
    if n == 0 then 0 else SizeSeq(steps, n - 1, inArm) + Size(steps[n - 1], inArm)
  }

  /** The first n blocks. */
  function SizeBlocks(blocks: seq<Block>, n: nat, inArm: bool): nat
    requires n <= |blocks|
    decreases blocks, n
  {
    if n == 0 then 0
    else SizeBlocks(blocks, n - 1, inArm) + SizeSeq(blocks[n - 1].steps, |blocks[n - 1].steps|, inArm)
  }

  // ---- where a step laid out from id c is entered ----

  function Entry(s: Step, c: Id): Id
    decreases s
  {
    match s
    case Loop(_, _, body) => EntrySeq(body, c)
    case _ => c
  }

  function EntrySeq(steps: seq<Step>, c: Id): Id
    decreases steps
  {
    if steps == [] then c else Entry(steps[0], c)
  }

  /** The entry of block i, of blocks laid out one after the other from c. */
  function BlockStart(blocks: seq<Block>, i: nat, c: Id, inArm: bool): Id
    requires i < |blocks|
  {
    EntrySeq(blocks[i].steps, c + SizeBlocks(blocks, i, inArm))
  }

  function Starts(blocks: seq<Block>, n: nat, c: Id, inArm: bool): (ids: seq<Id>)
    requires n <= |blocks|
    ensures |ids| == n
  {
    seq(n, i requires 0 <= i < n => BlockStart(blocks, i, c, inArm))
  }

  // ---- the nodes of a step ----

  function Emit(env: Env, s: Step, c: Id, k: Option<Id>, j: Option<Id>): (nodes: seq<Node>)
    ensures |nodes| == Size(s, j.Some?)
    decreases s
  {
    match s
    case Task(name, queue, retry, compensate, combine) =>
      var task := TaskNode(env, name, queue, retry, compensate);
      if combine == "" then [task.(next := k)]
      else [task.(next := Some(c + 1)), JoinNode(0).(next := Some(c + 2)),
            CollectNode(env, combine, SPAWN_PREFIX + name).(next := k)]
    case Gate(name, queue, retry) =>
      var gate := WorkerNode(env, PREDICATE, name, queue, retry).(next := k);
      if j.Some? then [gate.(alt := j)] else [gate.(alt := Some(c + 1)), EndNode(GatedReason(name))]
    case Sleep(name, d) => [TimerNode(SLEEP, SleepName(name, d), Millis(d)).(next := k)]
    case Signal(name, timeout, escalation) =>
      var signal := TimerNode(SIGNAL, name, Millis(timeout)).(next := k);
      if escalation == [] then [signal]
      else [signal.(alt := Some(EntrySeq(escalation, c + 1)))] + EmitSeq(env, escalation, |escalation|, c + 1, k, j)
    case SubFlow(name, workflow) => [SubFlowNode(SubFlowName(name, workflow), workflow).(next := k)]
    case Fork(arms, combine) =>
      EmitFork(env, arms, EmitBlocks(env, arms, |arms|, c + 2, Some(c + 1), Some(c + 1)), combine, c, k)
    case ForEach(name, itemsKey, body, combine) =>
      EmitForEach(env, ForEachName(name, itemsKey), itemsKey, EntrySeq(body, c + 2),
                  EmitSeq(env, body, |body|, c + 2, Some(c + 1), Some(c + 1)), combine, c, k)
    case Choose(cases) =>
      EmitGuards(env, cases, c, k, j.Some?) + EmitBlocks(env, cases, |cases|, c + Guards(cases), k, j)
    case Loop(cond, maxIterations, body) =>
      EmitSeq(env, body, |body|, c, Some(c + SizeSeq(body, |body|, j.Some?)), j) +
      [ConditionNode(env, cond, maxIterations).(next := Some(EntrySeq(body, c)), alt := k)]
  }

  /** The first n steps, each going on to the next, and the last of them to k. */
  function EmitSeq(env: Env, steps: seq<Step>, n: nat, c: Id, k: Option<Id>, j: Option<Id>): (nodes: seq<Node>)
    requires n <= |steps|
    ensures |nodes| == SizeSeq(steps, n, j.Some?)
    decreases steps, n
  {
    if n == 0 then []
    else
      var c' := c + SizeSeq(steps, n - 1, j.Some?);
      EmitSeq(env, steps, n - 1, c, Some(Entry(steps[n - 1], c')), j) + Emit(env, steps[n - 1], c', k, j)
  }

  /** The first n blocks, laid out side by side, all going on to k. */
  function EmitBlocks(env: Env, blocks: seq<Block>, n: nat, c: Id, k: Option<Id>, j: Option<Id>): (nodes: seq<Node>)
    requires n <= |blocks|
    ensures |nodes| == SizeBlocks(blocks, n, j.Some?)
    decreases blocks, n
  {
    if n == 0 then []
    else
      EmitBlocks(env, blocks, n - 1, c, k, j) +
      EmitSeq(env, blocks[n - 1].steps, |blocks[n - 1].steps|, c + SizeBlocks(blocks, n - 1, j.Some?), k, j)
  }

  /** A whole flow: its steps from id 0, going on to the final END. */
  function Program(env: Env, steps: seq<Step>): (nodes: seq<Node>)
    ensures |nodes| == SizeSeq(steps, |steps|, false) + 1
  {
    EmitSeq(env, steps, |steps|, 0, Some(SizeSeq(steps, |steps|, false)), None) + [EndNode("")]
  }

  /** Steps without a queue of their own run on the flow's default queue, or else on the queue of its name. */
  function FlowEnv(name: string, defaultQueue: string): Env {
    Env(name, if defaultQueue == "" then name else defaultQueue)
  }

  function EmitFork(env: Env, arms: seq<Block>, inner: seq<Node>, combine: string, c: Id, k: Option<Id>): seq<Node> {
    [ForkNode().(branches := Starts(arms, |arms|, c + 2, true)), JoinNode(|arms|).(next := Some(c + 2 + |inner|))] +
    inner +
    [CombineNode(env, combine, Tags(arms, |arms|)).(next := k)]
  }

  function EmitForEach(env: Env, name: string, itemsKey: string, start: Id, inner: seq<Node>, combine: string, c: Id,
                       k: Option<Id>): seq<Node> {
    [DynForkNode(name, itemsKey).(next := Some(c + 1), branches := [start]),
     JoinNode(0).(next := Some(c + 2 + |inner|))] +
    inner +
    [CollectNode(env, combine, FOR_EACH_PREFIX + name).(next := k)]
  }

  /** The guards of a choice: each goes on to its own case, or else to the next guard. */
  function EmitGuards(env: Env, cases: seq<Block>, c: Id, k: Option<Id>, inArm: bool): (nodes: seq<Node>)
    ensures |nodes| == Guards(cases)
  {
    seq(Guards(cases), i requires 0 <= i < Guards(cases) => EmitGuard(env, cases, i, c, k, inArm))
  }

  function EmitGuard(env: Env, cases: seq<Block>, i: nat, c: Id, k: Option<Id>, inArm: bool): Node
    requires i < Guards(cases)
  {
    WorkerNode(env, PREDICATE, cases[i].tag, "", NO_RETRY).(
      next := Some(BlockStart(cases, i, c + Guards(cases), inArm)),
      alt := if i + 1 < Guards(cases) then Some(c + i + 1)
             else if HasDefault(cases) then Some(BlockStart(cases, i + 1, c + Guards(cases), inArm)) else k)
  }

  function Tags(blocks: seq<Block>, n: nat): (tags: seq<string>)
    requires n <= |blocks|
    ensures |tags| == n
  {
    seq(n, i requires 0 <= i < n => blocks[i].tag)
  }

  function SleepName(name: string, d: Duration): string {
    if name == "" then "sleep-" + Decimal(Millis(d)) + "ms" else name
  }

  function SubFlowName(name: string, workflow: string): string {
    if name == "" then workflow else name
  }

  /** An integer in decimal, as fmt prints it. */
  function Decimal(n: int): string {
    if n < 0 then "-" + Digits(-n) else Digits(n)
  }

  function Digits(n: nat): string {
    if n < 10 then [Digit(n)] else Digits(n / 10) + [Digit(n % 10)]
  }

  function Digit(d: nat): char
    requires d < 10
  {
    "0123456789"[d]
  }

  // ---- the edges a step laid out with k None leaves open ----

  function Opens(s: Step, c: Id, inArm: bool): seq<OpenEnd>
    decreases s
  {
    match s
    case Task(_, _, _, _, combine) => [OpenEnd(if combine == "" then c else c + 2, Next)]
    case Gate(_, _, _) => [OpenEnd(c, Next)]
    case Sleep(_, _) => [OpenEnd(c, Next)]
    case Signal(_, _, escalation) => [OpenEnd(c, Next)] + OpensSeq(escalation, |escalation|, c + 1, inArm)
    case SubFlow(_, _) => [OpenEnd(c, Next)]
    case Fork(arms, _) => [OpenEnd(c + 2 + SizeBlocks(arms, |arms|, true), Next)]
    case ForEach(_, _, body, _) => [OpenEnd(c + 2 + SizeSeq(body, |body|, true), Next)]
    case Choose(cases) => OpensBlocks(cases, |cases|, c + Guards(cases), inArm) + LastAlt(cases, c)
    case Loop(_, _, body) => [OpenEnd(c + SizeSeq(body, |body|, inArm), Alt)]
  }

  /** Of the first n steps, the last leaves its own ends open. */
  function OpensSeq(steps: seq<Step>, n: nat, c: Id, inArm: bool): seq<OpenEnd>
    requires n <= |steps|
    decreases steps, n
  {
    if n == 0 then [] else Opens(steps[n - 1], c + SizeSeq(steps, n - 1, inArm), inArm)
  }

  function OpensBlocks(blocks: seq<Block>, n: nat, c: Id, inArm: bool): seq<OpenEnd>
    requires n <= |blocks|
    decreases blocks, n
  {
    if n == 0 then []
    else
      OpensBlocks(blocks, n - 1, c, inArm) +
      OpensSeq(blocks[n - 1].steps, |blocks[n - 1].steps|, c + SizeBlocks(blocks, n - 1, inArm), inArm)
  }

  /** Without an otherwise, the last guard's false edge leaves the choice. */
  function LastAlt(cases: seq<Block>, c: Id): seq<OpenEnd> {
    if HasDefault(cases) || cases == [] then [] else [OpenEnd(c + |cases| - 1, Alt)]
  }
}
