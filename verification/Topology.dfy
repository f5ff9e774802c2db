/** What a flow records and what it is compiled to: the tree of steps, and the nodes of the flat graph. */
module Topology {

  /** A Go time.Duration, in nanoseconds. */
  type Duration = int

  datatype Option<+T> = None | Some(value: T)

  datatype Result<+T, +E> = Ok(value: T) | Err(error: E) {
    predicate IsFailure() { Err? }
    function PropagateFailure<U>(): Result<U, E> requires Err? { Err(error) }
    function Extract(): T requires Ok? { value }
  }

  ghost predicate NoRepeats<T>(items: seq<T>) { forall i, x :: 0 <= i < x < |items| ==> items[i] != items[x] }

  /** Duration.Milliseconds: truncated toward zero, as Go's integer division is. */
  function Millis(d: Duration): int {
    if d >= 0 then d / 1_000_000 else -((-d) / 1_000_000)
  }

  /** A retry policy; the zero value, with no attempts, means "use the default". */
  datatype Retry = Retry(maxAttempts: int, initialBackoff: Duration, multiplier: real, maxBackoff: Duration,
                         jitter: real)

  const NO_RETRY := Retry(0, 0, 0.0, 0, 0.0)
  const RETRY_FOREVER := Retry(0x7fff_ffff, 1_000_000_000, 1.0, 60_000_000_000, 0.0)

  // ---- the recorded tree ----

  /** An arm of a fork (tagged with its name) or a case of a choice (tagged with its guard, "" = otherwise). */
  datatype Block = Block(tag: string, steps: seq<Step>)

  datatype Step =
    | Task(name: string, queue: string, retry: Retry, compensate: bool, combine: string)
    | Gate(name: string, queue: string, retry: Retry)
    | Sleep(name: string, d: Duration)
    | Signal(name: string, timeout: Duration, escalation: seq<Step>)
    | SubFlow(name: string, workflow: string)
    | Fork(arms: seq<Block>, combine: string)
    | ForEach(name: string, itemsKey: string, body: seq<Step>, combine: string)
    | Choose(cases: seq<Block>)
    | Loop(while_: string, maxIterations: int, body: seq<Step>)

  /** The name a forEach runs under: its own, or else the key of its items. */
  function ForEachName(name: string, itemsKey: string): string {
    if name == "" then itemsKey else name
  }

  /** A choice whose last case has no guard has an otherwise. */
  predicate HasDefault(cases: seq<Block>) {
    |cases| > 0 && cases[|cases| - 1].tag == ""
  }

  /** The number of guarded cases of a choice. */
  function Guards(cases: seq<Block>): nat {
    if HasDefault(cases) then |cases| - 1 else |cases|
  }

  // ---- the compiled graph ----

  /** A node of the graph, by the order of its creation; `Ids.Text` gives the text it is written under. */
  type Id = nat

  datatype Kind = TASK | PREDICATE | SLEEP | SIGNAL | SUB_WORKFLOW | FORK | DYN_FORK | JOIN | END

  /** What a node carries besides its kind, its name and its edges. */
  datatype Info =
    | Work(activity: string, queue: string, retry: Retry, compensable: bool, armNames: seq<string>,
           collectKey: string, loopBudget: Option<int>)
    | Timer(millis: int)
    | Child(workflow: string)
    | Items(itemsKey: string)
    | Expected(count: nat)
    | Reason(reason: string)
    | NoInfo

  datatype Node = Node(kind: Kind, name: string, info: Info, next: Option<Id>, alt: Option<Id>, branches: seq<Id>)

  /** The two edges a node may leave open while the graph is built. */
  datatype Edge = Next | Alt
  datatype OpenEnd = OpenEnd(id: Id, edge: Edge)

  /** What every node of one workflow shares. */
  datatype Env = Env(flow: string, defaultQueue: string)

  const FOR_EACH_PREFIX := "__forEach__"
  const SPAWN_PREFIX := "__spawn__"

  /** A step with no attempts of its own is retried forever. */
  function EffectiveRetry(r: Retry): Retry {
    if r.maxAttempts > 0 then r else RETRY_FOREVER
  }

  function WorkerNode(env: Env, kind: Kind, name: string, queue: string, retry: Retry): Node {
    Node(kind, name,
         Work(env.flow + "#" + name, if queue == "" then env.defaultQueue else queue, EffectiveRetry(retry), false, [],
              "", None),
         None, None, [])
  }

  function TaskNode(env: Env, name: string, queue: string, retry: Retry, compensate: bool): Node {
    var n := WorkerNode(env, TASK, name, queue, retry);
    n.(info := n.info.(compensable := compensate))
  }

  /** The merge after a fork's join: it carries the names of the arms. */
  function CombineNode(env: Env, name: string, arms: seq<string>): Node {
    var n := WorkerNode(env, TASK, name, "", NO_RETRY);
    n.(info := n.info.(armNames := arms))
  }

  /** The merge after a dynamic join: it carries the key its results are staged under. */
  function CollectNode(env: Env, name: string, collectKey: string): Node {
    var n := WorkerNode(env, TASK, name, "", NO_RETRY);
    n.(info := n.info.(collectKey := collectKey))
  }

  function ConditionNode(env: Env, name: string, maxIterations: int): Node {
    var n := WorkerNode(env, PREDICATE, name, "", NO_RETRY);
    n.(info := n.info.(loopBudget := Some(if maxIterations == 0 then -1 else maxIterations)))
  }

  function TimerNode(kind: Kind, name: string, millis: int): Node {
    Node(kind, name, Timer(if millis > 0 then millis else 0), None, None, [])
  }

  function SubFlowNode(name: string, workflow: string): Node {
    Node(SUB_WORKFLOW, name, Child(workflow), None, None, [])
  }

  /** Forks, joins and ENDs are written under their own id's text, not under a recorded name. */
  function ForkNode(): Node { Node(FORK, "", NoInfo, None, None, []) }

  function DynForkNode(name: string, itemsKey: string): Node {
    Node(DYN_FORK, name, Items(itemsKey), None, None, [])
  }

  function JoinNode(expected: nat): Node { Node(JOIN, "", Expected(expected), None, None, []) }

  function EndNode(reason: string): Node { Node(END, "", Reason(reason), None, None, []) }

  function GatedReason(gate: string): string { "gated:" + gate }
}
