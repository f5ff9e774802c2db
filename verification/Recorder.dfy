/** Recording a flow: the calls of a body, nested bodies included, and the Flow object they are made on. */
module Recorder {
  import opened Topology
  import Layout

  // A script is what the body handed to Define calls on its flow. What scripts leave recorded is told in `Recorded`.

  datatype Pending = Nothing | AllOf | Each

  datatype Mistake =
    | CombineMisplaced(name: string) | EmptyEscalation(signal: string) | NeedsWorkflow
    | NeedsTwoArms | EmptyArm(arm: nat) | ArmEndsOtherwise(arm: nat) | EmptyBody(name: string) | NeedsCombineName
    | NeedsWhen | OtherwiseNotLast | NeedsCombine(stage: Pending) | NeedsCombineFirst(stage: Pending)

  // ---- scripts ----

  /** A body: the calls it makes, in order. A nil body makes none. */
  datatype Body = Body(calls: seq<Call>)

  /** An arm of ThenOneOf: When(guard, body), or Otherwise(body) with no guard. */
  datatype Arm = Arm(guard: string, body: Body)

  datatype Call =
    | ThenApply(name: string, queue: string, retry: Retry, compensable: bool)
    | ThenFilter(name: string, queue: string, retry: Retry)
    | Combine(name: string)
    | ThenSleep(d: Duration)
    | ThenAwait(signal: string, timeout: Duration, escalation: Option<Body>)
    | ThenSubFlow(node: string, workflow: string)
    | ThenAllOf(arms: seq<Body>)
    | ThenForEach(name: string, itemsKey: string, body: Body)
    | CombineStage(stage: nat,
                   name: string) // on the stage that this body's ThenAllOf or ThenForEach number `stage` gave
    | ThenOneOf(cases: seq<Arm>)
    | RepeatWhile(condition: string, maxIterations: int, body: Body)

  /** What ThenAllOf or ThenForEach gives to be combined: nothing, if it failed. */
  datatype Stage = NoStage | ForkStage(arms: seq<Block>) | EachStage(name: string, itemsKey: string, body: seq<Step>)

  /** A flow as it is being recorded. */
  datatype Recording = Recording(steps: seq<Step>, err: Option<Mistake>, pending: Pending)

  const BLANK := Recording([], None, Nothing)

  // ---- what each call does to a recording ----

  function Failed(r: Recording, m: Mistake): Recording {
    if r.err.None? then r.(err := Some(m)) else r
  }

  function Added(r: Recording, s: Step): Recording {
    if r.pending != Nothing then Failed(r, NeedsCombineFirst(r.pending)) else r.(steps := r.steps + [s])
  }

  function ErrOf(r: Recording): Option<Mistake> {
    if r.err.None? && r.pending != Nothing then Some(NeedsCombine(r.pending)) else r.err
  }

  function Combined(r: Recording, name: string): Recording {
    if r.steps == [] then Failed(r, CombineMisplaced(name))
    else
      var last := r.steps[|r.steps| - 1];
      if !last.Task? || last.combine != "" || name == "" then Failed(r, CombineMisplaced(name))
      else r.(steps := r.steps[..|r.steps| - 1] + [Task(last.name, last.queue, last.retry, last.compensate, name)])
  }

  function StageCombined(r: Recording, stage: Stage, name: string): Recording {
    match stage
    case NoStage => r
    case ForkStage(arms) =>
      var r := r.(pending := Nothing);
      if name == "" then Failed(r, NeedsCombineName) else Added(r, Fork(arms, name))
    case EachStage(each, itemsKey, body) =>
      var r := r.(pending := Nothing);
      if name == "" then Failed(r, NeedsCombineName) else Added(r, ForEach(each, itemsKey, body, name))
  }

  /** The name an arm goes under: that of its last step, a task or a gate. */
  function ArmName(steps: seq<Step>): Option<string> {
    if steps == [] then None
    else
      match steps[|steps| - 1]
      case Task(name, _, _, _, _) => Some(name)
      case Gate(name, _, _) => Some(name)
      case _ => None
  }

  /** What a body records on a flow of its own, or its first mistake. */
  function Built(b: Body): Result<seq<Step>, Mistake>
    decreases b, 0
  {
    var r := Play(b.calls, |b.calls|).0;
    if ErrOf(r).Some? then Err(ErrOf(r).value) else Ok(r.steps)
  }

  /** The first n arms of a ThenAllOf. */
  function BuiltArms(arms: seq<Body>, n: nat): Result<seq<Block>, Mistake>
    requires n <= |arms|
    decreases arms, n
  {
    if n == 0 then Ok([])
    else
      var before :- BuiltArms(arms, n - 1);
      var steps :- Built(arms[n - 1]);
      if steps == [] then Err(EmptyArm(n - 1))
      else if ArmName(steps).None? then Err(ArmEndsOtherwise(n - 1))
      else Ok(before + [Block(ArmName(steps).value, steps)])
  }

  /** The first n cases of a ThenOneOf. */
  function BuiltCases(cases: seq<Arm>, n: nat): Result<seq<Block>, Mistake>
    requires n <= |cases|
    decreases cases, n
  {
    if n == 0 then Ok([])
    else
      var before :- BuiltCases(cases, n - 1);
      if cases[n - 1].guard == "" && n != |cases| then Err(OtherwiseNotLast)
      else
        var steps :- Built(cases[n - 1].body);
        Ok(before + [Block(cases[n - 1].guard, steps)])
  }

  function Forked(r: Recording, arms: seq<Body>): (Recording, Stage)
    decreases arms, |arms| + 1
  {
    if |arms| < 2 then (Failed(r, NeedsTwoArms), NoStage)
    else
      match BuiltArms(arms, |arms|)
      case Err(m) => (Failed(r, m), NoStage)
      case Ok(blocks) => (r.(pending := AllOf), ForkStage(blocks))
  }

  function Spread(r: Recording, name: string, itemsKey: string, body: Body): (Recording, Stage)
    decreases body, 1
  {
    match Built(body)
    case Err(m) => (Failed(r, m), NoStage)
    case Ok(steps) =>
      if steps == [] then (Failed(r, EmptyBody(ForEachName(name, itemsKey))), NoStage)
      else (r.(pending := Each), EachStage(ForEachName(name, itemsKey), itemsKey, steps))
  }

  function Awaited(r: Recording, signal: string, timeout: Duration, escalation: Option<Body>): Recording
    decreases escalation, 1
  {
    if escalation.None? then Added(r, Signal(signal, timeout, []))
    else
      match Built(escalation.value)
      case Err(m) => Failed(r, m)
      case Ok(steps) => if steps == [] then Failed(r, EmptyEscalation(signal))
        else Added(r, Signal(signal, timeout, steps))
  }

  function Chosen(r: Recording, cases: seq<Arm>): Recording
    decreases cases, |cases| + 1
  {
    if cases == [] || cases[0].guard == "" then Failed(r, NeedsWhen)
    else
      match BuiltCases(cases, |cases|)
      case Err(m) => Failed(r, m)
      case Ok(blocks) => Added(r, Choose(blocks))
  }

  function Repeated(r: Recording, condition: string, maxIterations: int, body: Body): Recording
    decreases body, 1
  {
    match Built(body)
    case Err(m) => Failed(r, m)
    case Ok(steps) => Added(r, Loop(condition, maxIterations, steps))
  }

  /** A call that gives no stage. */
  function After(r: Recording, call: Call): Recording
    requires !call.ThenAllOf? && !call.ThenForEach? && !call.CombineStage?
    decreases call, 1
  {
    match call
    case ThenApply(name, queue, retry, compensable) => Added(r, Task(name, queue, retry, compensable, ""))
    case ThenFilter(name, queue, retry) => Added(r, Gate(name, queue, retry))
    case Combine(name) => Combined(r, name)
    case ThenSleep(d) => Added(r, Sleep(Layout.SleepName("", d), d))
    case ThenAwait(signal, timeout, escalation) => Awaited(r, signal, timeout, escalation)
    case ThenSubFlow(node, workflow) =>
      if workflow == "" then Failed(r, NeedsWorkflow)
        else Added(r, SubFlow(Layout.SubFlowName(node, workflow), workflow))
    case ThenOneOf(cases) => Chosen(r, cases)
    case RepeatWhile(condition, maxIterations, body) => Repeated(r, condition, maxIterations, body)
  }

  /** The first n calls of a body, on a blank flow: the recording and the stages it gave so far. */
  function Play(calls: seq<Call>, n: nat): (Recording, seq<Stage>)
    requires n <= |calls|
    decreases calls, n
  {
    if n == 0 then (BLANK, [])
    else
      var (r, stages) := Play(calls, n - 1);
      Do(r, stages, calls[n - 1])
  }

  /** One call, with the stages given so far. */
  function Do(r: Recording, stages: seq<Stage>, call: Call): (Recording, seq<Stage>)
    decreases call, 2
  {
    match call
    case ThenAllOf(arms) => var (r', stage) := Forked(r, arms); (r', stages + [stage])
    case ThenForEach(name, itemsKey, body) => var (r', stage) := Spread(r, name, itemsKey, body); (r', stages + [stage])
    case CombineStage(i, name) => (if i < |stages| then StageCombined(r, stages[i], name) else r, stages)
    case _ => (After(r, call), stages)
  }

  // ---- the recorder ----

  /** The steps recorded so far, the first mistake, and the stage still waiting for its Combine. */
  class Flow {
    var steps: seq<Step>
    var err: Option<Mistake>
    var pending: Pending

    function Seen(): Recording
      reads this
    {
      Recording(steps, err, pending)
    }

    constructor ()
      ensures Seen() == BLANK
    {
      steps, err, pending := [], None, Nothing;
    }

    method Fail(m: Mistake)
      modifies this
      ensures Seen() == Failed(old(Seen()), m)
    {
      if err.None? { err := Some(m); }
    }

    method Add(s: Step)
      modifies this
      ensures Seen() == Added(old(Seen()), s)
    {
      if pending != Nothing {
        Fail(NeedsCombineFirst(pending));
        return;
      }
      steps := steps + [s];
    }

    method Err() returns (e: Option<Mistake>)
      ensures e == ErrOf(Seen())
    {
      if err.None? && pending != Nothing { return Some(NeedsCombine(pending)); }
      return err;
    }

    method CombineLast(name: string)
      modifies this
      ensures Seen() == Combined(old(Seen()), name)
    {
      var n := |steps|;
      if n == 0 {
        Fail(CombineMisplaced(name));
        return;
      }
      var last := steps[n - 1];
      if !last.Task? || last.combine != "" || name == "" {
        Fail(CombineMisplaced(name));
        return;
      }
      steps := steps[..n - 1] + [Task(last.name, last.queue, last.retry, last.compensate, name)];
    }

    method CombineArms(stage: Stage, name: string)
      modifies this
      ensures Seen() == StageCombined(old(Seen()), stage, name)
    {
      match stage
      case NoStage =>
      case ForkStage(arms) =>
        pending := Nothing;
        if name == "" { Fail(NeedsCombineName); } else { Add(Fork(arms, name)); }
      case EachStage(each, itemsKey, body) =>
        pending := Nothing;
        if name == "" { Fail(NeedsCombineName); } else { Add(Step.ForEach(each, itemsKey, body, name)); }
    }

    method AllOf(arms: seq<Body>) returns (stage: Stage)
      modifies this
      ensures (Seen(), stage) == Forked(old(Seen()), arms)
      decreases arms, |arms| + 1
    {
      if |arms| < 2 {
        Fail(NeedsTwoArms);
        return NoStage;
      }
      var built: seq<Block> := [];
      for i := 0 to |arms|
        invariant Seen() == old(Seen())
        invariant BuiltArms(arms, i) == Ok(built)
        invariant forall n :: i <= n <= |arms| ==> SameFailure(BuiltArms(arms, i), BuiltArms(arms, n))
      {
        ArmsFailOn(arms, i + 1);
        var chained := Chain(arms[i]);
        if chained.Err? {
          Fail(chained.error);
          return NoStage;
        }
        var steps := chained.value;
        if |steps| == 0 {
          Fail(EmptyArm(i));
          return NoStage;
        }
        if ArmName(steps).None? {
          Fail(ArmEndsOtherwise(i));
          return NoStage;
        }
        built := built + [Block(ArmName(steps).value, steps)];
      }
      pending := Pending.AllOf;
      return ForkStage(built);
    }

    method ForEach(name: string, itemsKey: string, body: Body) returns (stage: Stage)
      modifies this
      ensures (Seen(), stage) == Spread(old(Seen()), name, itemsKey, body)
      decreases body, 1
    {
      var chained := Chain(body);
      if chained.Err? {
        Fail(chained.error);
        return NoStage;
      }
      if |chained.value| == 0 {
        Fail(EmptyBody(ForEachName(name, itemsKey)));
        return NoStage;
      }
      pending := Each;
      return EachStage(ForEachName(name, itemsKey), itemsKey, chained.value);
    }

    method Await(signal: string, timeout: Duration, escalation: Option<Body>)
      modifies this
      ensures Seen() == Awaited(old(Seen()), signal, timeout, escalation)
      decreases escalation, 1
    {
      var onTimeout: seq<Step> := [];
      if escalation.Some? {
        var chained := Chain(escalation.value);
        if chained.Err? {
          Fail(chained.error);
          return;
        }
        if |chained.value| == 0 {
          Fail(EmptyEscalation(signal));
          return;
        }
        onTimeout := chained.value;
      }
      Add(Signal(signal, timeout, onTimeout));
    }

    method OneOf(cases: seq<Arm>)
      modifies this
      ensures Seen() == Chosen(old(Seen()), cases)
      decreases cases, |cases| + 1
    {
      if |cases| == 0 || cases[0].guard == "" {
        Fail(NeedsWhen);
        return;
      }
      var built: seq<Block> := [];
      for i := 0 to |cases|
        invariant Seen() == old(Seen())
        invariant BuiltCases(cases, i) == Ok(built)
        invariant forall n :: i <= n <= |cases| ==> SameFailure(BuiltCases(cases, i), BuiltCases(cases, n))
      {
        CasesFailOn(cases, i + 1);
        if cases[i].guard == "" && i != |cases| - 1 {
          Fail(OtherwiseNotLast);
          return;
        }
        var chained := Chain(cases[i].body);
        if chained.Err? {
          Fail(chained.error);
          return;
        }
        built := built + [Block(cases[i].guard, chained.value)];
      }
      Add(Choose(built));
    }

    method Repeat(condition: string, maxIterations: int, body: Body)
      modifies this
      ensures Seen() == Repeated(old(Seen()), condition, maxIterations, body)
      decreases body, 1
    {
      var chained := Chain(body);
      if chained.Err? { Fail(chained.error); } else { Add(Loop(condition, maxIterations, chained.value)); }
    }

    /** Records a body on a flow of its own. */
    method Chain(body: Body) returns (r: Result<seq<Step>, Mistake>)
      ensures r == Built(body)
      decreases body, 0
    {
      var sub := new Flow();
      var stages: seq<Stage> := [];
      for i := 0 to |body.calls|
        invariant fresh(sub)
        invariant (sub.Seen(), stages) == Play(body.calls, i)
      {
        stages := sub.Make(body.calls[i], stages);
      }
      var e := sub.Err();
      if e.Some? { return Result.Err(e.value); }
      return Ok(sub.steps);
    }

    /** Makes one call on this flow; `stages` are those its body was given so far. */
    method Make(call: Call, stages: seq<Stage>) returns (stages': seq<Stage>)
      modifies this
      ensures (Seen(), stages') == Do(old(Seen()), stages, call)
      decreases call, 2
    {
      hide Forked, Spread, StageCombined, Awaited, Chosen, Repeated, Combined;
      stages' := stages;
      match call
      case ThenAllOf(arms) =>
        var stage := AllOf(arms);
        stages' := stages + [stage];
      case ThenForEach(name, itemsKey, body) =>
        var stage := ForEach(name, itemsKey, body);
        stages' := stages + [stage];
      case CombineStage(i, name) => if i < |stages| { CombineArms(stages[i], name); }
      case ThenApply(name, queue, retry, compensable) => Add(Task(name, queue, retry, compensable, ""));
      case ThenFilter(name, queue, retry) => Add(Gate(name, queue, retry));
      case Combine(name) => CombineLast(name);
      case ThenSleep(d) => Add(Sleep(Layout.SleepName("", d), d));
      case ThenAwait(signal, timeout, escalation) => Await(signal, timeout, escalation);
      case ThenSubFlow(node, workflow) =>
        if workflow == "" { Fail(NeedsWorkflow); } else { Add(SubFlow(Layout.SubFlowName(node, workflow), workflow)); }
      case ThenOneOf(cases) => OneOf(cases);
      case RepeatWhile(condition, maxIterations, body) => Repeat(condition, maxIterations, body);
    }
  }

  /** A failure among the first arms is the failure of them all. */
  predicate SameFailure<T(==)>(a: Result<T, Mistake>, b: Result<T, Mistake>) { a.Err? ==> b == a }

  lemma {:induction false} ArmsFailOn(arms: seq<Body>, i: nat)
    requires i <= |arms|
    ensures forall n :: i <= n <= |arms| ==> SameFailure(BuiltArms(arms, i), BuiltArms(arms, n))
  {
    hide Built;
    forall n | i <= n <= |arms| ensures SameFailure(BuiltArms(arms, i), BuiltArms(arms, n)) {
      ArmsFailUpTo(arms, i, n);
    }
  }

  lemma {:induction false} ArmsFailUpTo(arms: seq<Body>, i: nat, n: nat)
    requires i <= n <= |arms|
    ensures SameFailure(BuiltArms(arms, i), BuiltArms(arms, n))
  {
    hide Built;
    if i < n { ArmsFailUpTo(arms, i, n - 1); }
  }

  lemma {:induction false} CasesFailOn(cases: seq<Arm>, i: nat)
    requires i <= |cases|
    ensures forall n :: i <= n <= |cases| ==> SameFailure(BuiltCases(cases, i), BuiltCases(cases, n))
  {
    hide Built;
    forall n | i <= n <= |cases| ensures SameFailure(BuiltCases(cases, i), BuiltCases(cases, n)) {
      CasesFailUpTo(cases, i, n);
    }
  }

  lemma {:induction false} CasesFailUpTo(cases: seq<Arm>, i: nat, n: nat)
    requires i <= n <= |cases|
    ensures SameFailure(BuiltCases(cases, i), BuiltCases(cases, n))
  {
    hide Built;
    if i < n { CasesFailUpTo(cases, i, n - 1); }
  }
}
