/** Branches created while a step runs: the calls of a body, and the CreatedBranch object they are made on. */
module Branch {
  import opened Topology

  // A script is what a handler calls on a created branch, nested bodies included. The object keeps the chain those
  // calls leave, the first mistake, and whether a ThenAllOf still waits for its Combine.

  // ---- the chain ----

  /** A step of a created branch: one record for every kind, most of whose fields a kind leaves empty. */
  datatype BranchStep = BranchStep(
    name: string, kind: Kind, compensable: bool, queue: string, retry: Option<Retry>, sleepMillis: int, combine: string,
    workflow: string, escalation: seq<BranchStep>, arms: seq<Arm>, body: seq<BranchStep>, loopBudget: int,
    cases: seq<Case>)

  datatype Arm = Arm(steps: seq<BranchStep>)
  datatype Case = Case(guard: string, steps: seq<BranchStep>)

  const EMPTY := BranchStep("", TASK, false, "", None, 0, "", "", [], [], [], 0, [])

  function TaskStep(name: string, queue: string, retry: Option<Retry>, compensable: bool, combine: string): BranchStep {
    EMPTY.(name := name, queue := queue, retry := retry, compensable := compensable, combine := combine)
  }

  function GateStep(name: string, queue: string, retry: Option<Retry>): BranchStep {
    EMPTY.(name := name, kind := PREDICATE, queue := queue, retry := retry)
  }

  function SleepStep(millis: int): BranchStep { EMPTY.(kind := SLEEP, sleepMillis := millis) }

  function SignalStep(name: string, millis: int, escalation: seq<BranchStep>): BranchStep {
    EMPTY.(name := name, kind := SIGNAL, sleepMillis := millis, escalation := escalation)
  }

  function SubFlowStep(name: string, workflow: string): BranchStep {
    EMPTY.(name := name, kind := SUB_WORKFLOW, workflow := workflow)
  }

  function ForkStep(arms: seq<Arm>, combine: string): BranchStep {
    EMPTY.(kind := FORK, combine := combine, arms := arms)
  }

  function LoopStep(name: string, body: seq<BranchStep>, budget: int): BranchStep {
    EMPTY.(name := name, kind := PREDICATE, body := body, loopBudget := budget)
  }

  function ChoiceStep(cases: seq<Case>): BranchStep { EMPTY.(kind := PREDICATE, cases := cases) }

  const INT32_RANGE := 0x1_0000_0000
  const INT32_LIMIT := 0x8000_0000

  /** Conversion to a 32-bit integer keeps the low bits. */
  function Narrow32(n: int): (r: int)
    ensures -INT32_LIMIT <= r < INT32_LIMIT
  {
    (n + INT32_LIMIT) % INT32_RANGE - INT32_LIMIT
  }

  // ---- scripts ----

  datatype Body = Body(calls: seq<Call>)

  /** An arm of ThenOneOf: When(guard, body), or Otherwise(body) with no guard. */
  datatype Guarded = Guarded(guard: string, body: Body)

  datatype Call =
    | ThenApply(name: string, queue: string, retry: Option<Retry>)
    | ThenApplyCompensable(name: string, queue: string, retry: Option<Retry>)
    | ThenFilter(name: string, queue: string, retry: Option<Retry>)
    | Combine(name: string)
    | ThenSleep(d: Duration)
    | ThenAwait(signal: string, timeout: Duration, escalation: Option<Body>)
    | ThenSubFlow(node: string, workflow: string)
    | ThenAllOf(arms: seq<Body>)
    | CombineArms(stage: nat, name: string) // on the arms that this body's ThenAllOf number `stage` gave
    | RepeatWhile(condition: string, maxIterations: int, body: Body)
    | ThenOneOf(cases: seq<Guarded>)

  datatype Mistake =
    | CannotCreate | NeedsName | CombineMisplaced(name: string) | NegativeSleep | NeedsSignal | BadTimeout | NoStepsIn
    | NeedsNodeAndWorkflow | NeedsTwoArms | ArmEndsOtherwise(arm: nat) | ArmsShareName(name: string) | NeedsCombineName
    | NeedsCondition | BadBudget | NeedsWhen | OtherwiseNotLast | NeedsCombine

  /** A branch as it is being built. */
  datatype Building = Building(steps: seq<BranchStep>, err: Option<Mistake>, allOfPending: bool)

  const BLANK := Building([], None, false)

  /** The arms a ThenAllOf gave to be combined; None, if it failed. */
  type Stage = Option<seq<Arm>>

  // ---- what each call does to a branch ----

  function Failed(b: Building, m: Mistake): Building {
    if b.err.None? then b.(err := Some(m)) else b
  }

  function Appended(b: Building, s: BranchStep): Building { b.(steps := b.steps + [s]) }

  function Added(b: Building, s: BranchStep): Building {
    if s.name == "" then Failed(b, NeedsName) else Appended(b, s)
  }

  function ErrOf(b: Building): Option<Mistake> {
    if b.err.None? && b.allOfPending then Some(NeedsCombine) else b.err
  }

  function WithLast(steps: seq<BranchStep>, s: BranchStep): seq<BranchStep>
    requires steps != []
  {
    steps[..|steps| - 1] + [s]
  }

  function Compensable(b: Building, name: string, queue: string, retry: Option<Retry>): Building {
    var b := Added(b, TaskStep(name, queue, retry, false, ""));
    if b.err.Some? || b.steps == [] then b
    else b.(steps := WithLast(b.steps, b.steps[|b.steps| - 1].(compensable := true)))
  }

  function Combined(b: Building, name: string): Building {
    if b.steps == [] then Failed(b, CombineMisplaced(name))
    else
      var last := b.steps[|b.steps| - 1];
      if last.kind != TASK || last.combine != "" || name == "" then Failed(b, CombineMisplaced(name))
      else b.(steps := WithLast(b.steps, last.(combine := name)))
  }

  function ArmsCombined(b: Building, stage: Stage, name: string): Building {
    if stage.None? then b
    else
      var b := b.(allOfPending := false);
      if name == "" then Failed(b, NeedsCombineName) else Appended(b, ForkStep(stage.value, name))
  }

  function LastOf(steps: seq<BranchStep>): BranchStep
    requires steps != []
  {
    steps[|steps| - 1]
  }

  /** What a body builds on a branch of its own, or its first mistake. */
  function Built(b: Body): Result<seq<BranchStep>, Mistake>
    decreases b, 0
  {
    var built := PlayFrom(BLANK, b.calls, |b.calls|).0;
    if ErrOf(built).Some? then Err(ErrOf(built).value) else Ok(built.steps)
  }

  /** A body that must have steps. */
  function Chained(b: Body): Result<seq<BranchStep>, Mistake>
    decreases b, 1
  {
    var steps :- Built(b);
    if steps == [] then Err(NoStepsIn) else Ok(steps)
  }

  /** The names the arms end in. */
  function LastNames(arms: seq<Arm>): set<string> {
    set i | 0 <= i < |arms| && arms[i].steps != [] :: LastOf(arms[i].steps).name
  }

  /** The first n arms of a ThenAllOf. */
  function BuiltArms(arms: seq<Body>, n: nat): Result<seq<Arm>, Mistake>
    requires n <= |arms|
    decreases arms, n
  {
    if n == 0 then Ok([])
    else
      var before :- BuiltArms(arms, n - 1);
      var steps :- Chained(arms[n - 1]);
      if steps == [] then Err(NoStepsIn)
      else
        var last := LastOf(steps);
        if last.kind != TASK && last.kind != PREDICATE then Err(ArmEndsOtherwise(n - 1))
        else if last.name in LastNames(before) then Err(ArmsShareName(last.name))
        else Ok(before + [Arm(steps)])
  }

  /** The first n cases of a ThenOneOf. */
  function BuiltCases(cases: seq<Guarded>, n: nat): Result<seq<Case>, Mistake>
    requires n <= |cases|
    decreases cases, n
  {
    if n == 0 then Ok([])
    else
      var before :- BuiltCases(cases, n - 1);
      if cases[n - 1].guard == "" && n != |cases| then Err(OtherwiseNotLast)
      else
        var steps :- Built(cases[n - 1].body);
        Ok(before + [Case(cases[n - 1].guard, steps)])
  }

  function Forked(b: Building, arms: seq<Body>): (Building, Stage)
    decreases arms, |arms| + 1
  {
    if |arms| < 2 then (Failed(b, NeedsTwoArms), None)
    else
      match BuiltArms(arms, |arms|)
      case Err(m) => (Failed(b, m), None)
      case Ok(built) => (b.(allOfPending := true), Some(built))
  }

  function Awaited(b: Building, signal: string, timeout: Duration, escalation: Option<Body>): Building
    decreases escalation, 2
  {
    if signal == "" then Failed(b, NeedsSignal)
    else if timeout < 0 || (escalation.Some? && timeout <= 0) then Failed(b, BadTimeout)
    else if escalation.None? then Appended(b, SignalStep(signal, Millis(timeout), []))
    else
      match Chained(escalation.value)
      case Err(m) => Failed(b, m)
      case Ok(steps) => Appended(b, SignalStep(signal, Millis(timeout), steps))
  }

  function Repeated(b: Building, condition: string, maxIterations: int, body: Body): Building
    decreases body, 2
  {
    if condition == "" then Failed(b, NeedsCondition)
    else if maxIterations < 0 then Failed(b, BadBudget)
    else
      match Chained(body)
      case Err(m) => Failed(b, m)
      case Ok(steps) => Appended(b, LoopStep(condition, steps, Narrow32(maxIterations)))
  }

  function Chosen(b: Building, cases: seq<Guarded>): Building
    decreases cases, |cases| + 1
  {
    if cases == [] || cases[0].guard == "" then Failed(b, NeedsWhen)
    else
      match BuiltCases(cases, |cases|)
      case Err(m) => Failed(b, m)
      case Ok(built) => Appended(b, ChoiceStep(built))
  }

  /** A call that gives no arms and takes none. */
  function After(b: Building, call: Call): Building
    requires !call.ThenAllOf? && !call.CombineArms?
    decreases call, 1
  {
    match call
    case ThenApply(name, queue, retry) => Added(b, TaskStep(name, queue, retry, false, ""))
    case ThenApplyCompensable(name, queue, retry) => Compensable(b, name, queue, retry)
    case ThenFilter(name, queue, retry) => Added(b, GateStep(name, queue, retry))
    case Combine(name) => Combined(b, name)
    case ThenSleep(d) => if d < 0 then Failed(b, NegativeSleep) else Appended(b, SleepStep(Millis(d)))
    case ThenAwait(signal, timeout, escalation) => Awaited(b, signal, timeout, escalation)
    case ThenSubFlow(node, workflow) =>
      if node == "" || workflow == "" then Failed(b, NeedsNodeAndWorkflow) else Appended(b, SubFlowStep(node, workflow))
    case RepeatWhile(condition, maxIterations, body) => Repeated(b, condition, maxIterations, body)
    case ThenOneOf(cases) => Chosen(b, cases)
  }

  /** One call, with the arms given so far. */
  function Do(b: Building, stages: seq<Stage>, call: Call): (Building, seq<Stage>)
    decreases call, 2
  {
    match call
    case ThenAllOf(arms) => var (b', stage) := Forked(b, arms); (b', stages + [stage])
    case CombineArms(i, name) => (if i < |stages| then ArmsCombined(b, stages[i], name) else b, stages)
    case _ => (After(b, call), stages)
  }

  /** The first n calls of a body, on a branch with no arms given yet. */
  function PlayFrom(b: Building, calls: seq<Call>, n: nat): (Building, seq<Stage>)
    requires n <= |calls|
    decreases calls, n
  {
    if n == 0 then (b, [])
    else
      var (b, stages) := PlayFrom(b, calls, n - 1);
      Do(b, stages, calls[n - 1])
  }

  // ---- the builder ----

  class CreatedBranch {
    const key: string
    const keyed: bool
    var steps: seq<BranchStep>
    var err: Option<Mistake>
    var allOfPending: bool

    function Seen(): Building
      reads this
    {
      Building(steps, err, allOfPending)
    }

    constructor (key: string, keyed: bool)
      ensures Seen() == BLANK && this.key == key && this.keyed == keyed
    {
      this.key, this.keyed, steps, err, allOfPending := key, keyed, [], None, false;
    }

    method Fail(m: Mistake)
      modifies this
      ensures Seen() == Failed(old(Seen()), m)
    {
      if err.None? { err := Some(m); }
    }

    method Append(s: BranchStep)
      modifies this
      ensures Seen() == Appended(old(Seen()), s)
    {
      steps := steps + [s];
    }

    method Add(s: BranchStep)
      modifies this
      ensures Seen() == Added(old(Seen()), s)
    {
      if s.name == "" { Fail(NeedsName); } else { Append(s); }
    }

    method Err() returns (e: Option<Mistake>)
      ensures e == ErrOf(Seen())
    {
      if err.None? && allOfPending { return Some(NeedsCombine); }
      return err;
    }

    method AddCompensable(name: string, queue: string, retry: Option<Retry>)
      modifies this
      ensures Seen() == Compensable(old(Seen()), name, queue, retry)
    {
      Add(TaskStep(name, queue, retry, false, ""));
      if err.None? { steps := WithLast(steps, steps[|steps| - 1].(compensable := true)); }
    }

    method CombineLast(name: string)
      modifies this
      ensures Seen() == Combined(old(Seen()), name)
    {
      var n := |steps|;
      if n == 0 || steps[n - 1].kind != TASK || steps[n - 1].combine != "" || name == "" {
        Fail(CombineMisplaced(name));
        return;
      }
      steps := WithLast(steps, steps[n - 1].(combine := name));
    }

    method CombineStage(stage: Stage, name: string)
      modifies this
      ensures Seen() == ArmsCombined(old(Seen()), stage, name)
    {
      if stage.None? { return; }
      allOfPending := false;
      if name == "" { Fail(NeedsCombineName); } else { Append(ForkStep(stage.value, name)); }
    }

    method AllOf(arms: seq<Body>) returns (stage: Stage)
      modifies this
      ensures (Seen(), stage) == Forked(old(Seen()), arms)
      decreases arms, |arms| + 1
    {
      if |arms| < 2 {
        Fail(NeedsTwoArms);
        return None;
      }
      var chains: seq<Arm> := [];
      var seen: set<string> := {};
      for i := 0 to |arms|
        invariant Seen() == old(Seen())
        invariant BuiltArms(arms, i) == Ok(chains) && seen == LastNames(chains)
      {
        ArmsFailOn(arms, i + 1, |arms|);
        var chained := Chain(arms[i]);
        if chained.Err? {
          Fail(chained.error);
          return None;
        }
        var steps := chained.value;
        var last := LastOf(steps);
        if last.kind != TASK && last.kind != PREDICATE {
          Fail(ArmEndsOtherwise(i));
          return None;
        }
        if last.name in seen {
          Fail(ArmsShareName(last.name));
          return None;
        }
        OneMoreName(chains, steps);
        seen := seen + {last.name};
        chains := chains + [Arm(steps)];
      }
      allOfPending := true;
      return Some(chains);
    }

    method Await(signal: string, timeout: Duration, escalation: Option<Body>)
      modifies this
      ensures Seen() == Awaited(old(Seen()), signal, timeout, escalation)
      decreases escalation, 2
    {
      if signal == "" {
        Fail(NeedsSignal);
        return;
      }
      if timeout < 0 || (escalation.Some? && timeout <= 0) {
        Fail(BadTimeout);
        return;
      }
      var onTimeout: seq<BranchStep> := [];
      if escalation.Some? {
        var chained := Chain(escalation.value);
        if chained.Err? {
          Fail(chained.error);
          return;
        }
        onTimeout := chained.value;
      }
      Append(SignalStep(signal, Millis(timeout), onTimeout));
    }

    method Repeat(condition: string, maxIterations: int, body: Body)
      modifies this
      ensures Seen() == Repeated(old(Seen()), condition, maxIterations, body)
      decreases body, 2
    {
      if condition == "" {
        Fail(NeedsCondition);
        return;
      }
      if maxIterations < 0 {
        Fail(BadBudget);
        return;
      }
      var chained := Chain(body);
      if chained.Err? {
        Fail(chained.error); } else { Append(LoopStep(condition, chained.value, Narrow32(maxIterations)));
      }
    }

    method OneOf(cases: seq<Guarded>)
      modifies this
      ensures Seen() == Chosen(old(Seen()), cases)
      decreases cases, |cases| + 1
    {
      if |cases| == 0 || cases[0].guard == "" {
        Fail(NeedsWhen);
        return;
      }
      var built: seq<Case> := [];
      for i := 0 to |cases|
        invariant Seen() == old(Seen())
        invariant BuiltCases(cases, i) == Ok(built)
      {
        CasesFailOn(cases, i + 1, |cases|);
        if cases[i].guard == "" && i != |cases| - 1 {
          Fail(OtherwiseNotLast);
          return;
        }
        var sub := new CreatedBranch("", false);
        sub.Run(cases[i].body);
        var e := sub.Err();
        assert Built(cases[i].body) == if e.Some? then Result.Err(e.value) else Ok(sub.steps);
        if e.Some? {
          Fail(e.value);
          return;
        }
        built := built + [Case(cases[i].guard, sub.steps)];
      }
      Append(ChoiceStep(built));
    }

    /** Makes the calls of a body on this branch. */
    method Run(body: Body)
      modifies this
      ensures Seen() == PlayFrom(old(Seen()), body.calls, |body.calls|).0
      decreases body, 0
    {
      var stages: seq<Stage> := [];
      for i := 0 to |body.calls|
        invariant (Seen(), stages) == PlayFrom(old(Seen()), body.calls, i)
      {
        stages := Make(body.calls[i], stages);
      }
    }

    /** Builds a body on a branch of its own. */
    static method Chain(body: Body) returns (r: Result<seq<BranchStep>, Mistake>)
      ensures r == Chained(body)
      ensures r.Ok? ==> r.value != []
      decreases body, 1
    {
      var sub := new CreatedBranch("", false);
      sub.Run(body);
      var e := sub.Err();
      assert Built(body) == if e.Some? then Result.Err(e.value) else Ok(sub.steps);
      if e.Some? { return Result.Err(e.value); }
      if |sub.steps| == 0 { return Result.Err(NoStepsIn); }
      return Ok(sub.steps);
    }

    method Make(call: Call, stages: seq<Stage>) returns (stages': seq<Stage>)
      modifies this
      ensures (Seen(), stages') == Do(old(Seen()), stages, call)
      decreases call, 2
    {
      hide Forked, ArmsCombined, Awaited, Chosen, Repeated, Combined, Compensable;
      stages' := stages;
      match call
      case ThenAllOf(arms) =>
        var stage := AllOf(arms);
        stages' := stages + [stage];
      case CombineArms(i, name) => if i < |stages| { CombineStage(stages[i], name); }
      case ThenApply(name, queue, retry) => Add(TaskStep(name, queue, retry, false, ""));
      case ThenApplyCompensable(name, queue, retry) => AddCompensable(name, queue, retry);
      case ThenFilter(name, queue, retry) => Add(GateStep(name, queue, retry));
      case Combine(name) => CombineLast(name);
      case ThenSleep(d) => if d < 0 { Fail(NegativeSleep); } else { Append(SleepStep(Millis(d))); }
      case ThenAwait(signal, timeout, escalation) => Await(signal, timeout, escalation);
      case ThenSubFlow(node, workflow) =>
        if node == "" || workflow == "" { Fail(NeedsNodeAndWorkflow); } else { Append(SubFlowStep(node, workflow)); }
      case RepeatWhile(condition, maxIterations, body) => Repeat(condition, maxIterations, body);
      case ThenOneOf(cases) => OneOf(cases);
    }
  }

  lemma OneMoreName(chains: seq<Arm>, steps: seq<BranchStep>)
    requires steps != []
    ensures LastNames(chains + [Arm(steps)]) == LastNames(chains) + {LastOf(steps).name}
  {
    var all := chains + [Arm(steps)];
    assert all[|chains|] == Arm(steps);
    forall i | 0 <= i < |chains| ensures all[i] == chains[i] {}
  }

  lemma {:induction false} ArmsFailOn(arms: seq<Body>, i: nat, n: nat)
    requires i <= n <= |arms|
    ensures BuiltArms(arms, i).Err? ==> BuiltArms(arms, n) == BuiltArms(arms, i)
  {
    hide Chained, LastNames;
    if i < n { ArmsFailOn(arms, i, n - 1); }
  }

  lemma {:induction false} CasesFailOn(cases: seq<Guarded>, i: nat, n: nat)
    requires i <= n <= |cases|
    ensures BuiltCases(cases, i).Err? ==> BuiltCases(cases, n) == BuiltCases(cases, i)
  {
    hide Built;
    if i < n { CasesFailOn(cases, i, n - 1); }
  }
}
