/**
 * What building a branch leaves: exactly the chains of a nested grammar, and never past a mistake, however deep it was
 * made.
 */
module Branched {
  import opened Topology
  import opened Branch

  // ---- the grammar ----

  /** A combine only on tasks and forks, forks of at least two named arms, loops with a body, an otherwise only last. */
  ghost predicate Grown(s: BranchStep)
    decreases s
  {
    match s.kind
    case TASK => s.name != "" && s == TaskStep(s.name, s.queue, s.retry, s.compensable, s.combine)
    case SLEEP => s.sleepMillis >= 0 && s == SleepStep(s.sleepMillis)
    case SIGNAL =>
      s.name != "" && s.sleepMillis >= 0 && s == SignalStep(s.name, s.sleepMillis, s.escalation) &&
        GrownSeq(s.escalation)
    case SUB_WORKFLOW => s.name != "" && s.workflow != "" && s == SubFlowStep(s.name, s.workflow)
    case FORK => s.combine != "" && s == ForkStep(s.arms, s.combine) && |s.arms| >= 2 && GrownArms(s.arms)
    case PREDICATE =>
      if s.cases != [] then s == ChoiceStep(s.cases) && GrownCases(s.cases, |s.cases|) && s.cases[0].guard != ""
      else if s.body != [] then
        && s.name != "" && s == LoopStep(s.name, s.body, s.loopBudget)
        && -INT32_LIMIT <= s.loopBudget < INT32_LIMIT && GrownSeq(s.body)
      else s.name != "" && s == GateStep(s.name, s.queue, s.retry)
    case _ => false
  }

  ghost predicate GrownSeq(steps: seq<BranchStep>)
    decreases steps
  {
    forall i :: 0 <= i < |steps| ==> Grown(steps[i])
  }

  /** Arms that end in a task or a predicate, no two under the same name. */
  ghost predicate GrownArms(arms: seq<Arm>)
    decreases arms
  {
    && (forall i :: 0 <= i < |arms| ==>
          arms[i].steps != [] && GrownSeq(arms[i].steps) && LastOf(arms[i].steps).kind in {TASK, PREDICATE})
    && (forall i, x :: 0 <= i < x < |arms| ==> LastOf(arms[i].steps).name != LastOf(arms[x].steps).name)
  }

  /** The first n cases: only the last of them all may have no guard. */
  ghost predicate GrownCases(cases: seq<Case>, n: nat)
    requires n <= |cases|
    decreases cases
  {
    forall i :: 0 <= i < n ==> GrownSeq(cases[i].steps) && (i < |cases| - 1 ==> cases[i].guard != "")
  }

  ghost predicate GrownStage(stage: Stage) { stage.Some? ==> |stage.value| >= 2 && GrownArms(stage.value) }

  // ---- whatever is called, what is built is of the grammar ----

  lemma {:induction false} BuiltIsGrown(b: Body)
    ensures Built(b).Ok? ==> GrownSeq(Built(b).value)
    decreases b, 0
  {
    hide PlayFrom, Grown;
    PlayIsGrown(BLANK, b.calls, |b.calls|);
  }

  lemma ChainedIsGrown(b: Body)
    ensures Chained(b).Ok? ==> GrownSeq(Chained(b).value) && Chained(b).value != []
    decreases b, 1
  {
    hide Built, GrownSeq;
    BuiltIsGrown(b);
  }

  lemma {:induction false} PlayIsGrown(b: Building, calls: seq<Call>, n: nat)
    requires n <= |calls| && GrownSeq(b.steps)
    ensures var (b', stages) := PlayFrom(b, calls, n);
            GrownSeq(b'.steps) && forall i :: 0 <= i < |stages| ==> GrownStage(stages[i])
    decreases calls, n
  {
    hide Grown, GrownStage, Do;
    if n > 0 {
      PlayIsGrown(b, calls, n - 1);
      var (before, stages) := PlayFrom(b, calls, n - 1);
      DoIsGrown(before, stages, calls[n - 1]);
    }
  }

  lemma {:induction false} DoIsGrown(b: Building, stages: seq<Stage>, call: Call)
    requires GrownSeq(b.steps) && forall i :: 0 <= i < |stages| ==> GrownStage(stages[i])
    ensures var (b', stages') := Do(b, stages, call);
            GrownSeq(b'.steps) && forall i :: 0 <= i < |stages'| ==> GrownStage(stages'[i])
    decreases call, 2
  {
    hide GrownSeq, GrownStage, After, Forked, ArmsCombined;
    match call
    case ThenAllOf(arms) => ForkedIsGrown(b, arms);
    case CombineArms(i, name) => if i < |stages| { ArmsCombinedIsGrown(b, stages[i], name); }
    case _ => AfterIsGrown(b, call);
  }

  lemma AppendedIsGrown(b: Building, s: BranchStep)
    requires GrownSeq(b.steps) && Grown(s)
    ensures GrownSeq(Appended(b, s).steps)
  {
    hide Grown;
  }

  lemma ArmsCombinedIsGrown(b: Building, stage: Stage, name: string)
    requires GrownSeq(b.steps) && GrownStage(stage)
    ensures GrownSeq(ArmsCombined(b, stage, name).steps)
  {
    hide GrownSeq, GrownArms;
    if stage.Some? && name != "" { AppendedIsGrown(b.(allOfPending := false), ForkStep(stage.value, name)); }
  }

  lemma {:induction false} ForkedIsGrown(b: Building, arms: seq<Body>)
    ensures Forked(b, arms).0.steps == b.steps && GrownStage(Forked(b, arms).1)
    decreases arms, |arms| + 1
  {
    hide BuiltArms, GrownArms;
    ArmsAreGrown(arms, |arms|);
  }

  lemma {:induction false} ArmsAreGrown(arms: seq<Body>, n: nat)
    requires n <= |arms|
    ensures BuiltArms(arms, n).Ok? ==> |BuiltArms(arms, n).value| == n && GrownArms(BuiltArms(arms, n).value)
    decreases arms, n
  {
    hide Chained, GrownSeq;
    if n > 0 {
      ArmsAreGrown(arms, n - 1);
      ChainedIsGrown(arms[n - 1]);
      if BuiltArms(arms, n).Ok? {
        var before, steps := BuiltArms(arms, n - 1).value, Chained(arms[n - 1]).value;
        forall i | 0 <= i < n - 1 ensures LastOf(before[i].steps).name != LastOf(steps).name {
          assert LastOf(before[i].steps).name in LastNames(before);
        }
      }
    }
  }

  lemma {:induction false} CasesAreGrown(cases: seq<Guarded>, n: nat)
    requires n <= |cases|
    ensures var built := BuiltCases(cases, n);
            built.Ok? ==>
              && |built.value| == n && (forall i :: 0 <= i < n ==> built.value[i].guard == cases[i].guard)
              && (forall i :: 0 <= i < n ==> GrownSeq(built.value[i].steps))
              && (forall i :: 0 <= i < n && i < |cases| - 1 ==> cases[i].guard != "")
    decreases cases, n
  {
    hide Built, GrownSeq;
    if n > 0 {
      CasesAreGrown(cases, n - 1);
      BuiltIsGrown(cases[n - 1].body);
    }
  }

  lemma {:induction false} AfterIsGrown(b: Building, call: Call)
    requires !call.ThenAllOf? && !call.CombineArms? && GrownSeq(b.steps)
    ensures GrownSeq(After(b, call).steps)
    decreases call, 1
  {
    hide Awaited, Repeated, Chosen, Compensable, Combined, GrownSeq;
    match call
    case ThenApply(name, queue, retry) => if name != "" { AppendedIsGrown(b, TaskStep(name, queue, retry, false, "")); }
    case ThenApplyCompensable(name, queue, retry) => CompensableIsGrown(b, name, queue, retry);
    case ThenFilter(name, queue, retry) => if name != "" { AppendedIsGrown(b, GateStep(name, queue, retry)); }
    case Combine(name) => CombinedIsGrown(b, name);
    case ThenSleep(d) => if d >= 0 { AppendedIsGrown(b, SleepStep(Millis(d))); }
    case ThenAwait(signal, timeout, escalation) => AwaitedIsGrown(b, signal, timeout, escalation);
    case ThenSubFlow(node, workflow) => if node != "" && workflow != "" {
      AppendedIsGrown(b, SubFlowStep(node, workflow));
    }
    case RepeatWhile(condition, maxIterations, body) => RepeatedIsGrown(b, condition, maxIterations, body);
    case ThenOneOf(cases) => ChosenIsGrown(b, cases);
  }

  lemma {:induction false} AwaitedIsGrown(b: Building, signal: string, timeout: Duration, escalation: Option<Body>)
    requires GrownSeq(b.steps)
    ensures GrownSeq(Awaited(b, signal, timeout, escalation).steps)
    decreases escalation, 2
  {
    hide Chained, GrownSeq;
    if signal != "" && timeout >= 0 {
      if escalation.None? {
        NothingIsGrown();
        AppendedIsGrown(b, SignalStep(signal, Millis(timeout), []));
      } else {
        ChainedIsGrown(escalation.value);
        if Chained(escalation.value).Ok? {
          AppendedIsGrown(b, SignalStep(signal, Millis(timeout), Chained(escalation.value).value));
        }
      }
    }
  }

  lemma {:induction false} RepeatedIsGrown(b: Building, condition: string, maxIterations: int, body: Body)
    requires GrownSeq(b.steps)
    ensures GrownSeq(Repeated(b, condition, maxIterations, body).steps)
    decreases body, 2
  {
    hide Chained, GrownSeq;
    ChainedIsGrown(body);
    if condition != "" && Chained(body).Ok? {
      AppendedIsGrown(b, LoopStep(condition, Chained(body).value, Narrow32(maxIterations)));
    }
  }

  lemma {:induction false} ChosenIsGrown(b: Building, cases: seq<Guarded>)
    requires GrownSeq(b.steps)
    ensures GrownSeq(Chosen(b, cases).steps)
    decreases cases, |cases| + 1
  {
    hide BuiltCases, GrownSeq;
    CasesAreGrown(cases, |cases|);
    if cases != [] && cases[0].guard != "" && BuiltCases(cases, |cases|).Ok? {
      AppendedIsGrown(b, ChoiceStep(BuiltCases(cases, |cases|).value));
    }
  }

  lemma NothingIsGrown()
    ensures GrownSeq([])
  {}

  lemma WithLastIsGrown(steps: seq<BranchStep>, s: BranchStep)
    requires GrownSeq(steps) && Grown(s) && steps != []
    ensures GrownSeq(WithLast(steps, s))
  {
    hide Grown;
  }

  lemma CompensableIsGrown(b: Building, name: string, queue: string, retry: Option<Retry>)
    requires GrownSeq(b.steps)
    ensures GrownSeq(Compensable(b, name, queue, retry).steps)
  {
    hide GrownSeq;
    var s := TaskStep(name, queue, retry, false, "");
    if name != "" {
      AppendedIsGrown(b, s);
      if b.err.None? { WithLastIsGrown(b.steps + [s], TaskStep(name, queue, retry, true, "")); }
    }
  }

  lemma CombinedIsGrown(b: Building, name: string)
    requires GrownSeq(b.steps)
    ensures GrownSeq(Combined(b, name).steps)
  {
    if b.steps != [] && LastOf(b.steps).kind == TASK && name != "" {
      var last := LastOf(b.steps);
      assert Grown(last);
      WithLastIsGrown(b.steps, TaskStep(last.name, last.queue, last.retry, last.compensable, name));
    }
  }

  // ---- the first mistake stays, and mistakes surface ----

  lemma DoKeepsMistake(b: Building, stages: seq<Stage>, call: Call)
    requires b.err.Some?
    ensures Do(b, stages, call).0.err == b.err
  {
    hide Built, Chained, BuiltArms, BuiltCases;
    match call
    case ThenAwait(signal, timeout, escalation) => assert Awaited(b, signal, timeout, escalation).err == b.err;
    case ThenOneOf(cases) => assert Chosen(b, cases).err == b.err;
    case RepeatWhile(condition, maxIterations, body) => assert Repeated(b, condition, maxIterations, body).err == b.err;
    case _ =>
  }

  lemma {:induction false} FirstMistakeStays(b: Building, calls: seq<Call>, i: nat, n: nat)
    requires i <= n <= |calls| && PlayFrom(b, calls, i).0.err.Some?
    ensures PlayFrom(b, calls, n).0.err == PlayFrom(b, calls, i).0.err
    decreases n
  {
    hide Do;
    if i < n {
      FirstMistakeStays(b, calls, i, n - 1);
      var (before, stages) := PlayFrom(b, calls, n - 1);
      DoKeepsMistake(before, stages, calls[n - 1]);
    }
  }

  /** Every body a call was given, and every body inside those, was built without a mistake. */
  ghost predicate Clean(b: Body)
    decreases b, 0
  {
    Built(b).Ok? && forall i :: 0 <= i < |b.calls| ==> CleanCall(b.calls[i])
  }

  ghost predicate CleanCall(call: Call)
    decreases call, 1
  {
    match call
    case ThenAwait(_, _, escalation) => escalation.Some? ==> Clean(escalation.value)
    case ThenAllOf(arms) => forall i :: 0 <= i < |arms| ==> Clean(arms[i])
    case ThenOneOf(cases) => forall i :: 0 <= i < |cases| ==> Clean(cases[i].body)
    case RepeatWhile(_, _, body) => Clean(body)
    case _ => true
  }

  /** A branch built without a mistake holds no mistake at any depth. */
  lemma {:induction false} MistakesSurface(b: Body)
    requires Built(b).Ok?
    ensures Clean(b)
    decreases b, 0
  {
    hide PlayFrom, CleanCall;
    forall i | 0 <= i < |b.calls| ensures CleanCall(b.calls[i]) { CallsAreClean(BLANK, b.calls, i); }
  }

  lemma {:induction false} CallsAreClean(b: Building, calls: seq<Call>, i: nat)
    requires i < |calls| && PlayFrom(b, calls, |calls|).0.err.None?
    ensures CleanCall(calls[i])
    decreases calls[i], 1
  {
    hide Do, CleanCall;
    if PlayFrom(b, calls, i + 1).0.err.Some? { FirstMistakeStays(b, calls, i + 1, |calls|); }
    var (before, stages) := PlayFrom(b, calls, i);
    CallIsClean(before, stages, calls[i]);
  }

  lemma {:induction false} CallIsClean(b: Building, stages: seq<Stage>, call: Call)
    requires Do(b, stages, call).0.err.None?
    ensures CleanCall(call)
    decreases call, 0
  {
    hide Built, BuiltArms, BuiltCases, Clean;
    match call
    case ThenAwait(signal, timeout, escalation) =>
      assert Awaited(b, signal, timeout, escalation).err.None?;
      if escalation.Some? {
        assert Chained(escalation.value).Ok?;
        MistakesSurface(escalation.value);
      }
    case ThenAllOf(arms) =>
      forall x | 0 <= x < |arms| ensures Clean(arms[x]) {
        ArmIsBuilt(arms, |arms|, x);
        MistakesSurface(arms[x]);
      }
    case ThenOneOf(cases) =>
      assert Chosen(b, cases).err.None?;
      forall x | 0 <= x < |cases| ensures Clean(cases[x].body) {
        CaseIsBuilt(cases, |cases|, x);
        MistakesSurface(cases[x].body);
      }
    case RepeatWhile(condition, maxIterations, body) =>
      assert Repeated(b, condition, maxIterations, body).err.None?;
      assert Chained(body).Ok?;
      MistakesSurface(body);
    case _ =>
  }

  lemma {:induction false} ArmIsBuilt(arms: seq<Body>, n: nat, i: nat)
    requires i < n <= |arms| && BuiltArms(arms, n).Ok?
    ensures Built(arms[i]).Ok?
  {
    hide Built, LastNames;
    if i < n - 1 { ArmIsBuilt(arms, n - 1, i); } else { assert Chained(arms[i]).Ok?; }
  }

  lemma {:induction false} CaseIsBuilt(cases: seq<Guarded>, n: nat, i: nat)
    requires i < n <= |cases| && BuiltCases(cases, n).Ok?
    ensures Built(cases[i].body).Ok?
  {
    hide Built;
    if i < n - 1 { CaseIsBuilt(cases, n - 1, i); }
  }

  // ---- a ThenAllOf waits for its Combine ----

  /** A call that combines arms the body was given. */
  predicate CombinesOne(stages: seq<Stage>, call: Call) {
    call.CombineArms? && call.stage < |stages| && stages[call.stage].Some?
  }

  /** Call x combines arms that the calls before it were given, and nothing waits after it. */
  ghost predicate Combines(b: Building, calls: seq<Call>, x: nat)
    requires x < |calls|
  {
    CombinesOne(PlayFrom(b, calls, x).1, calls[x]) && !PlayFrom(b, calls, x + 1).0.allOfPending
  }

  lemma CombiningClears(b: Building, calls: seq<Call>, x: nat)
    requires x < |calls| && CombinesOne(PlayFrom(b, calls, x).1, calls[x])
    ensures Combines(b, calls, x)
  {
    hide Do;
    var (before, stages) := PlayFrom(b, calls, x);
    DoClears(before, stages, calls[x]);
  }

  lemma DoClears(b: Building, stages: seq<Stage>, call: Call)
    requires CombinesOne(stages, call)
    ensures !Do(b, stages, call).0.allOfPending
  {}

  lemma StillWaits(b: Building, stages: seq<Stage>, call: Call)
    requires !CombinesOne(stages, call) && Do(b, stages, call).0.err.None? && (b.allOfPending || call.ThenAllOf?)
    ensures Do(b, stages, call).0.allOfPending
  {
    hide Built, Chained, BuiltArms, BuiltCases;
    match call
    case ThenAwait(signal, timeout, escalation) => assert Awaited(b, signal, timeout,
                                                                  escalation).allOfPending == b.allOfPending;
    case ThenOneOf(cases) => assert Chosen(b, cases).allOfPending == b.allOfPending;
    case RepeatWhile(condition, maxIterations, body) =>
      assert Repeated(b, condition, maxIterations, body).allOfPending == b.allOfPending;
    case _ =>
  }

  lemma {:induction false} WaitsForCombine(b: Building, calls: seq<Call>, i: nat, n: nat)
    requires i < n <= |calls| && calls[i].ThenAllOf?
    requires forall x :: i < x < n ==> !CombinesOne(PlayFrom(b, calls, x).1, calls[x])
    requires PlayFrom(b, calls, n).0.err.None?
    ensures PlayFrom(b, calls, n).0.allOfPending
    decreases n
  {
    hide Do;
    if PlayFrom(b, calls, n - 1).0.err.Some? { FirstMistakeStays(b, calls, n - 1, n); }
    if n > i + 1 { WaitsForCombine(b, calls, i, n - 1); }
    var (before, stages) := PlayFrom(b, calls, n - 1);
    StillWaits(before, stages, calls[n - 1]);
  }

  /** After each ThenAllOf of a branch built without a mistake, arms it was given are combined. */
  lemma ArmsAreCombined(b: Body, i: nat)
    requires Built(b).Ok? && i < |b.calls| && b.calls[i].ThenAllOf?
    ensures exists x :: i < x < |b.calls| && Combines(BLANK, b.calls, x)
  {
    hide PlayFrom;
    var calls := b.calls;
    if forall x :: i < x < |calls| ==> !CombinesOne(PlayFrom(BLANK, calls, x).1, calls[x]) {
      WaitsForCombine(BLANK, calls, i, |calls|);
    }
    var x :| i < x < |calls| && CombinesOne(PlayFrom(BLANK, calls, x).1, calls[x]);
    CombiningClears(BLANK, calls, x);
  }

  // ---- every chain of the grammar is built by some script ----

  function StagesIn(steps: seq<BranchStep>, n: nat): nat
    requires n <= |steps|
  {
    if n == 0 then 0 else StagesIn(steps, n - 1) + (if steps[n - 1].kind == FORK then 1 else 0)
  }

  /** The iterations to ask for to be given this budget. */
  function Unnarrowed(budget: int): int { if budget < 0 then budget + INT32_RANGE else budget }

  function CallsOf(s: BranchStep, stage: nat): seq<Call>
    decreases s, 0
  {
    match s.kind
    case TASK =>
      [if s.compensable then ThenApplyCompensable(s.name, s.queue, s.retry) else ThenApply(s.name, s.queue, s.retry)] +
      (if s.combine == "" then [] else [Combine(s.combine)])
    case SLEEP => [ThenSleep(s.sleepMillis * 1_000_000)]
    case SIGNAL =>
      if s.escalation == [] then [ThenAwait(s.name, s.sleepMillis * 1_000_000, None)]
      else [ThenAwait(s.name, s.sleepMillis * 1_000_000 + 1, Some(Body(CallsFor(s.escalation, |s.escalation|))))]
    case SUB_WORKFLOW => [ThenSubFlow(s.name, s.workflow)]
    case FORK => [ThenAllOf(Bodies(s.arms, |s.arms|)), CombineArms(stage, s.combine)]
    case _ =>
      if s.cases != [] then [ThenOneOf(GuardedFor(s.cases, |s.cases|))]
      else if s.body != [] then [RepeatWhile(s.name, Unnarrowed(s.loopBudget), Body(CallsFor(s.body, |s.body|)))]
      else [ThenFilter(s.name, s.queue, s.retry)]
  }

  /** A script that builds the first n steps. */
  function CallsFor(steps: seq<BranchStep>, n: nat): seq<Call>
    requires n <= |steps|
    decreases steps, n
  {
    if n == 0 then [] else CallsFor(steps, n - 1) + CallsOf(steps[n - 1], StagesIn(steps, n - 1))
  }

  function Bodies(arms: seq<Arm>, n: nat): (bodies: seq<Body>)
    requires n <= |arms|
    ensures |bodies| == n
    decreases arms, n
  {
    if n == 0 then [] else Bodies(arms, n - 1) + [Body(CallsFor(arms[n - 1].steps, |arms[n - 1].steps|))]
  }

  function GuardedFor(cases: seq<Case>, n: nat): (arms: seq<Guarded>)
    requires n <= |cases|
    ensures |arms| == n
    decreases cases, n
  {
    if n == 0 then []
    else GuardedFor(cases,
                    n - 1) + [Guarded(cases[n - 1].guard, Body(CallsFor(cases[n - 1].steps, |cases[n - 1].steps|)))]
  }

  lemma {:induction false} PlayPrefix(a: seq<Call>, b: seq<Call>, n: nat)
    requires n <= |a| && n <= |b| && forall i :: 0 <= i < n ==> a[i] == b[i]
    ensures PlayFrom(BLANK, a, n) == PlayFrom(BLANK, b, n)
    decreases n
  {
    hide Do;
    if n > 0 { PlayPrefix(a, b, n - 1); }
  }

  lemma {:induction false} BodiesAt(arms: seq<Arm>, n: nat, i: nat)
    requires i < n <= |arms|
    ensures Bodies(arms, n)[i] == Body(CallsFor(arms[i].steps, |arms[i].steps|))
  {
    hide CallsFor;
    if i < n - 1 { BodiesAt(arms, n - 1, i); }
  }

  lemma {:induction false} GuardedForAt(cases: seq<Case>, n: nat, i: nat)
    requires i < n <= |cases|
    ensures GuardedFor(cases, n)[i] == Guarded(cases[i].guard, Body(CallsFor(cases[i].steps, |cases[i].steps|)))
  {
    hide CallsFor;
    if i < n - 1 { GuardedForAt(cases, n - 1, i); }
  }

  lemma {:induction false} ArmsAreBuilt(arms: seq<Arm>, n: nat)
    requires n <= |arms| && GrownArms(arms)
    ensures BuiltArms(Bodies(arms, |arms|), n) == Ok(arms[..n])
    decreases arms, n
  {
    hide Built, CallsFor, GrownSeq;
    if n > 0 {
      var steps, before := arms[n - 1].steps, arms[..n - 1];
      ArmsAreBuilt(arms, n - 1);
      BodiesAt(arms, |arms|, n - 1);
      ScriptBuilds(steps);
      assert Chained(Bodies(arms, |arms|)[n - 1]) == Ok(steps);
      assert LastOf(steps).name !in LastNames(before) by {
        forall i | 0 <= i < |before| ensures LastOf(before[i].steps).name != LastOf(steps).name {
          assert before[i] == arms[i];
        }
      }
      assert arms[..n] == before + [arms[n - 1]];
    }
  }

  lemma {:induction false} CasesAreBuilt(cases: seq<Case>, n: nat)
    requires n <= |cases| && GrownCases(cases, |cases|)
    ensures BuiltCases(GuardedFor(cases, |cases|), n) == Ok(cases[..n])
    decreases cases, n
  {
    hide Built, CallsFor, GrownSeq;
    if n > 0 {
      CasesAreBuilt(cases, n - 1);
      GuardedForAt(cases, |cases|, n - 1);
      ScriptBuilds(cases[n - 1].steps);
      assert cases[..n] == cases[..n - 1] + [cases[n - 1]];
    }
  }

  lemma {:induction false} ScriptBuilds(steps: seq<BranchStep>)
    requires GrownSeq(steps)
    ensures Built(Body(CallsFor(steps, |steps|))) == Ok(steps)
    decreases steps, |steps| + 1
  {
    hide PlayFrom, CallsFor, GrownSeq;
    StepsAreBuilt(steps, |steps|);
    assert steps[..|steps|] == steps;
  }

  lemma {:induction false} StepsAreBuilt(steps: seq<BranchStep>, n: nat)
    requires n <= |steps| && GrownSeq(steps)
    ensures var calls := CallsFor(steps, n);
            var (b, stages) := PlayFrom(BLANK, calls, |calls|);
            b == Building(steps[..n], None, false) && |stages| == StagesIn(steps, n)
    decreases steps, n
  {
    hide Do, Grown, CallsOf;
    if n > 0 {
      var before, s, calls := CallsFor(steps, n - 1), steps[n - 1], CallsFor(steps, n);
      StepsAreBuilt(steps, n - 1);
      PlayPrefix(before, calls, |before|);
      assert steps[..n] == steps[..n - 1] + [s];
      var (b, stages) := PlayFrom(BLANK, before, |before|);
      StepIsBuilt(s, b, stages);
      var own := CallsOf(s, |stages|);
      assert calls == before + own;
      assert calls[|before|] == own[0];
      if |own| == 2 { assert calls[|before| + 1] == own[1]; }
    }
  }

  /** The one or two calls for a step add it. */
  lemma {:induction false} StepIsBuilt(s: BranchStep, b: Building, stages: seq<Stage>)
    requires Grown(s) && b.err.None? && !b.allOfPending
    ensures var calls := CallsOf(s, |stages|);
            && 1 <= |calls| <= 2
            && var one := Do(b, stages, calls[0]);
               var (b', stages') := if |calls| == 2 then Do(one.0, one.1, calls[1]) else one;
               b' == Appended(b, s) && |stages'| == |stages| + (if s.kind == FORK then 1 else 0)
    decreases s, 1
  {
    hide Built, BuiltArms, CallsFor, GrownSeq, GrownArms, GrownCases, After;
    if s.kind == TASK {
      TaskIsBuilt(s, b);
    } else if s.kind == FORK {
      ArmsAreBuilt(s.arms, |s.arms|);
      assert s.arms[..|s.arms|] == s.arms;
    } else {
      OneCallBuilds(s, b);
    }
  }

  lemma TaskIsBuilt(s: BranchStep, b: Building)
    requires s.kind == TASK && Grown(s) && b.err.None?
    ensures var first := if s.compensable then ThenApplyCompensable(s.name, s.queue, s.retry)
            else ThenApply(s.name, s.queue, s.retry);
            if s.combine == "" then After(b, first) == Appended(b, s)
            else After(After(b, first), Combine(s.combine)) == Appended(b, s)
  {
    var bare := TaskStep(s.name, s.queue, s.retry, false, "");
    var plain := TaskStep(s.name, s.queue, s.retry, s.compensable, "");
    LastReplaced(b.steps, bare, plain);
    LastReplaced(b.steps, plain, s);
    if s.compensable {
      assert Compensable(b, s.name, s.queue, s.retry) == Appended(b, plain);
    } else {
      assert Added(b, bare) == Appended(b, plain);
    }
    if s.combine != "" { assert Combined(Appended(b, plain), s.combine) == Appended(b, s); }
  }

  lemma LastReplaced(steps: seq<BranchStep>, a: BranchStep, b: BranchStep)
    ensures WithLast(steps + [a], b) == steps + [b]
  {
    assert (steps + [a])[..|steps|] == steps;
  }

  lemma {:induction false} OneCallBuilds(s: BranchStep, b: Building)
    requires Grown(s) && b.err.None? && s.kind != TASK && s.kind != FORK
    ensures After(b, CallsOf(s, 0)[0]) == Appended(b, s)
    decreases s, 0
  {
    hide Built, BuiltCases, CallsFor, GrownSeq, GrownCases;
    match s.kind
    case SLEEP =>
    case SIGNAL =>
      if s.escalation != [] {
        ScriptBuilds(s.escalation);
        assert Chained(Body(CallsFor(s.escalation, |s.escalation|))) == Ok(s.escalation);
      }
    case SUB_WORKFLOW =>
    case PREDICATE =>
      if s.cases != [] {
        GuardedForAt(s.cases, |s.cases|, 0);
        CasesAreBuilt(s.cases, |s.cases|);
        assert s.cases[..|s.cases|] == s.cases;
        assert Chosen(b, GuardedFor(s.cases, |s.cases|)) == Appended(b, s);
      } else if s.body != [] {
        ScriptBuilds(s.body);
        assert Chained(Body(CallsFor(s.body, |s.body|))) == Ok(s.body);
      }
  }

  /** The chains scripts build are exactly those of the grammar. */
  lemma BuiltIff(steps: seq<BranchStep>)
    ensures (exists b :: Built(b) == Ok(steps)) <==> GrownSeq(steps)
  {
    hide Built, CallsFor;
    if b :| Built(b) == Ok(steps) { BuiltIsGrown(b); }
    if GrownSeq(steps) { ScriptBuilds(steps); }
  }

  // ---- how arms end ----

  predicate IsTaskOrGate(s: BranchStep) { s.kind == TASK || (s.kind == PREDICATE && s.cases == [] && s.body == []) }

  predicate IsChoice(s: BranchStep) { s.kind == PREDICATE && s.cases != [] }

  /** How many ThenAllOf are among the first n calls: so many arms there are to combine. */
  function Given(calls: seq<Call>, n: nat): nat
    requires n <= |calls|
  {
    if n == 0 then 0 else Given(calls, n - 1) + (if calls[n - 1].ThenAllOf? then 1 else 0)
  }

  /** Whether call x adds a step, if nothing is a mistake. */
  predicate AddsStep(calls: seq<Call>, x: nat)
    requires x < |calls|
  {
    !calls[x].Combine? && !calls[x].ThenAllOf? && (calls[x].CombineArms? ==> calls[x].stage < Given(calls, x))
  }

  /** The last of the first n calls that adds a step. */
  function LastAdding(calls: seq<Call>, n: nat): Option<Call>
    requires n <= |calls|
  {
    if n == 0 then None else if AddsStep(calls, n - 1) then Some(calls[n - 1]) else LastAdding(calls, n - 1)
  }

  /** A step is of the kind a call adds. */
  predicate AddedBy(s: BranchStep, call: Call) {
    match call
    case ThenApply(_, _, _) => s.kind == TASK
    case ThenApplyCompensable(_, _, _) => s.kind == TASK
    case ThenFilter(_, _, _) => s.kind == PREDICATE && s.cases == [] && s.body == []
    case ThenSleep(_) => s.kind == SLEEP
    case ThenAwait(_, _, _) => s.kind == SIGNAL
    case ThenSubFlow(_, _) => s.kind == SUB_WORKFLOW
    case CombineArms(_, _) => s.kind == FORK
    case RepeatWhile(_, _, _) => s.kind == PREDICATE && s.body != []
    case ThenOneOf(_) => s.kind == PREDICATE && s.cases != []
    case _ => false
  }

  ghost predicate EndsAs(b: Building, stages: seq<Stage>, calls: seq<Call>, n: nat)
    requires n <= |calls|
  {
    && |stages| == Given(calls, n) && (forall i :: 0 <= i < |stages| ==> stages[i].Some?)
    && match LastAdding(calls, n)
       case None => b.steps == []
       case Some(call) => b.steps != [] && AddedBy(LastOf(b.steps), call)
  }

  lemma DoEndsAs(b: Building, stages: seq<Stage>, calls: seq<Call>, n: nat)
    requires 0 < n <= |calls| && EndsAs(b, stages, calls, n - 1) && Do(b, stages, calls[n - 1]).0.err.None?
    ensures var (b', stages') := Do(b, stages, calls[n - 1]); EndsAs(b', stages', calls, n)
  {
    hide After, BuiltArms, AddedBy;
    match calls[n - 1]
    case ThenAllOf(_) =>
    case CombineArms(i, _) => if i < |stages| { ForkAdded(stages[i].value); }
    case Combine(name) =>
      AfterEndsAs(b, calls[n - 1]);
      SameEnd(b, name, LastAdding(calls, n - 1).value);
    case _ => AfterEndsAs(b, calls[n - 1]);
  }

  lemma ForkAdded(arms: seq<Arm>)
    ensures forall i, name, combine :: AddedBy(ForkStep(arms, combine), CombineArms(i, name))
  {}

  lemma AfterEndsAs(b: Building, call: Call)
    requires !call.ThenAllOf? && !call.CombineArms? && After(b, call).err.None?
    ensures var steps := After(b, call).steps;
            steps != [] && (if call.Combine? then b.steps != [] else AddedBy(LastOf(steps), call))
  {
    hide Built, Chained;
    match call
    case ThenAwait(signal, timeout, escalation) => assert Awaited(b, signal, timeout, escalation).steps != [];
    case ThenOneOf(cases) => ChosenEndsAs(b, cases);
    case RepeatWhile(condition, maxIterations, body) => RepeatedEndsAs(b, condition, maxIterations, body);
    case _ =>
  }

  /** Combine does not change what the last step was added by. */
  lemma SameEnd(b: Building, name: string, call: Call)
    requires b.steps != [] && AddedBy(LastOf(b.steps), call)
    ensures var steps := After(b, Combine(name)).steps; steps != [] && AddedBy(LastOf(steps), call)
  {}

  lemma ChosenEndsAs(b: Building, cases: seq<Guarded>)
    requires Chosen(b, cases).err.None?
    ensures var steps := Chosen(b, cases).steps; steps != [] && AddedBy(LastOf(steps), ThenOneOf(cases))
  {
    hide BuiltCases;
    CasesAreGrown(cases, |cases|);
  }

  lemma RepeatedEndsAs(b: Building, condition: string, maxIterations: int, body: Body)
    requires Repeated(b, condition, maxIterations, body).err.None?
    ensures var steps := Repeated(b, condition, maxIterations, body).steps;
            steps != [] && AddedBy(LastOf(steps), RepeatWhile(condition, maxIterations, body))
  {
    hide Chained;
    ChainedIsGrown(body);
  }

  lemma {:induction false} PlayEndsAs(calls: seq<Call>, n: nat)
    requires n <= |calls| && PlayFrom(BLANK, calls, n).0.err.None?
    ensures var (b, stages) := PlayFrom(BLANK, calls, n); EndsAs(b, stages, calls, n)
  {
    hide Do, EndsAs;
    if n == 0 {
      BlankEndsAs(calls);
    } else {
      if PlayFrom(BLANK, calls, n - 1).0.err.Some? { FirstMistakeStays(BLANK, calls, n - 1, n); }
      PlayEndsAs(calls, n - 1);
      var (b, stages) := PlayFrom(BLANK, calls, n - 1);
      DoEndsAs(b, stages, calls, n);
    }
  }

  lemma BlankEndsAs(calls: seq<Call>)
    ensures EndsAs(BLANK, [], calls, 0)
  {}

  /**
   * An arm that ThenAllOf takes ends in a task or a gate exactly when the last call of its body that adds a step is
   * neither ThenOneOf nor RepeatWhile: those add steps of a gate's kind, and only the kind is looked at.
   */
  lemma ArmEndsAsAskedIff(arms: seq<Body>, i: nat)
    requires BuiltArms(arms, |arms|).Ok? && i < |arms|
    ensures var built, last := BuiltArms(arms, |arms|).value, LastAdding(arms[i].calls, |arms[i].calls|);
            && i < |built| && built[i].steps != [] && last.Some?
            && (IsTaskOrGate(LastOf(built[i].steps)) <==> !last.value.ThenOneOf? && !last.value.RepeatWhile?)
  {
    hide PlayFrom, LastAdding, LastNames;
    var calls := arms[i].calls;
    ArmAt(arms, |arms|, i);
    assert Chained(arms[i]).Ok? && Built(arms[i]).Ok?;
    PlayEndsAs(calls, |calls|);
  }

  lemma {:induction false} ArmAt(arms: seq<Body>, n: nat, i: nat)
    requires i < n <= |arms| && BuiltArms(arms, n).Ok?
    ensures var built := BuiltArms(arms, n).value;
            && |built| == n && Chained(arms[i]) == Ok(built[i].steps)
            && built[i].steps != [] && LastOf(built[i].steps).kind in {TASK, PREDICATE}
  {
    hide Chained, LastNames;
    if i < n - 1 { ArmAt(arms, n - 1, i); } else if n > 1 { ArmAt(arms, n - 1, 0); }
  }

  /** Forks with an arm that ends in a loop, and with one that ends in a choice, can be built. */
  lemma ArmsEndOtherwise()
    ensures var gate := GateStep("ok", "", None);
            var loop, choice := LoopStep("again", [gate], 0), ChoiceStep([Case("vip", [gate])]);
            && !IsTaskOrGate(loop) && !IsTaskOrGate(choice)
            && (exists b :: Built(b) == Ok([ForkStep([Arm([loop]), Arm([gate])], "settle")]))
            && (exists b :: Built(b) == Ok([ForkStep([Arm([choice]), Arm([gate])], "settle")]))
  {
    var gate := GateStep("ok", "", None);
    var loop, choice := LoopStep("again", [gate], 0), ChoiceStep([Case("vip", [gate])]);
    assert Grown(gate) && GrownSeq([gate]);
    assert GrownCases(choice.cases, 1);
    assert Grown(loop) && Grown(choice);
    ForkWithIsBuilt(loop, gate);
    ForkWithIsBuilt(choice, gate);
  }

  lemma ForkWithIsBuilt(last: BranchStep, gate: BranchStep)
    requires Grown(last) && last.kind == PREDICATE && Grown(gate) && gate.kind == PREDICATE && last.name != gate.name
    ensures exists b :: Built(b) == Ok([ForkStep([Arm([last]), Arm([gate])], "settle")])
  {
    hide Built;
    var arms := [Arm([last]), Arm([gate])];
    assert GrownSeq([last]) && GrownSeq([gate]);
    assert GrownArms(arms);
    assert Grown(ForkStep(arms, "settle"));
    BuiltIff([ForkStep(arms, "settle")]);
  }

  /** An arm of a fork has a name unless it ends in a choice, which has none. */
  lemma ArmIsNamedIff(arms: seq<Arm>, i: nat)
    requires GrownArms(arms) && i < |arms|
    ensures LastOf(arms[i].steps).name != "" <==> !IsChoice(LastOf(arms[i].steps))
  {
    var last := LastOf(arms[i].steps);
    assert Grown(last);
  }

  // ---- the timeout of a wait ----

  /** A wait that is added keeps its timeout exactly when that is a millisecond or more. */
  lemma TimeoutKeptIff(b: Building, signal: string, timeout: Duration, escalation: Option<Body>)
    requires Awaited(b, signal, timeout, escalation).err.None?
    ensures var steps := Awaited(b, signal, timeout, escalation).steps;
            |steps| == |b.steps| + 1 && (LastOf(steps).sleepMillis > 0 <==> timeout >= 1_000_000)
  {
    hide Chained;
  }

  /** An escalation can be built under a timeout that is not kept, and then never runs. */
  lemma TooShortAWait()
    ensures var gate := GateStep("ok", "", None);
            var b := Body([ThenAwait("approval", 1, Some(Body([ThenFilter("ok", "", None)])))]);
            Built(b) == Ok([SignalStep("approval", 0, [gate])])
  {
    var gate := GateStep("ok", "", None);
    var wait := SignalStep("approval", 0, [gate]);
    assert Grown(gate) && GrownSeq([gate]) && Grown(wait) && GrownSeq([wait]);
    assert CallsFor([gate], 0) == [] && CallsFor([gate], 1) == [ThenFilter("ok", "", None)];
    assert CallsFor([wait], 0) == [] && CallsFor([wait], 1) == CallsOf(wait, 0);
    ScriptBuilds([wait]);
  }

  // ---- the budget of a loop ----

  /** A loop that is added keeps the budget it was given exactly when that fits 32 bits. */
  lemma BudgetKeptIff(b: Building, condition: string, maxIterations: int, body: Body)
    requires condition != "" && maxIterations >= 0 && Chained(body).Ok?
    ensures var steps := After(b, RepeatWhile(condition, maxIterations, body)).steps;
            && |steps| == |b.steps| + 1
            && (LastOf(steps).loopBudget == maxIterations <==> maxIterations < INT32_LIMIT)
  {
    hide Chained;
    assert After(b, RepeatWhile(condition, maxIterations, body)) == Repeated(b, condition, maxIterations, body);
  }

  /** A larger budget may even turn negative. */
  lemma BudgetTurnsNegative()
    ensures var gate := GateStep("ok", "", None);
            var b := Body([RepeatWhile("again", INT32_LIMIT, Body([ThenFilter("ok", "", None)]))]);
            Built(b) == Ok([LoopStep("again", [gate], -INT32_LIMIT)])
  {
    var gate := GateStep("ok", "", None);
    var loop := LoopStep("again", [gate], -INT32_LIMIT);
    assert Grown(gate) && GrownSeq([gate]) && Grown(loop) && GrownSeq([loop]);
    assert CallsFor([gate], 0) == [] && CallsFor([gate], 1) == [ThenFilter("ok", "", None)];
    assert CallsFor([loop], 0) == [] && CallsFor([loop], 1) == CallsOf(loop, 0);
    ScriptBuilds([loop]);
  }
}
