/** What a recorder leaves: exactly the trees of a grammar, and never past a mistake, however deep it was made. */
module Recorded {
  import opened Topology
  import opened Recorder
  import Layout

  // ---- the grammar of recorded trees ----

  ghost predicate Grown(s: Step)
    decreases s
  {
    match s
    case Task(_, _, _, _, _) => true
    case Gate(_, _, _) => true
    case Sleep(name, d) => name == Layout.SleepName("", d)
    case Signal(_, _, escalation) => GrownSeq(escalation)
    case SubFlow(name, workflow) => workflow != "" && name != ""
    case Fork(arms, combine) =>
      |arms| >= 2 && combine != "" && GrownBlocks(arms) && forall i :: 0 <= i < |arms| ==>
        ArmName(arms[i].steps) == Some(arms[i].tag)
    case ForEach(name, itemsKey, body, combine) =>
      body != [] && combine != "" && (name == "" ==> itemsKey == "") && GrownSeq(body)
    case Choose(cases) =>
      && cases != [] && cases[0].tag != "" && GrownBlocks(cases)
      && forall i :: 0 <= i < |cases| - 1 ==> cases[i].tag != ""
    case Loop(_, _, body) => GrownSeq(body)
  }

  ghost predicate GrownSeq(steps: seq<Step>)
    decreases steps
  {
    forall i :: 0 <= i < |steps| ==> Grown(steps[i])
  }

  ghost predicate GrownBlocks(blocks: seq<Block>)
    decreases blocks
  {
    forall i :: 0 <= i < |blocks| ==> GrownSeq(blocks[i].steps)
  }

  ghost predicate GrownStage(stage: Stage) {
    match stage
    case NoStage => true
    case ForkStage(arms) => Grown(Fork(arms, "combine"))
    case EachStage(name, itemsKey, body) => Grown(ForEach(name, itemsKey, body, "combine"))
  }

  // ---- whatever is called, what is recorded is of the grammar ----

  lemma {:induction false} BuiltIsGrown(b: Body)
    ensures Built(b).Ok? ==> GrownSeq(Built(b).value)
    decreases b, 0
  {
    hide Play, Grown;
    PlayIsGrown(b.calls, |b.calls|);
  }

  lemma {:induction false} PlayIsGrown(calls: seq<Call>, n: nat)
    requires n <= |calls|
    ensures var (r, stages) := Play(calls, n);
            GrownSeq(r.steps) && forall i :: 0 <= i < |stages| ==> GrownStage(stages[i])
    decreases calls, n
  {
    hide Grown, GrownStage, Do;
    if n > 0 {
      PlayIsGrown(calls, n - 1);
      var (r, stages) := Play(calls, n - 1);
      DoIsGrown(r, stages, calls[n - 1]);
    }
  }

  lemma {:induction false} DoIsGrown(r: Recording, stages: seq<Stage>, call: Call)
    requires GrownSeq(r.steps) && forall i :: 0 <= i < |stages| ==> GrownStage(stages[i])
    ensures var (r', stages') := Do(r, stages, call);
            GrownSeq(r'.steps) && forall i :: 0 <= i < |stages'| ==> GrownStage(stages'[i])
    decreases call, 2
  {
    hide Grown, GrownStage, After, Forked, Spread, StageCombined;
    match call
    case ThenAllOf(arms) => ForkedIsGrown(r, arms);
    case ThenForEach(name, itemsKey, body) => SpreadIsGrown(r, name, itemsKey, body);
    case CombineStage(i, name) => if i < |stages| { StageCombinedIsGrown(r, stages[i], name); }
    case _ => AfterIsGrown(r, call);
  }

  lemma AddedIsGrown(r: Recording, s: Step)
    requires GrownSeq(r.steps) && Grown(s)
    ensures GrownSeq(Added(r, s).steps)
  {
    hide Grown;
  }

  lemma StageCombinedIsGrown(r: Recording, stage: Stage, name: string)
    requires GrownSeq(r.steps) && GrownStage(stage)
    ensures GrownSeq(StageCombined(r, stage, name).steps)
  {
    hide Added, GrownSeq;
    if name != "" {
      match stage
      case NoStage =>
      case ForkStage(arms) => AddedIsGrown(r.(pending := Nothing), Fork(arms, name));
      case EachStage(each, itemsKey, body) => AddedIsGrown(r.(pending := Nothing), ForEach(each, itemsKey, body, name));
    }
  }

  lemma {:induction false} ForkedIsGrown(r: Recording, arms: seq<Body>)
    ensures Forked(r, arms).0.steps == r.steps && GrownStage(Forked(r, arms).1)
    decreases arms, |arms| + 1
  {
    hide BuiltArms;
    ArmsAreGrown(arms, |arms|);
  }

  lemma {:induction false} ArmsAreGrown(arms: seq<Body>, n: nat)
    requires n <= |arms|
    ensures var blocks := BuiltArms(arms, n);
            blocks.Ok? ==>
              && |blocks.value| == n && GrownBlocks(blocks.value)
              && forall i :: 0 <= i < n ==> ArmName(blocks.value[i].steps) == Some(blocks.value[i].tag)
    decreases arms, n
  {
    hide Built, ArmName, GrownSeq;
    if n > 0 {
      ArmsAreGrown(arms, n - 1);
      BuiltIsGrown(arms[n - 1]);
    }
  }

  lemma {:induction false} SpreadIsGrown(r: Recording, name: string, itemsKey: string, body: Body)
    ensures var (r', stage) := Spread(r, name, itemsKey, body); r'.steps == r.steps && GrownStage(stage)
    decreases body, 1
  {
    hide Built;
    BuiltIsGrown(body);
  }

  lemma {:induction false} CasesAreGrown(cases: seq<Arm>, n: nat)
    requires n <= |cases|
    ensures var blocks := BuiltCases(cases, n);
            blocks.Ok? ==>
              && |blocks.value| == n && GrownBlocks(blocks.value)
              && (forall i :: 0 <= i < n ==> blocks.value[i].tag == cases[i].guard)
              && (forall i :: 0 <= i < n && i < |cases| - 1 ==> cases[i].guard != "")
    decreases cases, n
  {
    hide Built, GrownSeq;
    if n > 0 {
      CasesAreGrown(cases, n - 1);
      BuiltIsGrown(cases[n - 1].body);
    }
  }

  lemma {:induction false} AfterIsGrown(r: Recording, call: Call)
    requires !call.ThenAllOf? && !call.ThenForEach? && !call.CombineStage?
    requires GrownSeq(r.steps)
    ensures GrownSeq(After(r, call).steps)
    decreases call, 1
  {
    hide Built, BuiltCases, Added, GrownSeq;
    match call
    case ThenApply(name, queue, retry, compensable) => AddedIsGrown(r, Task(name, queue, retry, compensable, ""));
    case ThenFilter(name, queue, retry) => AddedIsGrown(r, Gate(name, queue, retry));
    case Combine(name) => CombinedIsGrown(r, name);
    case ThenSleep(d) => AddedIsGrown(r, Sleep(Layout.SleepName("", d), d));
    case ThenAwait(signal, timeout, escalation) =>
      if escalation.None? {
        NothingIsGrown();
        AddedIsGrown(r, Signal(signal, timeout, []));
      } else {
        BuiltIsGrown(escalation.value);
        if Built(escalation.value).Ok? { AddedIsGrown(r, Signal(signal, timeout, Built(escalation.value).value)); }
      }
    case ThenSubFlow(node, workflow) =>
      if workflow != "" { AddedIsGrown(r, SubFlow(Layout.SubFlowName(node, workflow), workflow)); }
    case ThenOneOf(cases) =>
      CasesAreGrown(cases, |cases|);
      if cases != [] && cases[0].guard != "" && BuiltCases(cases, |cases|).Ok? {
        AddedIsGrown(r, Choose(BuiltCases(cases, |cases|).value));
      }
    case RepeatWhile(condition, maxIterations, body) =>
      BuiltIsGrown(body);
      if Built(body).Ok? { AddedIsGrown(r, Loop(condition, maxIterations, Built(body).value)); }
  }

  lemma NothingIsGrown()
    ensures GrownSeq([])
  {}

  lemma CombinedIsGrown(r: Recording, name: string)
    requires GrownSeq(r.steps)
    ensures GrownSeq(Combined(r, name).steps)
  {}

  // ---- the first mistake stays, and mistakes surface ----

  lemma DoKeepsMistake(r: Recording, stages: seq<Stage>, call: Call)
    requires r.err.Some?
    ensures Do(r, stages, call).0.err == r.err
  {
    hide Built, BuiltArms, BuiltCases;
    match call
    case ThenAwait(signal, timeout, escalation) => assert Awaited(r, signal, timeout, escalation).err == r.err;
    case ThenOneOf(cases) => assert Chosen(r, cases).err == r.err;
    case RepeatWhile(condition, maxIterations, body) => assert Repeated(r, condition, maxIterations, body).err == r.err;
    case _ =>
  }

  lemma {:induction false} FirstMistakeStays(calls: seq<Call>, i: nat, n: nat)
    requires i <= n <= |calls| && Play(calls, i).0.err.Some?
    ensures Play(calls, n).0.err == Play(calls, i).0.err
    decreases n
  {
    hide Do;
    if i < n {
      FirstMistakeStays(calls, i, n - 1);
      var (r, stages) := Play(calls, n - 1);
      DoKeepsMistake(r, stages, calls[n - 1]);
    }
  }

  /** Every body a call was given, and every body inside those, was recorded without a mistake. */
  ghost predicate Clean(b: Body)
    decreases b, 0
  {
    Built(b).Ok? && forall i :: 0 <= i < |b.calls| ==> CleanCall(b.calls[i])
  }

  ghost predicate CleanCall(call: Call)
    decreases call, 1
  {
    match call
    case ThenAwait(_, _, escalation) => escalation.Some? ==> Clean(escalation.value)
    case ThenAllOf(arms) => forall i :: 0 <= i < |arms| ==> Clean(arms[i])
    case ThenForEach(_, _, body) => Clean(body)
    case ThenOneOf(cases) => forall i :: 0 <= i < |cases| ==> Clean(cases[i].body)
    case RepeatWhile(_, _, body) => Clean(body)
    case _ => true
  }

  /** A body recorded without a mistake holds no mistake at any depth. */
  lemma {:induction false} MistakesSurface(b: Body)
    requires Built(b).Ok?
    ensures Clean(b)
    decreases b, 0
  {
    hide Play, CleanCall, Built;
    forall i | 0 <= i < |b.calls| ensures CleanCall(b.calls[i]) {
      NoMistakeUpTo(b, i + 1);
      var (r, stages) := Play(b.calls, i);
      CallIsClean(r, stages, b.calls[i]);
    }
  }

  lemma NoMistakeUpTo(b: Body, n: nat)
    requires n <= |b.calls| && Built(b).Ok?
    ensures n > 0 ==> var (r, stages) := Play(b.calls, n - 1); Do(r, stages, b.calls[n - 1]).0.err.None?
  {
    hide Do;
    if Play(b.calls, n).0.err.Some? { FirstMistakeStays(b.calls, n, |b.calls|); }
  }

  lemma {:induction false} CallIsClean(r: Recording, stages: seq<Stage>, call: Call)
    requires Do(r, stages, call).0.err.None?
    ensures CleanCall(call)
    decreases call, 0
  {
    hide Built, BuiltArms, BuiltCases, Clean;
    match call
    case ThenAwait(signal, timeout, escalation) =>
      assert Awaited(r, signal, timeout, escalation).err.None?;
      if escalation.Some? { MistakesSurface(escalation.value); }
    case ThenAllOf(arms) =>
      forall x | 0 <= x < |arms| ensures Clean(arms[x]) {
        ArmIsBuilt(arms, |arms|, x);
        MistakesSurface(arms[x]);
      }
    case ThenForEach(_, _, body) => MistakesSurface(body);
    case ThenOneOf(cases) =>
      assert Chosen(r, cases).err.None?;
      forall x | 0 <= x < |cases| ensures Clean(cases[x].body) {
        CaseIsBuilt(cases, |cases|, x);
        MistakesSurface(cases[x].body);
      }
    case RepeatWhile(condition, maxIterations, body) =>
      assert Repeated(r, condition, maxIterations, body).err.None?;
      MistakesSurface(body);
    case _ =>
  }

  lemma {:induction false} ArmIsBuilt(arms: seq<Body>, n: nat, i: nat)
    requires i < n <= |arms| && BuiltArms(arms, n).Ok?
    ensures Built(arms[i]).Ok?
  {
    hide Built;
    if i < n - 1 { ArmIsBuilt(arms, n - 1, i); }
  }

  lemma {:induction false} CaseIsBuilt(cases: seq<Arm>, n: nat, i: nat)
    requires i < n <= |cases| && BuiltCases(cases, n).Ok?
    ensures Built(cases[i].body).Ok?
  {
    hide Built;
    if i < n - 1 { CaseIsBuilt(cases, n - 1, i); }
  }

  // ---- a stage waits for its Combine ----

  predicate GivesStage(call: Call) { call.ThenAllOf? || call.ThenForEach? }

  /** A call that combines a stage the body was given. */
  predicate CombinesOne(stages: seq<Stage>, call: Call) {
    call.CombineStage? && call.stage < |stages| && stages[call.stage] != NoStage
  }

  /** Call x combines a stage that the calls before it were given, and nothing waits after it. */
  ghost predicate Combines(calls: seq<Call>, x: nat)
    requires x < |calls|
  {
    CombinesOne(Play(calls, x).1, calls[x]) && Play(calls, x + 1).0.pending == Nothing
  }

  lemma CombiningClears(calls: seq<Call>, x: nat)
    requires x < |calls| && CombinesOne(Play(calls, x).1, calls[x])
    ensures Combines(calls, x)
  {
    hide Do;
    var (r, stages) := Play(calls, x);
    DoClears(r, stages, calls[x]);
  }

  lemma DoClears(r: Recording, stages: seq<Stage>, call: Call)
    requires CombinesOne(stages, call)
    ensures Do(r, stages, call).0.pending == Nothing
  {}

  lemma StillWaits(r: Recording, stages: seq<Stage>, call: Call)
    requires !CombinesOne(stages, call) && (r.pending != Nothing || GivesStage(call))
    ensures var r' := Do(r, stages, call).0; r'.err.None? ==> r'.pending != Nothing && |r'.steps| == |r.steps|
  {
    hide Built, BuiltArms, BuiltCases;
    match call
    case ThenAwait(signal, timeout, escalation) => assert Awaited(r, signal, timeout, escalation).err.Some?;
    case ThenOneOf(cases) => assert Chosen(r, cases).err.Some?;
    case RepeatWhile(condition, maxIterations, body) => assert Repeated(r, condition, maxIterations, body).err.Some?;
    case _ =>
  }

  /** Until some stage is combined, a body that made no mistake waits, and records no step. */
  lemma {:induction false} WaitsForCombine(calls: seq<Call>, i: nat, n: nat)
    requires i < n <= |calls| && GivesStage(calls[i])
    requires forall x :: i < x < n ==> !CombinesOne(Play(calls, x).1, calls[x])
    requires Play(calls, n).0.err.None?
    ensures Play(calls, n).0.pending != Nothing && |Play(calls, n).0.steps| == |Play(calls, i).0.steps|
    decreases n
  {
    hide Do;
    if Play(calls, n - 1).0.err.Some? { FirstMistakeStays(calls, n - 1, n); }
    if n > i + 1 { WaitsForCombine(calls, i, n - 1); }
    var (r, stages) := Play(calls, n - 1);
    StillWaits(r, stages, calls[n - 1]);
  }

  /**
   * After each ThenAllOf and each ThenForEach of a body recorded without a mistake, a stage it was given is combined.
   */
  lemma StagesAreCombined(b: Body, i: nat)
    requires Built(b).Ok? && i < |b.calls| && GivesStage(b.calls[i])
    ensures exists x :: i < x < |b.calls| && Combines(b.calls, x)
  {
    hide Play;
    var calls := b.calls;
    if forall x :: i < x < |calls| ==> !CombinesOne(Play(calls, x).1, calls[x]) { WaitsForCombine(calls, i, |calls|); }
    var x :| i < x < |calls| && CombinesOne(Play(calls, x).1, calls[x]);
    CombiningClears(calls, x);
  }

  // ---- every tree of the grammar is recorded by some script ----

  /** How many stages recording the first n steps takes. */
  function StagesIn(steps: seq<Step>, n: nat): nat
    requires n <= |steps|
  {
    if n == 0 then 0 else StagesIn(steps, n - 1) + (if steps[n - 1].Fork? || steps[n - 1].ForEach? then 1 else 0)
  }

  function CallsOf(s: Step, stage: nat): seq<Call>
    decreases s
  {
    match s
    case Task(name, queue, retry, compensate, combine) =>
      [ThenApply(name, queue, retry, compensate)] + (if combine == "" then [] else [Combine(combine)])
    case Gate(name, queue, retry) => [ThenFilter(name, queue, retry)]
    case Sleep(_, d) => [ThenSleep(d)]
    case Signal(name, timeout, escalation) =>
      [ThenAwait(name, timeout, if escalation == [] then None else Some(Body(CallsFor(escalation, |escalation|))))]
    case SubFlow(name, workflow) => [ThenSubFlow(name, workflow)]
    case Fork(arms, combine) => [ThenAllOf(Bodies(arms, |arms|)), CombineStage(stage, combine)]
    case ForEach(name, itemsKey, body, combine) =>
      [ThenForEach(name, itemsKey, Body(CallsFor(body, |body|))), CombineStage(stage, combine)]
    case Choose(cases) => [ThenOneOf(ArmsFor(cases, |cases|))]
    case Loop(cond, maxIterations, body) => [RepeatWhile(cond, maxIterations, Body(CallsFor(body, |body|)))]
  }

  /** A script that records the first n steps. */
  function CallsFor(steps: seq<Step>, n: nat): seq<Call>
    requires n <= |steps|
    decreases steps, n
  {
    if n == 0 then [] else CallsFor(steps, n - 1) + CallsOf(steps[n - 1], StagesIn(steps, n - 1))
  }

  function Bodies(blocks: seq<Block>, n: nat): (bodies: seq<Body>)
    requires n <= |blocks|
    ensures |bodies| == n
    decreases blocks, n
  {
    if n == 0 then [] else Bodies(blocks, n - 1) + [Body(CallsFor(blocks[n - 1].steps, |blocks[n - 1].steps|))]
  }

  function ArmsFor(blocks: seq<Block>, n: nat): (arms: seq<Arm>)
    requires n <= |blocks|
    ensures |arms| == n
    decreases blocks, n
  {
    if n == 0 then []
    else ArmsFor(blocks, n - 1) + [Arm(blocks[n - 1].tag, Body(CallsFor(blocks[n - 1].steps, |blocks[n - 1].steps|)))]
  }

  lemma {:induction false} PlayPrefix(a: seq<Call>, b: seq<Call>, n: nat)
    requires n <= |a| && n <= |b| && forall i :: 0 <= i < n ==> a[i] == b[i]
    ensures Play(a, n) == Play(b, n)
    decreases n
  {
    hide Do;
    if n > 0 { PlayPrefix(a, b, n - 1); }
  }

  lemma {:induction false} BodiesAt(blocks: seq<Block>, n: nat, i: nat)
    requires i < n <= |blocks|
    ensures Bodies(blocks, n)[i] == Body(CallsFor(blocks[i].steps, |blocks[i].steps|))
  {
    hide CallsFor;
    if i < n - 1 { BodiesAt(blocks, n - 1, i); }
  }

  lemma {:induction false} ArmsForAt(blocks: seq<Block>, n: nat, i: nat)
    requires i < n <= |blocks|
    ensures ArmsFor(blocks, n)[i] == Arm(blocks[i].tag, Body(CallsFor(blocks[i].steps, |blocks[i].steps|)))
  {
    hide CallsFor;
    if i < n - 1 { ArmsForAt(blocks, n - 1, i); }
  }

  lemma {:induction false} ArmsRecord(blocks: seq<Block>, n: nat)
    requires n <= |blocks| && GrownBlocks(blocks)
    requires forall i :: 0 <= i < |blocks| ==> ArmName(blocks[i].steps) == Some(blocks[i].tag)
    ensures BuiltArms(Bodies(blocks, |blocks|), n) == Ok(blocks[..n])
    decreases blocks, n
  {
    hide Built, CallsFor, GrownSeq;
    if n > 0 {
      ArmsRecord(blocks, n - 1);
      BodiesAt(blocks, |blocks|, n - 1);
      ScriptRecords(blocks[n - 1].steps);
      assert blocks[..n] == blocks[..n - 1] + [blocks[n - 1]];
    }
  }

  lemma {:induction false} CasesRecord(blocks: seq<Block>, n: nat)
    requires n <= |blocks| && GrownBlocks(blocks) && forall i :: 0 <= i < |blocks| - 1 ==> blocks[i].tag != ""
    ensures BuiltCases(ArmsFor(blocks, |blocks|), n) == Ok(blocks[..n])
    decreases blocks, n
  {
    hide Built, CallsFor, GrownSeq;
    if n > 0 {
      CasesRecord(blocks, n - 1);
      ArmsForAt(blocks, |blocks|, n - 1);
      ScriptRecords(blocks[n - 1].steps);
      assert blocks[..n] == blocks[..n - 1] + [blocks[n - 1]];
    }
  }

  lemma {:induction false} ScriptRecords(steps: seq<Step>)
    requires GrownSeq(steps)
    ensures Built(Body(CallsFor(steps, |steps|))) == Ok(steps)
    decreases steps, |steps| + 1
  {
    hide Play, CallsFor, GrownSeq;
    StepsRecord(steps, |steps|);
    assert steps[..|steps|] == steps;
  }

  lemma {:induction false} StepsRecord(steps: seq<Step>, n: nat)
    requires n <= |steps| && GrownSeq(steps)
    ensures var calls := CallsFor(steps, n);
            var (r, stages) := Play(calls, |calls|);
            r == Recording(steps[..n], None, Nothing) && |stages| == StagesIn(steps, n)
    decreases steps, n
  {
    hide Do, Grown, CallsOf;
    if n > 0 {
      var before, s, calls := CallsFor(steps, n - 1), steps[n - 1], CallsFor(steps, n);
      StepsRecord(steps, n - 1);
      PlayPrefix(before, calls, |before|);
      assert steps[..n] == steps[..n - 1] + [s];
      var (r, stages) := Play(before, |before|);
      StepRecords(s, r, stages);
      var own := CallsOf(s, |stages|);
      assert calls == before + own;
      assert calls[|before|] == own[0];
      if |own| == 2 { assert calls[|before| + 1] == own[1]; }
    }
  }

  /** The one or two calls for a step add it. */
  lemma {:induction false} StepRecords(s: Step, r: Recording, stages: seq<Stage>)
    requires Grown(s) && r.err.None? && r.pending == Nothing
    ensures var calls := CallsOf(s, |stages|);
            && 1 <= |calls| <= 2
            && var one := Do(r, stages, calls[0]);
               var (r', stages') := if |calls| == 2 then Do(one.0, one.1, calls[1]) else one;
               r' == r.(steps := r.steps + [s]) && |stages'| == |stages| + (if s.Fork? || s.ForEach? then 1 else 0)
    decreases s, 1
  {
    hide Built, BuiltArms, BuiltCases, CallsFor, GrownSeq, GrownBlocks, After;
    match s
    case Task(name, queue, retry, compensate, combine) => TaskRecords(s, r);
    case Fork(arms, _) =>
      ArmsRecord(arms, |arms|);
      assert arms[..|arms|] == arms;
    case ForEach(_, _, body, _) => ScriptRecords(body);
    case _ => OneCallRecords(s, r);
  }

  lemma TaskRecords(s: Step, r: Recording)
    requires s.Task? && r.err.None? && r.pending == Nothing
    ensures var first := ThenApply(s.name, s.queue, s.retry, s.compensate);
            if s.combine == "" then After(r, first) == r.(steps := r.steps + [s])
            else After(After(r, first), Combine(s.combine)) == r.(steps := r.steps + [s])
  {
    var plain := Task(s.name, s.queue, s.retry, s.compensate, "");
    var one := Added(r, plain);
    assert one.steps[..|one.steps| - 1] == r.steps && one.steps[|one.steps| - 1] == plain;
    if s.combine != "" {
      assert Combined(one, s.combine).steps == r.steps + [Task(s.name, s.queue, s.retry, s.compensate, s.combine)];
    }
  }

  lemma {:induction false} OneCallRecords(s: Step, r: Recording)
    requires Grown(s) && r.err.None? && r.pending == Nothing && !s.Task? && !s.Fork? && !s.ForEach?
    ensures After(r, CallsOf(s, 0)[0]) == r.(steps := r.steps + [s])
    decreases s, 0
  {
    hide Built, BuiltCases, CallsFor, GrownSeq, GrownBlocks;
    match s
    case Gate(_, _, _) =>
    case Sleep(_, _) =>
    case SubFlow(_, _) =>
    case Signal(_, _, escalation) => ScriptRecords(escalation);
    case Choose(cases) =>
      ArmsForAt(cases, |cases|, 0);
      CasesRecord(cases, |cases|);
      assert cases[..|cases|] == cases;
    case Loop(_, _, body) => ScriptRecords(body);
  }

  /** The trees scripts record are exactly those of the grammar. */
  lemma RecordedIff(steps: seq<Step>)
    ensures (exists b :: Built(b) == Ok(steps)) <==> GrownSeq(steps)
  {
    hide Built, CallsFor;
    if b :| Built(b) == Ok(steps) { BuiltIsGrown(b); }
    if GrownSeq(steps) { ScriptRecords(steps); }
  }
}
