/** From a body to a graph: recording and compiling together, and what recording already rules out. */
module Define {
  import opened Topology
  import opened Layout
  import opened WellFormed
  import opened Recorder
  import opened Recorded
  import Compiler
  import Meaning
  import Tokens
  import TokenRuns
  import Labels

  datatype Definition = Defined(spec: Compiler.FlowSpec) | NoBody | BadRecording(mistake: Mistake)
                      | BadTopology(error: Error)

  /** Records a body and compiles what it recorded. */
  method Define(name: string, defaultQueue: string, body: Option<Body>) returns (d: Definition)
    ensures d.NoBody? <==> body.None?
    ensures d.BadRecording? ==> Built(body.value) == Result.Err(d.mistake)
    ensures d.BadTopology? ==> Built(body.value).Ok? && CheckFlow(name, Built(body.value).value) == Rejected(d.error)
    ensures d.Defined? ==>
              && Built(body.value).Ok? && CheckFlow(name, Built(body.value).value).Accepted?
              && var nodes := Program(FlowEnv(name, defaultQueue), Built(body.value).value);
                 d.spec == Compiler.FlowSpec(name, nodes, EntrySeq(Built(body.value).value, 0),
                                             Compiler.QueuesOf(nodes))
  {
    hide Built, CheckFlow, Program, EntrySeq, Compiler.QueuesOf;
    if body.None? { return NoBody; }
    var flow := new Flow();
    var recorded := flow.Chain(body.value);
    if recorded.Err? { return BadRecording(recorded.error); }
    var compiled := Compiler.Compile(name, defaultQueue, recorded.value);
    if compiled.Mistake? { return BadTopology(compiled.error); }
    return Defined(compiled.value);
  }

  // ---- of a recorded tree, compiling finds only what recording does not look at ----

  predicate LeftToCompile(e: Error) {
    e.NoWorkflowName? || e.NoSteps? || e.NoName? || e.Duplicate? || e.EscalationTimeout? || e.EmptyCase? ||
    e.EmptyLoop? || e.BadBudget?
  }

  lemma {:induction false} MistakesLeft(s: Step, names: set<string>)
    requires Grown(s)
    ensures Check(s, names).Rejected? ==> LeftToCompile(Check(s, names).error)
    decreases s
  {
    match s
    case Signal(name, _, escalation) => if name != "" { MistakesLeftSeq(escalation, |escalation|, names + {name}); }
    case Fork(arms, _) => MistakesLeftBlocks(arms, |arms|, names, true);
    case ForEach(name, itemsKey, body, _) => MistakesLeftSeq(body, |body|, names + {ForEachName(name, itemsKey)});
    case Choose(cases) =>
      GuardsMistakesLeft(cases, Guards(cases), names);
      var guarded := CheckGuards(cases, Guards(cases), names);
      if guarded.Accepted? { MistakesLeftBlocks(cases, |cases|, guarded.names, false); }
    case Loop(_, _, body) => MistakesLeftSeq(body, |body|, names);
    case _ =>
  }

  lemma {:induction false} GuardsMistakesLeft(cases: seq<Block>, n: nat, names: set<string>)
    requires n <= |cases|
    ensures CheckGuards(cases, n, names).Rejected? ==> LeftToCompile(CheckGuards(cases, n, names).error)
  {
    if n > 0 { GuardsMistakesLeft(cases, n - 1, names); }
  }

  lemma {:induction false} MistakesLeftSeq(steps: seq<Step>, n: nat, names: set<string>)
    requires n <= |steps| && GrownSeq(steps)
    ensures CheckSeq(steps, n, names).Rejected? ==> LeftToCompile(CheckSeq(steps, n, names).error)
    decreases steps, n
  {
    hide Check, Grown, LeftToCompile;
    if n > 0 {
      MistakesLeftSeq(steps, n - 1, names);
      var before := CheckSeq(steps, n - 1, names);
      if before.Accepted? { MistakesLeft(steps[n - 1], before.names); }
    }
  }

  lemma {:induction false} MistakesLeftBlocks(blocks: seq<Block>, n: nat, names: set<string>, arms: bool)
    requires n <= |blocks| && GrownBlocks(blocks)
    requires arms ==> forall i :: 0 <= i < |blocks| ==> blocks[i].steps != []
    ensures CheckBlocks(blocks, n, names, arms).Rejected? ==> LeftToCompile(CheckBlocks(blocks, n, names, arms).error)
    decreases blocks, n
  {
    hide CheckSeq, GrownSeq;
    if n > 0 {
      MistakesLeftBlocks(blocks, n - 1, names, arms);
      var before, steps := CheckBlocks(blocks, n - 1, names, arms), blocks[n - 1].steps;
      if before.Accepted? { MistakesLeftSeq(steps, |steps|, before.names); }
    }
  }

  /**
   * A flow recorded without a mistake can fail to compile only in its names, timeouts, budgets, empty cases and empty
   * bodies.
   */
  lemma OnlyTheseMistakesAreLeft(name: string, body: Body)
    requires Built(body).Ok? && CheckFlow(name, Built(body).value).Rejected?
    ensures LeftToCompile(CheckFlow(name, Built(body).value).error)
  {
    hide Built, CheckSeq, GrownSeq;
    var steps := Built(body).value;
    BuiltIsGrown(body);
    if name != "" && steps != [] { MistakesLeftSeq(steps, |steps|, {}); }
  }

  // ---- workers can bind to every node ----

  /**
   * A node workers can bind to: it runs under the activity of its own name and on some queue, is tried at least once,
   * has arms of distinct names, and can be undone only if it is a task that combines nothing.
   */
  ghost predicate CanBind(env: Env, n: Node) {
    n.info.Work? ==>
      && n.info.activity == env.flow + "#" + n.name && n.info.retry.maxAttempts > 0 && NoRepeats(n.info.armNames)
      && (env.defaultQueue != "" ==> n.info.queue != "")
      && (n.kind == TASK || n.kind == PREDICATE)
      && (n.info.compensable ==> n.kind == TASK && n.info.armNames == [] && n.info.collectKey == "")
  }

  ghost predicate AllBind(env: Env, nodes: seq<Node>) { forall i :: 0 <= i < |nodes| ==> CanBind(env, nodes[i]) }

  lemma ArmNameReserved(steps: seq<Step>)
    requires ArmName(steps).Some?
    ensures ArmName(steps).value in NamesSeq(steps, |steps|)
  {
    var last := steps[|steps| - 1];
    assert Names(last)[0] == ArmName(steps).value;
  }

  lemma {:induction false} TagsAreDistinct(arms: seq<Block>, n: nat, taken: set<string>)
    requires n <= |arms| && Fresh(NamesBlocks(arms, n), taken)
    requires forall i :: 0 <= i < |arms| ==> ArmName(arms[i].steps) == Some(arms[i].tag)
    ensures NoRepeats(Tags(arms, n)) && forall i :: 0 <= i < n ==> arms[i].tag in Elems(NamesBlocks(arms, n))
    decreases n
  {
    hide NamesSeq, ArmName;
    if n > 0 {
      var steps := arms[n - 1].steps;
      var before, own := NamesBlocks(arms, n - 1), NamesSeq(steps, |steps|);
      FreshConcat(before, own, taken);
      TagsAreDistinct(arms, n - 1, taken);
      ArmNameReserved(steps);
      var x :| 0 <= x < |own| && own[x] == arms[n - 1].tag;
      assert own[x] !in Elems(before);
      assert Tags(arms, n) == Tags(arms, n - 1) + [arms[n - 1].tag];
      assert forall i :: 0 <= i < n - 1 ==> Tags(arms, n - 1)[i] == arms[i].tag;
    }
  }

  lemma BindConcat(env: Env, a: seq<Node>, b: seq<Node>)
    requires AllBind(env, a) && AllBind(env, b)
    ensures AllBind(env, a + b)
  {
    hide CanBind;
  }

  lemma {:induction false} StepBinds(env: Env, s: Step, c: Id, k: Option<Id>, j: Option<Id>, taken: set<string>)
    requires Grown(s) && Fresh(Names(s), taken)
    ensures AllBind(env, Emit(env, s, c, k, j))
    decreases s, 1
  {
    hide EmitSeq, EmitBlocks, NamesSeq, NamesBlocks, EntrySeq, SizeSeq, SizeBlocks, GrownSeq, GrownBlocks, Fresh;
    match s
    case Signal(name, _, escalation) =>
      FreshConcat([name], NamesSeq(escalation, |escalation|), taken);
      SeqBinds(env, escalation, |escalation|, c + 1, k, j, taken + Elems([name]));
    case Fork(arms, combine) => ForkBinds(env, s, c, k, j, taken);
    case ForEach(_, _, _, _) => ForEachBinds(env, s, c, k, j, taken);
    case Choose(_) => ChooseBinds(env, s, c, k, j, taken);
    case Loop(cond, _, body) =>
      FreshConcat(NamesSeq(body, |body|), [cond], taken);
      SeqBinds(env, body, |body|, c, Some(c + SizeSeq(body, |body|, j.Some?)), j, taken);
    case _ =>
  }

  lemma {:induction false} ForEachBinds(env: Env, s: Step, c: Id, k: Option<Id>, j: Option<Id>, taken: set<string>)
    requires s.ForEach? && Grown(s) && Fresh(Names(s), taken)
    ensures AllBind(env, Emit(env, s, c, k, j))
    decreases s, 0
  {
    hide EmitSeq, NamesSeq, EntrySeq, GrownSeq, Fresh;
    var body, own := s.body, [ForEachName(s.name, s.itemsKey)];
    FreshConcat(own + NamesSeq(body, |body|), [s.combine], taken);
    FreshConcat(own, NamesSeq(body, |body|), taken);
    SeqBinds(env, body, |body|, c + 2, Some(c + 1), Some(c + 1), taken + Elems(own));
  }

  lemma {:induction false} ChooseBinds(env: Env, s: Step, c: Id, k: Option<Id>, j: Option<Id>, taken: set<string>)
    requires s.Choose? && Grown(s) && Fresh(Names(s), taken)
    ensures AllBind(env, Emit(env, s, c, k, j))
    decreases s, 0
  {
    hide EmitBlocks, EmitGuards, NamesBlocks, GrownBlocks, Fresh, AllBind;
    var cases, guards := s.cases, Tags(s.cases, Guards(s.cases));
    FreshConcat(guards, NamesBlocks(cases, |cases|), taken);
    BlocksBinds(env, cases, |cases|, c + Guards(cases), k, j, taken + Elems(guards));
    GuardsBinds(env, cases, c, k, j.Some?);
    BindConcat(env, EmitGuards(env, cases, c, k, j.Some?), EmitBlocks(env, cases, |cases|, c + Guards(cases), k, j));
  }

  lemma GuardsBinds(env: Env, cases: seq<Block>, c: Id, k: Option<Id>, inArm: bool)
    ensures AllBind(env, EmitGuards(env, cases, c, k, inArm))
  {
    hide BlockStart;
  }

  lemma {:induction false} ForkBinds(env: Env, s: Step, c: Id, k: Option<Id>, j: Option<Id>, taken: set<string>)
    requires s.Fork? && Grown(s) && Fresh(Names(s), taken)
    ensures AllBind(env, Emit(env, s, c, k, j))
    decreases s, 0
  {
    hide EmitBlocks, NamesBlocks, GrownBlocks, Fresh, Starts, Tags;
    var arms := s.arms;
    FreshConcat(NamesBlocks(arms, |arms|), [s.combine], taken);
    TagsAreDistinct(arms, |arms|, taken);
    BlocksBinds(env, arms, |arms|, c + 2, Some(c + 1), Some(c + 1), taken);
  }

  lemma {:induction false} SeqBinds(env: Env, steps: seq<Step>, n: nat, c: Id, k: Option<Id>, j: Option<Id>,
                                    taken: set<string>)
    requires n <= |steps| && GrownSeq(steps) && Fresh(NamesSeq(steps, n), taken)
    ensures AllBind(env, EmitSeq(env, steps, n, c, k, j))
    decreases steps, n
  {
    hide Emit, Names, Grown, Entry, Size, Fresh, AllBind;
    if n > 0 {
      var c', before := c + SizeSeq(steps, n - 1, j.Some?), NamesSeq(steps, n - 1);
      var next := Some(Entry(steps[n - 1], c'));
      FreshConcat(before, Names(steps[n - 1]), taken);
      SeqBinds(env, steps, n - 1, c, next, j, taken);
      StepBinds(env, steps[n - 1], c', k, j, taken + Elems(before));
      BindConcat(env, EmitSeq(env, steps, n - 1, c, next, j), Emit(env, steps[n - 1], c', k, j));
    } else {
      NothingBinds(env);
    }
  }

  lemma NothingBinds(env: Env)
    ensures AllBind(env, [])
  {}

  lemma {:induction false} BlocksBinds(env: Env, blocks: seq<Block>, n: nat, c: Id, k: Option<Id>, j: Option<Id>,
                                       taken: set<string>)
    requires n <= |blocks| && GrownBlocks(blocks) && Fresh(NamesBlocks(blocks, n), taken)
    ensures AllBind(env, EmitBlocks(env, blocks, n, c, k, j))
    decreases blocks, n
  {
    hide EmitSeq, NamesSeq, GrownSeq, SizeSeq, Fresh, AllBind;
    if n > 0 {
      var steps, c', before := blocks[n - 1].steps, c + SizeBlocks(blocks, n - 1, j.Some?), NamesBlocks(blocks, n - 1);
      FreshConcat(before, NamesSeq(steps, |steps|), taken);
      BlocksBinds(env, blocks, n - 1, c, k, j, taken);
      SeqBinds(env, steps, |steps|, c', k, j, taken + Elems(before));
      BindConcat(env, EmitBlocks(env, blocks, n - 1, c, k, j), EmitSeq(env, steps, |steps|, c', k, j));
    } else {
      NothingBinds(env);
    }
  }

  /** Workers can bind to every node of the graph of every flow that Define accepts. */
  lemma DefinedNodesBind(name: string, defaultQueue: string, body: Body)
    requires Built(body).Ok? && CheckFlow(name, Built(body).value).Accepted?
    ensures var env := FlowEnv(name, defaultQueue);
            env.defaultQueue != "" &&
            AllBind(env, Program(env, Built(body).value))
  {
    hide Built, CheckFlow, EmitSeq, GrownSeq, Fresh, NamesSeq, SizeSeq;
    var env, steps := FlowEnv(name, defaultQueue), Built(body).value;
    var last := SizeSeq(steps, |steps|, false);
    BuiltIsGrown(body);
    AcceptedIff(name, steps);
    SeqBinds(env, steps, |steps|, 0, Some(last), None, {});
    BindConcat(env, EmitSeq(env, steps, |steps|, 0, Some(last), None), [EndNode("")]);
  }

  /** And no two of its nodes run under the same activity. */
  lemma ActivitiesAreUnambiguous(name: string, defaultQueue: string, body: Body, u: Id, v: Id)
    requires Built(body).Ok? && CheckFlow(name, Built(body).value).Accepted?
    requires var g := Program(FlowEnv(name, defaultQueue), Built(body).value);
             u < v < |g| && g[u].info.Work? &&
             g[v].info.Work?
    ensures var g := Program(FlowEnv(name, defaultQueue), Built(body).value); g[u].info.activity != g[v].info.activity
  {
    hide Built, CheckFlow, Program;
    var env := FlowEnv(name, defaultQueue);
    var g := Program(env, Built(body).value);
    DefinedNodesBind(name, defaultQueue, body);
    assert CanBind(env, g[u]) && CanBind(env, g[v]);
    Labels.NamesAreUnambiguous(name, defaultQueue, Built(body).value, u, v);
    SameTail(env.flow + "#", g[u].name, g[v].name);
  }

  lemma SameTail(head: string, a: string, b: string)
    requires a != b
    ensures head + a != head + b
  {
    assert (head + a)[|head|..] == a && (head + b)[|head|..] == b;
  }

  // ---- from the script to the run ----

  /** Whatever flow Define accepts, walking the graph it gives runs what the recorded steps say, and ends as they do. */
  lemma DefinedRunsAsRecorded(name: string, defaultQueue: string, body: Body, a: seq<bool>)
    returns (n: nat)
    requires Built(body).Ok? && CheckFlow(name, Built(body).value).Accepted?
    ensures var steps := Built(body).value;
            var g, r := Program(FlowEnv(name, defaultQueue), steps), Meaning.EvalSeq(steps, 0, a, 0);
            forall m :: m >= n ==>
              Meaning.Walk(g, a, Meaning.Going(EntrySeq(steps, 0), Meaning.Empty, 0), m) == (r.trace,
                  Meaning.Over(Meaning.Outcome(r.end)))
  {
    hide Built, Program, EntrySeq, CheckSeq, ShapeSeq, Meaning.EvalSeq, Meaning.Walk;
    AcceptedIff(name, Built(body).value);
    n := Meaning.CompilationPreservesMeaning(FlowEnv(name, defaultQueue), Built(body).value, a);
  }

  /** And however its forks interleave, a run of its tokens that cannot go on has ended once and stranded none. */
  lemma DefinedRunsEndOnce(name: string, defaultQueue: string, body: Body, run: seq<TokenRuns.Turn>)
    requires Built(body).Ok? && CheckFlow(name, Built(body).value).Accepted?
    ensures var steps := Built(body).value;
            var g := Program(FlowEnv(name, defaultQueue), steps);
            var m := TokenRuns.Run(g, EntrySeq(steps, 0), run, |run|);
            m.Some? && (forall u: Id :: !Tokens.Enabled(g, m.value, u, true)) ==>
              exists u: Id :: TokenRuns.Ended(g, m.value, u) && TokenRuns.Only(m.value, 0, |g|, u)
  {
    hide Built, Program, EntrySeq, CheckSeq, ShapeSeq, TokenRuns.Run, Tokens.Enabled, TokenRuns.Ended, TokenRuns.Only;
    AcceptedIff(name, Built(body).value);
    TokenRuns.RunsEndOnce(FlowEnv(name, defaultQueue), Built(body).value, run);
  }
}
