# A verified model of the Wiggle Go client

Wiggle runs workflows on a server; this client defines them, sends them and works on their steps. The project models
the parts of the client that decide something, and proves what they are for:

- **Defining a workflow.** A body records a tree of steps on a `Flow` (`Recorder`), and the compiler turns the tree
  into a flat graph by wiring open ends (`Compiler`), with every method of the graph store and of its builders as an
  imperative method over shared mutable state. `Layout` is an independent one-pass compiler that never patches an
  edge; `Wiring` shows back-patching agrees with it, and `Compiler.Compile` gives exactly its graph, or exactly the
  first mistake `WellFormed` names. What the graph is worth is then proved of it: it means what the tree means
  (`Meaning`), its tokens are sound in every interleaving (`Tokens`, `Firing`, `TokenRuns`), loops are its only cycles
  and no edge dangles (`Structure`), arms are closed (`Arms`) and deliver one token each (`Forks`, `Delivery`), every
  node is on the way (`Reach`), its nodes are what was recorded (`Labels`, `Ids`), and it shows which tasks create
  branches (`Spawns`). `Define` joins the two halves.
- **Branches created at run time.** The fluent builder with its sticky mistake (`Branch`, `Branched`), the report that
  carries its chains (`Report`), and the unstaging of what a combine is handed (`Combine`).
- **The worker.** Binding handlers with their compensators (`Handlers`, `Worker`), settling one task with one call
  (`Execute`), and the poll loop as a state machine (`PollLoop`).
- **Queue criteria.** The bounded validator (`Criteria`), the exact decimal limit (`Decimals`, `Numerals`), and the
  encoding (`CriteriaWire`).

User code is data here. What a body or a handler calls is a *script*, nested bodies and stages included; theorems are
about every script. How gates, guards, conditions, signals and collections turn out is an *oracle*, a finite list of
answers; a run that needs more answers is left waiting, so the theorems cover every prefix of every run.

`Placement` says where the pieces of a laid-out step sit in a whole graph.

## What the proofs found

Each of these is a promise the code does not keep on every input: the lemma that says exactly when it does, and one
that shows an input.

- `flow.go:120-122` and `branch.go:129-130`, a positive timeout takes effect: it is kept exactly from one millisecond on
  (`Labels.TimerKept`, and `Branched.TimeoutKeptIff` in created branches). A shorter one is cut to nothing and left out,
  so an escalation under it can never run (`Labels.TooShortATimer`, `Branched.TooShortAWait`).
- `branch.go:161-162`, an arm of a created branch's `ThenAllOf` ends in a task or a gate: it does exactly when the last
  call of its body that adds a step is neither `ThenOneOf` nor `RepeatWhile`, whose steps are of a gate's kind
  (`Branched.ArmEndsAsAskedIff`). Arms that end in a loop and in a choice can be built (`Branched.ArmsEndOtherwise`). An
  arm that ends in a choice has no name, and any other has one (`Branched.ArmIsNamedIff`).
- `branch.go:214-216`, a created branch's loop has the budget it was given: exactly when that fits 32 bits
  (`Branched.BudgetKeptIff`). A larger one may turn negative (`Branched.BudgetTurnsNegative`).
- `worker.go:526-529`, finding the handler of a created step fails when it does not fit the dispatched step: a handler
  bound on a first dispatch is kept by its activity alone, and one claimed for, or bound to, a step of a graph by its
  name, and both are handed out unchecked. They fit exactly when the step is dispatched in the role of what they were
  bound for: the first dispatch, the claim, or the node of the graph (`Worker.DispatchFitsIff`,
  `Worker.Worker.HandlerFor`); the role of a claim is that of the node it fits (`Worker.ClaimServesItsStep`). A claim of
  a created step is checked, and fits, where no item handler shares its activity; where one does, no handler is looked
  up. A gate is given a task's handler in `Worker.GateGivenATask` and in `Worker.GateGivenAClaimedTask`.
- `worker.go:633-638`, a finished step is reported to the server: a report is sent exactly when every value in it can be
  encoded (`Report.StepResult`, `Execute.Client.ReportStep`); else the one settling call on the client sends nothing
  (`Execute.Execute`). One such run, with an encoder that refuses one value only, is `Execute.ReportedInVain`.
- `combine.go:22-23`, unstaging fails when a name is also a key of the workflow's own context: it fails exactly then or
  when an arm is named after the reserved key of an arm listed later (`Combine.ForkClashesIff`; `Combine.ForkUnstages`
  says on which arm, for arms of any names). The same two arms fail in one order and not in the other
  (`Combine.ArmNamedAfterScratch`).

The compiler's fallback to the final END as the start of a flow is never taken (`Compiler.LayFlow`).

## Model

| member | source | states |
|---|---|---|
| Compiler.Graph.Reserve | workflow.go:196-204 | A name is reserved once: it fails exactly on an empty or a reserved name |
| Compiler.Graph.Add | workflow.go:191-194 | A new node takes the next id and changes no other node |
| Compiler.Graph.AddWorker | workflow.go:206-223 | Reserves the name, adds the node, and adds its queue to the graph's |
| Compiler.Graph.Wire | workflow.go:315-321 | Sets one edge of one node, which was unset before: its callers all prove that |
| Compiler.Graph.SetBranches | workflow.go:323-325 | Sets the branches of one node and nothing else |
| Compiler.Builder.WireOpenTo | workflow.go:376-381 | Points every open end at the target and leaves none open |
| Compiler.Builder.Attach | workflow.go:357-369 | Wires the open ends to a node, or makes it the start of the builder and, at the root, of the graph |
| Compiler.Builder.AppendTask | workflow.go:333-343 | A task, with its join and combine if it creates branches, is what the one-pass layout gives, or its first mistake |
| Compiler.Builder.AppendGate | workflow.go:393-401 | A gate stops at the enclosing join, or at an END of its own at the top level |
| Compiler.Builder.AppendSignal | workflow.go:408-424 | A signal's escalation is built in a sub-builder, and its ends stay open beside the signal's own |
| Compiler.Builder.AppendFork | workflow.go:435-454 | A fork, its join expecting one token for each arm, its arms and its combine are as laid out in one pass |
| Compiler.Builder.AppendForEach | workflow.go:455-474 | The same of a forEach, its template body and the way past an empty collection |
| Compiler.Builder.AppendLoop | workflow.go:477-495 | A loop's condition goes back to the start of its body or on |
| Compiler.Builder.AppendChoose | workflow.go:501-536 | A choice's guards run in order, each into its own case or the next guard |
| Compiler.Builder.BuildBranch | workflow.go:538-546 | An arm's open ends all go to its join |
| Compiler.Builder.CollectCase | workflow.go:548-556 | A case is entered from its guard and its ends join the choice's |
| Compiler.Builder.AppendNode | workflow.go:389-499 | Any step, nested as deep as it is, extends the graph by its layout or gives its first mistake |
| Compiler.Builder.AppendNodes | workflow.go:383-387 | The same of a sequence |
| Compiler.LayFlow | workflow.go:590-597 | A flow's graph is the one-pass layout, its start is its first step's entry, and no end is left open |
| Compiler.Compile | workflow.go:569-613 | Compiling gives exactly the one-pass layout of an accepted flow and the queues of its workers, or exactly the first mistake |
| Wiring.WireEmit | workflow.go:345-381 | Wiring the ends a step left open gives the step laid out with that target known in advance |
| Wiring.WireEmitSeq | workflow.go:383-387 | The same of a sequence of steps |
| Wiring.WireEmitBlocks | workflow.go:447-450 | The same of blocks side by side |
| Wiring.FreeEmit | workflow.go:315-321 | The ends a step leaves open are distinct edges that nothing has set, so wiring them writes each once |
| WellFormed.CheckIff | workflow.go:389-499 | A step passes exactly when its shape is sound and its names are fresh, and then reserves just those names |
| WellFormed.AcceptedIff | workflow.go:569-597 | A flow compiles exactly when it has a name and steps, every step has a sound shape, and all reserved names are non-empty and pairwise distinct |
| Meaning.SimFork | workflow.go:435-454 | Arms taken in listed order run what the tree's arms run, and the join passes on after the last |
| Meaning.SimForEach | workflow.go:455-474 | Items taken in order run what the tree's body runs, and an empty collection goes past the combine |
| Meaning.SimCases | workflow.go:501-536 | The guards of a choice ask in order and take the case the tree takes |
| Meaning.SimLoop | workflow.go:477-495 | The loop runs its body again exactly as often as the tree does |
| Meaning.Sim | workflow.go:389-499 | From a step's entry the walk runs what the tree runs and lands where it ended |
| Meaning.CompilationPreservesMeaning | workflow.go:569-597 | For every well-formed tree and all answers, walking the graph from its start runs exactly the tree's steps and ends as it does, completed, gated, timed out or waiting |
| Structure.EdgesComplete | workflow.go:592-593 | Every edge a node's kind requires is set, and points at a node |
| Structure.ProgramRanked | workflow.go:477-495 | Every edge but the loops' true edges goes up in a structural rank |
| Structure.VisitsBounded | workflow.go:477-495 | A walk that takes those edges t times makes at most (t+1) times as many visits as there are nodes |
| Structure.Acyclic | workflow.go:477-495 | Without those edges no walk comes back to where it was |
| Arms.ArmsAreClosed | workflow.go:538-556 | Every edge out of a fork's arm or a forEach's body stays in it or goes to its own join, and no END is in it |
| Reach.EveryNodeIsOnTheWay | workflow.go:590-597 | Every node is reached from the start, and every node but an END reaches the final END |
| Firing.FireForkNode | workflow.go:442-451 | A FORK leaves one token in every arm and none at its join |
| Firing.FireJoinNode | workflow.go:444-454 | A JOIN fires on as many tokens as there are arms, when the arms are empty, and leaves none in them or at itself |
| Firing.FireStep | workflow.go:389-499 | Whatever node of a step fires, with whatever answer, the tokens of every fork in it still add up, and at most one leaves it |
| TokenRuns.KeepsBalance | workflow.go:435-454 | Every firing keeps one token for the flow, and one for each arm of every fork under way |
| TokenRuns.RunsAreBalanced | workflow.go:435-454 | Every marking of every interleaving is so balanced |
| TokenRuns.RunsEndOnce | workflow.go:538-546 | In every interleaving a token at an END is the only one anywhere, and a run without one can go on |
| TokenRuns.RunsOverfillNothing | workflow.go:295-303 | In every interleaving a join holds at most what it expects, and any other node at most one token |
| Forks.FindFork | workflow.go:435-454 | The step of any fork of a compiled flow: no edge from outside comes into it but to its FORK, and its tokens are sound whenever the flow's are |
| Delivery.BetweenForkAndJoin | workflow.go:538-546 | Between a FORK and its JOIN, what an arm puts at the JOIN is what it no longer holds, and nothing else puts or takes anything there |
| Delivery.EachArmDeliversOnce | workflow.go:538-546 | In every interleaving, from a firing of a FORK to the next of its JOIN, each arm puts exactly one token at that JOIN |
| Spawns.MaySpawn | combine.go:83-117 | What is read off a listed graph, with the last node listed under each id |
| Spawns.ReadsBack | combine.go:84-90 | A graph listed in any order is read back as it is |
| Spawns.SpawnsExactlyTheRecorded | combine.go:91-117 | In every compiled graph the nodes that may create branches are exactly the tasks recorded with a Combine and those combines |
| Ids.DigitsRoundTrip | workflow.go:191-194 | A counter's digits read back as the counter |
| Ids.TextsAreDistinct | workflow.go:191-194 | No two nodes are written under the same id |
| Ids.NotCreated | worker.go:524 | No id of a graph is taken for that of a created node |
| Labels.OneNodeForEach | workflow.go:206-281 | The graph has one named node for each task, gate, guard, condition, combine, signal, sub-flow and forEach, in order, and no others |
| Labels.NamesAreUnambiguous | workflow.go:196-204 | In an accepted flow's graph no two of those nodes share a name |
| Labels.TimerKept | workflow.go:225-236 | A signal's timer is kept exactly when its timeout is a millisecond or more |
| Labels.TooShortATimer | workflow.go:408-424 | A flow whose escalation can never run is accepted |
| Recorder.Flow.Add | flow.go:299-305 | A step is recorded unless a stage still waits for its Combine |
| Recorder.Flow.Fail | flow.go:307-312 | Only the first mistake is kept |
| Recorder.Flow.CombineLast | flow.go:101-113 | Combine changes only the task just recorded, or is a mistake |
| Recorder.Flow.CombineArms | flow.go:197-206 | A stage's Combine clears what was waiting and records the fork or forEach |
| Recorder.Flow.AllOf | flow.go:157-187 | Arms are built in order, up to the first mistake, and named after their last step |
| Recorder.Flow.ForEach | flow.go:213-228 | A forEach's body is built and waits for its Combine |
| Recorder.Flow.Await | flow.go:123-136 | An escalation is built on a flow of its own and must have steps |
| Recorder.Flow.OneOf | flow.go:257-273 | Cases are built in order, up to the first mistake |
| Recorder.Flow.Repeat | flow.go:278-284 | A loop's body is built on a flow of its own |
| Recorder.Flow.Chain | flow.go:315-324 | What a body records on its own flow, or its first mistake |
| Recorder.Flow.Err | flow.go:287-292 | The first mistake, or else the missing Combine |
| Recorded.RecordedIff | flow.go:75-284 | The trees that scripts record are exactly those of the grammar: forks of two named arms or more ending in a task or a gate, combines with a name, an otherwise only last |
| Recorded.FirstMistakeStays | flow.go:307-312 | Nothing called after a mistake changes it |
| Recorded.MistakesSurface | flow.go:315-324 | A body recorded without a mistake holds none at any depth |
| Recorded.StagesAreCombined | flow.go:185-187 | After each ThenAllOf and ThenForEach of a body without mistakes a stage that was given is combined, and then nothing waits |
| Recorded.WaitsForCombine | flow.go:299-305 | Until then nothing else is recorded |
| Define.Define | flow.go:22-33 | Define gives the compiled recording, or the recording's or the compiler's first mistake |
| Define.OnlyTheseMistakesAreLeft | flow.go:257-305 | Of a recording without mistakes, compiling can refuse only names, escalation timeouts, budgets, empty cases and empty loop bodies |
| Define.DefinedNodesBind | workflow.go:206-265 | Every worker node runs under its name's activity and on some queue, is tried at least once, merges arms of distinct names, and can be undone only if it is a plain task |
| Define.ActivitiesAreUnambiguous | workflow.go:218-221 | No two nodes of a defined flow run under the same activity |
| Define.DefinedRunsAsRecorded | flow.go:22-33 | Whatever Define accepts runs as it was recorded |
| Define.DefinedRunsEndOnce | flow.go:149-187 | However forks interleave, a run that cannot go on has ended once, with no token stranded |
| Branch.CreatedBranch.Fail | branch.go:289-294 | Only the first mistake is kept |
| Branch.CreatedBranch.Add | branch.go:279-287 | A named step is appended, whether or not a ThenAllOf waits |
| Branch.CreatedBranch.AddCompensable | branch.go:90-96 | The step just added is marked, unless there is a mistake |
| Branch.CreatedBranch.CombineLast | branch.go:110-118 | Combine changes only the task just chained, or is a mistake |
| Branch.CreatedBranch.AllOf | branch.go:166-193 | Arms are built in order up to the first mistake, none ending in the name of another |
| Branch.CreatedBranch.CombineStage | branch.go:202-212 | The arms' Combine clears what was waiting and appends the fork |
| Branch.CreatedBranch.Await | branch.go:131-148 | A wait needs a name and a fitting timeout, and its escalation steps |
| Branch.CreatedBranch.Repeat | branch.go:216-230 | A loop needs a condition, a budget that is not negative, and steps |
| Branch.CreatedBranch.OneOf | branch.go:249-269 | Cases are built in order, up to the first mistake |
| Branch.CreatedBranch.Chain | branch.go:296-308 | What a body builds on its own branch, which must have steps, or its first mistake |
| Branch.CreatedBranch.Err | branch.go:272-277 | The first mistake, or else the missing Combine |
| Branched.BuiltIff | branch.go:84-308 | The chains that scripts build are exactly those of the nested grammar |
| Branched.PlayIsGrown | branch.go:84-308 | Whatever is called, mistakes or not, what a branch holds is of the grammar |
| Branched.FirstMistakeStays | branch.go:289-294 | Nothing called after a mistake changes it |
| Branched.MistakesSurface | branch.go:296-308 | A branch built without a mistake holds none at any depth |
| Branched.ArmsAreCombined | branch.go:191-212 | After each ThenAllOf of a branch without mistakes arms that were given are combined, and then nothing waits |
| Branched.ArmIsNamedIff | branch.go:179-188 | An arm has a name exactly when it does not end in a choice |
| Branched.ArmEndsAsAskedIff | branch.go:161-188 | An arm that ThenAllOf takes ends in a task or a gate exactly when the last call of its body that adds a step is neither ThenOneOf nor RepeatWhile |
| Branched.ArmsEndOtherwise | branch.go:179-188 | Forks with an arm that ends in a loop, and in a choice, can be built |
| Branched.TimeoutKeptIff | branch.go:131-147 | The wait that ThenAwait adds keeps its timeout exactly when that is a millisecond or more |
| Branched.TooShortAWait | branch.go:131-147 | A wait whose escalation can never run is built |
| Branched.BudgetKeptIff | branch.go:216-230 | The loop that RepeatWhile adds keeps its budget exactly when that fits 32 bits |
| Branched.BudgetTurnsNegative | branch.go:227-228 | A loop asked to run 2^31 times gets a negative budget |
| Report.BranchStepProto | report.go:118-145 | The message of a step, nested as the step is |
| Report.StepRoundTrip | report.go:118-145 | Decoding a step's message gives the step back, with its retry policies as the server reads them |
| Report.ReportedAlikeIff | workflow.go:50-62 | Two steps are reported alike exactly when they differ in no more than that |
| Report.CreatedBranchProto | report.go:106-116 | A branch's input, key and chain, unless the input cannot be encoded |
| Report.StepResult | report.go:77-104 | A report's message says what the report does, in order, and fails exactly when some value cannot be encoded |
| Combine.UnstageTask | combine.go:24-79 | The context, base and results of a combine, or the first clashing name |
| Combine.ForkUnstages | combine.go:56-63 | Unstaging undoes staging for a fork, whatever its arms are called: the base, the results and both together come back, and it fails exactly on the first arm with a result whose name is a key of the base or the reserved key of a later arm with one |
| Combine.ForkClashesIff | combine.go:22-23 | So it fails exactly when a result's name is a key of the base or an arm is named after the reserved key of a later one |
| Combine.ForEachUnstages | combine.go:74-78 | The same for a forEach |
| Combine.SpawnUnstages | combine.go:64-73 | For created branches it never fails, and no results are an empty list |
| Combine.ArmNamedAfterScratch | combine.go:33-45 | An arm named after another's reserved key fails with an empty base when it is listed first, and not when it is listed last |
| Decimals.ParseIff | criteria/criteria.go:280 | The pattern reads a text in at most one way, and the model's reading is it |
| Decimals.DecimalAcceptedIff | criteria/criteria.go:282-296 | A decimal is taken exactly when it is plain text for a value v with abs(v) below 10^28 and v times 10^10 an integer, whatever zeros pad it |
| Criteria.ValidateComparison | criteria/criteria.go:216-278 | A comparison passes exactly when its name, operator, number, types and mix of arguments all fit, in no order |
| Criteria.Validate | criteria/criteria.go:173-195 | The walk with its shared counter: its first error, the count and the calls it took |
| Criteria.ValidateTerms | criteria/criteria.go:197-207 | The same of the terms of a junction, up to the first that fails |
| Criteria.AcceptedIff | criteria/criteria.go:173-207 | From depth 1 and a zero count, exactly the predicates of depth at most 8 and at most 64 nodes, all well-formed, pass, and no walk takes more than 65 calls |
| Criteria.New | criteria/criteria.go:144-155 | Criteria are made exactly for a queue that is not blank and such a predicate, or none |
| CriteriaWire.CriteriaProto | client.go:410-416 | A queue's criteria, with a predicate only if there is one |
| CriteriaWire.PredicateProto | client.go:418-445 | The message of a predicate |
| CriteriaWire.JunctionProto | client.go:447-453 | The messages of all terms, in order |
| CriteriaWire.EncodedIsComplete | client.go:418-445 | The message of a validated predicate leaves nothing unset anywhere in it |
| CriteriaWire.RoundTrip | client.go:418-453 | Decoding it gives the predicate back but for the types of its attributes |
| CriteriaWire.MeaningIsSent | client.go:418-453 | Evaluated on the values the server decodes, it holds for exactly the tasks the predicate as written holds for |
| CriteriaWire.AbsentIsFalse | criteria/criteria.go:9-11 | By the server's rule as `Compares` models it, the message of a comparison on an absent value is false, and that of Not of it true, unless it asks for absence |
| Handlers.ReadSteps | handlers.go:291-305 | The first listed step under each folded name |
| Handlers.BindHandlerSet | handlers.go:290-387 | A set binds exactly when every candidate and every compensator fits its step and every compensable step served has its undo, and then gives one binding for each of them that is in the graph |
| Handlers.UndoIsPaired | handlers.go:345-385 | A compensable step bound comes with its undo on the same queue, and only such a step's undo is bound |
| Handlers.NothingElseIsBound | handlers.go:306-371 | Every binding is that of a candidate, or of a compensator of its step |
| Handlers.ServesIff | worker.go:526-529 | A handler that serves one role serves another exactly when they are the same use of it |
| Handlers.CreatedServes | handlers.go:393-419 | A created step's handler fits the role the step is dispatched in |
| Worker.Worker.Bind | worker.go:202-210 | A step is claimed for a handler unless its activity is taken, and nothing else changes |
| Worker.Worker.HandleCompensation | worker.go:160-168 | The same of an undo |
| Worker.Worker.HandleItem | worker.go:172-180 | The same of an item step |
| Worker.Worker.BranchSteps | worker.go:187-200 | The folded names of a workflow's declared branch steps are added to those it had, and no other workflow's change |
| Worker.Worker.ReconcileWorkflow | worker.go:276-351 | Claims pass exactly when each fits its step and every compensable step claimed has its undo claimed; the worker then knows their queues and the kinds of created steps |
| Worker.Worker.MatchHandlerSet | handlers.go:257-268 | A set is matched to its graph and its bindings installed; it fails exactly on a misfit, installing nothing, or when it overlaps the handlers there are, installing the bindings before the first clash |
| Worker.Worker.Reconcile | worker.go:266-359 | A worker starts exactly when all claims and all sets fit their registered graphs and no set overlaps the handlers when its turn comes; then the bindings of every set are installed in turn, and it holds the graphs and knows the queue of every step claimed |
| Worker.ClaimsArePaired | worker.go:331-351 | A compensable step claimed comes with its undo claimed on the same node, whose queue is served |
| Worker.Worker.ApplyBindings | handlers.go:271-284 | Bindings are installed one by one up to the first whose activity is taken, and refused exactly when there is one |
| Worker.RefusedIff | handlers.go:272-275 | Bindings are refused exactly when one has an activity taken before, by a handler or by an earlier binding that is not of an item |
| Worker.OverlapIff | handlers.go:271-284 | However a set is listed, its bindings are refused exactly when one of its activities has a handler, or one of its undos is under the activity of one of its steps |
| Worker.Worker.HandlerFor | worker.go:530-573 | The handler of a task; one bound on a first dispatch fits it and is kept, and fits a later dispatch exactly when that is in the same role |
| Worker.DispatchFitsIff | worker.go:530-573 | The handler given for a created step fits exactly when the step is dispatched in the role of the claim, the node or the first dispatch it was bound for; one claimed for created steps, and for no item, always fits |
| Worker.ClaimServesItsStep | worker.go:300-326 | A claim that fits a node serves exactly the roles that are the same use as that node's, and an undo's claim exactly undoing |
| Worker.GateGivenAClaimedTask | worker.go:544-549 | A worker that hands a gate the handler it claimed for a task of the graph |
| Worker.GateGivenATask | worker.go:551-553 | A worker that hands a gate the handler of a task, where alone it refuses the gate |
| Worker.Worker.CreatesBranches | worker.go:577-588 | Whether a task may create branches, left to the server for a graph that is not held |
| Worker.MayCreateIff | worker.go:577-588 | On a held compiled graph exactly the recorded spawning tasks and their combines may |
| Execute.StepRun.EmitEvent | step.go:42-53 | An event with a type and a payload is buffered last, any other is not |
| Execute.StepRun.CreateBranch | step.go:68-78 | A branch is buffered last, with its mistake at once when the step may create none |
| Execute.StepRun.Drain | step.go:91-102 | All that was buffered is handed over in order, exactly when no branch has a mistake |
| Execute.DrainedIsGrown | step.go:91-102 | Every chain handed over is of the nested grammar, and a step that may create none hands none over |
| Execute.Client.ReportStep | report.go:50-60 | A report is sent exactly when it can be encoded |
| Execute.RunHandler | worker.go:488-522 | A handler that ran is settled by one call: a failure, or a report of exactly the events and branches it buffered, in order |
| Execute.ExecuteItem | worker.go:611-631 | An item is settled by one call: a failure, or a report of what its handler returned |
| Execute.Execute | worker.go:449-522 | Every leased task is settled by exactly one call, and by which is told by its handler, its context and what the handler did |
| Execute.ReportedInVain | worker.go:633-638 | A run of `Execute` whose one call is a report of which nothing is sent, under an encoder that refuses one value |
| PollLoop.KeepsAccounts | worker.go:404-447 | Every step keeps each lease in one place, waiting, in flight or done, and settled when it should be |
| PollLoop.KeepsRoom | worker.go:406-443 | Every step keeps room for the tasks in flight and for those asked for |
| PollLoop.NeverTooMany | worker.go:404-447 | In every interleaving at most `concurrency` tasks are in flight, and handing one out never waits for a server that keeps to what it was asked |
| PollLoop.SettledOnce | worker.go:437-446 | No lease is settled twice, and when Stop returns each was settled exactly once |
| PollLoop.StopComesNearer | worker.go:256-262 | Once stopped, every step brings the return nearer, but for three steps for each task it leases, and no other poll is begun |
| PollLoop.StopReturns | worker.go:256-262 | From any stopped point of any run: tasks are leased at most once more, at most 3 * concurrency + 4 steps follow when the server keeps to what it was asked, and the worker has a step to take until it has returned |
| PollLoop.NotStuck | worker.go:404-447 | Once stopped, the worker can always take a step of its own until it has returned |

## Left out

- The engine: leasing, retries, signals and timers are the server's. A walk and a marking take from the graph what its
  fields and the compiler's comments say of them.
- Tokens.Puts: follows a forEach for one item or none, because how many items there are, and keeping their tokens
  apart, is the engine's; `Meaning` follows any number of items, one after the other.
- Meaning.EvalSeq: does not count loop iterations against a budget, because failing past the budget is the engine's;
  the budget is on the condition's node.
- Meaning.EvalItems: takes items in order, because the walk has one token; other orders are the tokens' matter.
- Attributes of a flow, its version hash, its JSON and the sorting of its node list: one-branch checks and libraries.
- The default queue a flow sets while it is recorded is an argument of `Define`.
- A body calls methods only of the flow or branch it is handed, and a stage only of its own; a closure that reaches for
  another one is not modelled. In `Recorder` and `Branch` a stage handle that was never given is a call that does
  nothing.
- Created branches record whether they have a key, but only the key is sent; whether it is there is not part of the
  message.
- Go integers other than the loop budget are unbounded here; a duration is a number of nanoseconds.
- Jitter and multipliers are real numbers and are not computed with.
- Nodes of a graph keep retry policies as recorded; the form they are sent in is that of `Report.EncodedRetry`.
- Handlers.BindHandlerSet: takes names under any folding, because letter case is a table of Unicode; and lists
  candidates in any order, which decides only which mistake is named first.
- Graphs written before combines had `armNames` or `collectKey` are not recognised as having combines.
- Text arguments of criteria hold one character for each byte, as `len` counts them; where the error message speaks of
  characters (`criteria/criteria.go:240-241`) the model follows the code. A queue's name is taken by its characters.
- Literals are taken as already converted to one of the four kinds; conversion of Go numbers and times is a library's.
- Handler panics, heartbeats, logging, dialing, waiting for a registration and the choice of the queues polled.
- Mutexes and channels: buffered emits and creates are atomic, and the semaphore is a set of places.
- `AwaitCompletion`, feeds and the field-copying views of the client.
