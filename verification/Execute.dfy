/** Running one leased task, and settling it with exactly one call. */
module Execute {
  import opened Topology
  import opened Handlers
  import opened Report
  import W = Worker
  import B = Branch
  import Branched
  import Combine

  // What a handler does is data here: the events it emits, the branches it creates, and how it ends.

  // ---- a running step ----

  /** What a handler does through its StepRun. */
  datatype Act<V> =
    | Emit(type_: string, payload: Option<V>)
    | Create(key: string, keyed: bool, input: V, body: B.Body)

  /** How a handler ends: with an error, or with a bool (and the value it is as JSON), nothing, or a context. */
  datatype Ending<V> = Broke(permanent: bool) | Answer(answer: bool, json: V) | Nothing | Returned(value: V)

  datatype Behaviour<V> = Behaviour(acts: seq<Act<V>>, ending: Ending<V>)

  /** A created branch and what it is built as so far. */
  datatype Draft<V> = Draft(input: V, key: string, keyed: bool, built: B.Building)

  /** An event needs a type and a payload. */
  function EventsOf<V>(acts: seq<Act<V>>, n: nat): seq<Event<V>>
    requires n <= |acts|
  {
    if n == 0 then []
    else
      var a := acts[n - 1];
      EventsOf(acts, n - 1) +
      (if a.Emit? && a.type_ != "" && a.payload.Some? then [Event(a.type_, a.payload.value)] else [])
  }

  /** A branch of a step that may create none starts out with that mistake. */
  function Started(creates: bool): B.Building {
    if creates then B.BLANK else B.Failed(B.BLANK, B.CannotCreate)
  }

  function DraftsOf<V>(acts: seq<Act<V>>, n: nat, creates: bool): seq<Draft<V>>
    requires n <= |acts|
  {
    if n == 0 then []
    else
      var a := acts[n - 1];
      DraftsOf(acts, n - 1, creates) +
      (if a.Create? then [Draft(a.input, a.key, a.keyed, B.PlayFrom(Started(creates), a.body.calls, |a.body.calls|).0)]
       else [])
  }

  predicate AllBuilt<V>(drafts: seq<Draft<V>>) { forall i :: 0 <= i < |drafts| ==> B.ErrOf(drafts[i].built).None? }

  function Chains<V>(drafts: seq<Draft<V>>): (branches: seq<Created<V>>)
    ensures |branches| == |drafts|
  {
    seq(|drafts|,
        i requires 0 <= i < |drafts| => Created(drafts[i].input, drafts[i].key, drafts[i].keyed, drafts[i].built.steps))
  }

  datatype Opened<V> = Opened(input: V, branch: B.CreatedBranch)

  class StepRun<V> {
    const creates: bool
    var emitted: seq<Event<V>>
    var created: seq<Opened<V>>

    function Repr(): set<object>
      reads this
    {
      {this} + set i | 0 <= i < |created| :: created[i].branch
    }

    ghost function Drafts(): (drafts: seq<Draft<V>>)
      reads Repr()
      ensures |drafts| == |created|
    {
      seq(|created|, i requires 0 <= i < |created| reads Repr() =>
            Draft(created[i].input, created[i].branch.key, created[i].branch.keyed, created[i].branch.Seen()))
    }

    constructor (creates: bool)
      ensures this.creates == creates && emitted == [] && created == []
    {
      this.creates, emitted, created := creates, [], [];
    }

    method EmitEvent(type_: string, payload: Option<V>)
      modifies this`emitted
      ensures emitted == old(emitted) + if type_ != "" && payload.Some? then [Event(type_, payload.value)] else []
    {
      if type_ == "" || payload.None? { return; }
      emitted := emitted + [Event(type_, payload.value)];
    }

    method CreateBranch(key: string, keyed: bool, input: V) returns (b: B.CreatedBranch)
      modifies this`created
      ensures fresh(b) && b.key == key && b.keyed == keyed && b.Seen() == Started(creates)
      ensures created == old(created) + [Opened(input, b)]
    {
      b := new B.CreatedBranch(key, keyed);
      if !creates { b.Fail(B.CannotCreate); }
      created := created + [Opened(input, b)];
    }

    /** Runs a handler on this step, from the start. */
    method Perform(acts: seq<Act<V>>)
      requires emitted == [] && created == []
      modifies this
      ensures emitted == EventsOf(acts, |acts|) && Drafts() == DraftsOf(acts, |acts|, creates)
      ensures fresh(Repr() - {this})
    {
      hide B.PlayFrom, Started;
      for i := 0 to |acts|
        invariant emitted == EventsOf(acts, i) && Drafts() == DraftsOf(acts, i, creates)
        invariant forall x :: 0 <= x < |created| ==> fresh(created[x].branch)
      {
        match acts[i]
        case Emit(type_, payload) => EmitEvent(type_, payload);
        case Create(key, keyed, input, body) =>
          BuildBranch(key, keyed, input, body);
      }
    }

    method BuildBranch(key: string, keyed: bool, input: V, body: B.Body)
      modifies this`created
      ensures Drafts() ==
              old(Drafts()) + [Draft(input, key, keyed, B.PlayFrom(Started(creates), body.calls, |body.calls|).0)]
      ensures |created| == |old(created)| + 1 && created[..|old(created)|] == old(created)
      ensures fresh(created[|old(created)|].branch)
    {
      hide B.PlayFrom, Started;
      ghost var before := Drafts();
      var b := CreateBranch(key, keyed, input);
      b.Run(body);
      assert Drafts() == before + [Draft(input, key, keyed, b.Seen())];
    }

    /** Hands over what the step buffered, all of it, unless a branch was built wrongly. */
    method Drain() returns (ok: bool, events: seq<Event<V>>, branches: seq<Created<V>>)
      modifies this`emitted, this`created
      ensures ok <==> AllBuilt(old(Drafts()))
      ensures ok ==> events == old(emitted) && branches == Chains(old(Drafts()))
      ensures emitted == [] && created == []
    {
      events, branches := emitted, [];
      var kept := created;
      ghost var drafts := Drafts();
      emitted, created := [], [];
      for i := 0 to |kept|
        invariant emitted == [] && created == []
        invariant forall x :: 0 <= x < |kept| ==>
                  old(allocated(kept[x].branch)) &&
                  kept[x].branch.Seen() == drafts[x].built
        invariant forall x :: 0 <= x < i ==> B.ErrOf(drafts[x].built).None?
        invariant |branches| == i && forall x :: 0 <= x < i ==> branches[x] == Chains(drafts)[x]
      {
        var b := kept[i].branch;
        assert drafts[i] == Draft(kept[i].input, b.key, b.keyed, b.Seen());
        var e := b.Err();
        if e.Some? { return false, [], []; }
        branches := branches + [Created(kept[i].input, b.key, b.keyed, b.steps)];
      }
      return true, events, branches;
    }
  }

  /** Every branch a step hands over is of the nested grammar, whatever its handler called. */
  lemma {:induction false} DrainedIsGrown<V>(acts: seq<Act<V>>, n: nat, creates: bool)
    requires n <= |acts|
    ensures forall i :: 0 <= i < |DraftsOf(acts, n, creates)| ==>
            Branched.GrownSeq(DraftsOf(acts, n, creates)[i].built.steps)
    ensures !creates ==> forall i :: 0 <= i < |DraftsOf(acts, n, creates)| ==>
            B.ErrOf(DraftsOf(acts, n, creates)[i].built).Some?
  {
    hide B.PlayFrom, Branched.Grown;
    if n > 0 {
      DrainedIsGrown(acts, n - 1, creates);
      if acts[n - 1].Create? {
        var calls := acts[n - 1].body.calls;
        Branched.PlayIsGrown(Started(creates), calls, |calls|);
        if !creates { StaysFailed(calls); }
      }
    }
  }

  lemma StaysFailed(calls: seq<B.Call>)
    ensures B.PlayFrom(Started(false), calls, |calls|).0.err == Some(B.CannotCreate)
  {
    hide B.Do;
    assert B.PlayFrom(Started(false), calls, 0).0.err == Some(B.CannotCreate);
    Branched.FirstMistakeStays(Started(false), calls, 0, |calls|);
  }

  // ---- settling a task ----

  datatype Settlement<V> =
    | Fail(taskId: string, leaseOwner: string, retryable: bool)
    | Report(taskId: string, leaseOwner: string, step: StepReport<V>)

  /** A client: the settling calls made on it, and the requests that left it. */
  class Client<V, W> {
    const encode: V -> Option<W>
    var calls: seq<Settlement<V>>
    ghost var sent: seq<Settlement<V>>

    constructor (encode: V -> Option<W>)
      ensures this.encode == encode && calls == [] && sent == []
    {
      this.encode, calls, sent := encode, [], [];
    }

    method FailTask(taskId: string, leaseOwner: string, retryable: bool)
      modifies this
      ensures calls == old(calls) + [Fail(taskId, leaseOwner, retryable)]
      ensures sent == old(sent) + [Fail(taskId, leaseOwner, retryable)]
    {
      calls := calls + [Fail(taskId, leaseOwner, retryable)];
      sent := sent + [Fail(taskId, leaseOwner, retryable)];
    }

    /** A report is sent only if all it carries can be encoded. */
    method ReportStep(taskId: string, leaseOwner: string, step: StepReport<V>)
      modifies this
      ensures calls == old(calls) + [Report(taskId, leaseOwner, step)]
      ensures sent == old(sent) + if Encodable(step, encode) then [Report(taskId, leaseOwner, step)] else []
    {
      hide Encodable, Says;
      calls := calls + [Report(taskId, leaseOwner, step)];
      var m := StepResult(step, encode);
      if m.Some? { sent := sent + [Report(taskId, leaseOwner, step)]; }
    }
  }

  function Refuse<V>(task: W.Task<V>): Settlement<V> { Fail(task.taskId, task.leaseOwner, false) }

  /** What settles a task whose handler ran: the failure, or a report of all it did. */
  function Settled<V>(task: W.Task<V>, nodeId: string, b: Behaviour<V>, creates: bool, started: int,
                      finished: int): Settlement<V> {
    if b.ending.Broke? then Fail(task.taskId, task.leaseOwner, !b.ending.permanent)
    else if !AllBuilt(DraftsOf(b.acts, |b.acts|, creates)) then Refuse(task)
    else if task.kind == PREDICATE && !b.ending.Answer? then Refuse(task)
    else
      Report(task.taskId, task.leaseOwner,
             StepReport(nodeId, OutcomeOf(b.ending, task.kind == PREDICATE), started, finished,
                        EventsOf(b.acts, |b.acts|),
                        Chains(DraftsOf(b.acts, |b.acts|, creates))))
  }

  /** A gate's answer is reported as one; any other step's result is its next context. */
  function OutcomeOf<V>(e: Ending<V>, gate: bool): Outcome<V>
    requires !e.Broke?
  {
    match e
    case Answer(answer, json) => if gate then Answered(answer) else Merged(json)
    case Nothing => Unchanged
    case Returned(value) => Merged(value)
  }

  /** An item's handler has no StepRun: what it returns replaces the item. */
  function SettledItem<V>(task: W.Task<V>, nodeId: string, e: Ending<V>, started: int, finished: int): Settlement<V> {
    if e.Broke? then Fail(task.taskId, task.leaseOwner, !e.permanent)
    else Report(task.taskId, task.leaseOwner, StepReport(nodeId, OutcomeOf(e, false), started, finished, [], []))
  }

  /** An item of a forEach, or of a created branch that has an item handler. */
  predicate RunsAsItem<V>(task: W.Task<V>, w: W.Worker)
    reads w
  {
    task.isItem && (task.activity in w.itemHandlers || task.node.InGraph?)
  }

  /** The one call that settles a task, given the handler it was found and what that handler does. */
  ghost predicate SettlesAs<V(!new)>(s: Settlement<V>, task: W.Task<V>, nodeId: string, found: Found,
                                     behave: (Handler, Combine.Unstaged<V>) -> Behaviour<V>, creates: bool,
                                     started: int, finished: int)
  {
    var u := Combine.Unstage(task.activation);
    if found.Err? || found.value.None? || (task.isItem && !task.rawIsObject) || u.Clash? then s == Refuse(task)
    else s == Settled(task, nodeId, behave(found.value.value, u), creates, started, finished)
  }

  method Execute<V(!new), X>(w: W.Worker, client: Client<V, X>, task: W.Task<V>, nodeId: string, fold: string -> string,
                       behave: (Handler, Combine.Unstaged<V>) -> Behaviour<V>, behaveItem: Handler -> Ending<V>,
                       started: int,
                       finished: int)
    returns (ghost s: Settlement<V>)
    requires w.Valid()
    modifies client, w`lazy, w`roles
    ensures w.Valid() && client.calls == old(client.calls) + [s]
    ensures client.sent == old(client.sent) + if s.Report? && !Encodable(s.step, client.encode) then [] else [s]
    ensures RunsAsItem(task, w) ==>
              s == if task.activity in w.itemHandlers
                then SettledItem(task, nodeId, behaveItem(w.itemHandlers[task.activity]), started, finished)
                   else Refuse(task)
    ensures !RunsAsItem(task, w) && task.activity in w.itemHandlers ==> s == Refuse(task)
    ensures !RunsAsItem(task, w) && task.activity !in w.itemHandlers ==>
              SettlesAs(s, task, nodeId, old(w.Dispatched(task, fold)), behave, w.MayCreate(task), started, finished)
  {
    hide Combine.Unstage, Encodable, EventsOf, DraftsOf, AllBuilt, Chains, Serves;
    if task.isItem && (task.activity in w.itemHandlers || task.node.InGraph?) {
      s := ExecuteItem(w, client, task, nodeId, behaveItem, started, finished);
      return;
    }
    s := Refuse(task);
    if task.activity in w.itemHandlers {
      client.FailTask(task.taskId, task.leaseOwner, false);
      return;
    }
    var handler := w.HandlerFor(task, fold);
    if handler.Err? || handler.value.None? {
      client.FailTask(task.taskId, task.leaseOwner, false);
      return;
    }
    if task.isItem && !task.rawIsObject {
      client.FailTask(task.taskId, task.leaseOwner, false);
      return;
    }
    var unstaged := Combine.UnstageTask(task.activation);
    if unstaged.Clash? {
      client.FailTask(task.taskId, task.leaseOwner, false);
      return;
    }
    var may := w.CreatesBranches(task);
    s := RunHandler(client, task, nodeId, behave(handler.value.value, unstaged), may, started, finished);
  }

  method ExecuteItem<V, X>(w: W.Worker, client: Client<V, X>, task: W.Task<V>, nodeId: string,
                           behaveItem: Handler -> Ending<V>,
                           started: int, finished: int)
    returns (ghost s: Settlement<V>)
    modifies client
    ensures client.calls == old(client.calls) + [s]
    ensures client.sent == old(client.sent) + if s.Report? && !Encodable(s.step, client.encode) then [] else [s]
    ensures s == if task.activity in w.itemHandlers
            then SettledItem(task, nodeId, behaveItem(w.itemHandlers[task.activity]), started, finished)
                 else Refuse(task)
  {
    hide Encodable;
    if task.activity !in w.itemHandlers {
      client.FailTask(task.taskId, task.leaseOwner, false);
      return Refuse(task);
    }
    var ending := behaveItem(w.itemHandlers[task.activity]);
    s := SettledItem(task, nodeId, ending, started, finished);
    if ending.Broke? {
      client.FailTask(task.taskId, task.leaseOwner, !ending.permanent);
    } else {
      client.ReportStep(task.taskId, task.leaseOwner,
                        StepReport(nodeId, OutcomeOf(ending, false), started, finished, [], []));
    }
  }

  method RunHandler<V, X>(client: Client<V, X>, task: W.Task<V>, nodeId: string, b: Behaviour<V>, creates: bool,
                          started: int,
                          finished: int)
    returns (ghost s: Settlement<V>)
    modifies client
    ensures s == Settled(task, nodeId, b, creates, started, finished)
    ensures client.calls == old(client.calls) + [s]
    ensures client.sent == old(client.sent) + if s.Report? && !Encodable(s.step, client.encode) then [] else [s]
  {
    hide Encodable, EventsOf, DraftsOf, AllBuilt, Chains;
    s := Settled(task, nodeId, b, creates, started, finished);
    var step := new StepRun<V>(creates);
    step.Perform(b.acts);
    if b.ending.Broke? {
      client.FailTask(task.taskId, task.leaseOwner, !b.ending.permanent);
      return;
    }
    var ok, events, branches := step.Drain();
    if !ok {
      client.FailTask(task.taskId, task.leaseOwner, false);
      return;
    }
    if task.kind == PREDICATE && !b.ending.Answer? {
      client.FailTask(task.taskId, task.leaseOwner, false);
      return;
    }
    client.ReportStep(task.taskId, task.leaseOwner,
                      StepReport(nodeId, OutcomeOf(b.ending, task.kind == PREDICATE), started, finished, events,
                                 branches));
  }

  /** A finished step whose result is the one value that cannot be encoded: its one call sends nothing. */
  method ReportedInVain(client: Client<int, int>, fold: string -> string) returns (call: Settlement<int>)
    requires forall v: int :: client.encode(v).None? <==> v == 0
    modifies client
    ensures call == Report("7", "worker", StepReport("n1", Merged(0), 0, 0, [], []))
    ensures client.calls == old(client.calls) + [call] && client.sent == old(client.sent)
  {
    hide Combine.Unstage, W.AllStem, W.AllClaimed, W.KindsAreClaimed, W.AllServe, W.BoundFor, EventsOf, DraftsOf;
    var task := W.Task("7", "worker", "order", 1, W.InGraph(0), "charge", TASK, "order#charge", false, true,
                       Combine.Activation([], "", map[]));
    var behaviour := Behaviour([], Returned(0));
    var w := new W.Worker();
    assert ActivityOf("order", "charge") == task.activity;
    var ok := w.Bind("order", "charge", W.TaskClaim, 1);
    NothingClashes<int>();
    DoesNothing<int>(w.MayCreate(task));
    ghost var s := Execute(w, client, task, "n1", fold, (h, u) => behaviour, h => Returned(0), 0, 0);
    call := Report("7", "worker", StepReport("n1", Merged(0), 0, 0, [], []));
    assert s == call;
  }

  lemma NothingClashes<V>()
    ensures !Combine.Unstage<V>(Combine.Activation([], "", map[])).Clash?
  {}

  lemma DoesNothing<V>(creates: bool)
    ensures EventsOf<V>([], 0) == [] && DraftsOf<V>([], 0, creates) == []
  {}
}
