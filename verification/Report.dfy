/** Steps as they are reported, with the chains of the branches they created. */
module Report {
  import opened Topology
  import opened Branch

  // Chains are nested as they were built. JSON values stay abstract: `encode` is the conversion to the value the
  // message carries, which may refuse one.

  // ---- a step of a created branch ----

  datatype RetryMessage = RetryMessage(maxAttempts: int, initialMillis: int, multiplier: real, maxMillis: int,
                                       jitter: real)

  datatype StepMessage = StepMessage(
    name: string, kind: Kind, compensable: bool, queue: string, retry: Option<RetryMessage>, sleepMillis: int,
    combine: string,
    workflow: string, escalation: seq<StepMessage>, arms: seq<ArmMessage>, body: seq<StepMessage>, loopBudget: int,
    cases: seq<CaseMessage>)

  datatype ArmMessage = ArmMessage(steps: seq<StepMessage>)
  datatype CaseMessage = CaseMessage(guard: string, steps: seq<StepMessage>)

  /** A multiplier is at least 1, and backoffs are whole milliseconds. */
  function EncodedRetry(r: Retry): RetryMessage {
    RetryMessage(r.maxAttempts, Millis(r.initialBackoff), if r.multiplier < 1.0 then 1.0 else r.multiplier,
                 Millis(r.maxBackoff),
                 r.jitter)
  }

  function EncodedStep(s: BranchStep): StepMessage
    decreases s
  {
    StepMessage(
      s.name, s.kind, s.compensable, s.queue, if s.retry.Some? then Some(EncodedRetry(s.retry.value)) else None,
        s.sleepMillis,
      s.combine, s.workflow, EncodedSteps(s.escalation),
      seq(|s.arms|, i requires 0 <= i < |s.arms| => ArmMessage(EncodedSteps(s.arms[i].steps))), EncodedSteps(s.body),
        s.loopBudget,
      seq(|s.cases|, i requires 0 <= i < |s.cases| => CaseMessage(s.cases[i].guard, EncodedSteps(s.cases[i].steps))))
  }

  function EncodedSteps(steps: seq<BranchStep>): (messages: seq<StepMessage>)
    ensures |messages| == |steps|
    decreases steps
  {
    seq(|steps|, i requires 0 <= i < |steps| => EncodedStep(steps[i]))
  }

  method BranchStepProto(s: BranchStep) returns (m: StepMessage)
    ensures m == EncodedStep(s)
    decreases s
  {
    var retry := if s.retry.Some? then Some(EncodedRetry(s.retry.value)) else None;
    var escalation := BranchStepsProto(s.escalation);
    var arms: seq<ArmMessage> := [];
    for i := 0 to |s.arms|
      invariant |arms| == i && forall x :: 0 <= x < i ==> arms[x] == ArmMessage(EncodedSteps(s.arms[x].steps))
    {
      var steps := BranchStepsProto(s.arms[i].steps);
      arms := arms + [ArmMessage(steps)];
    }
    var body := BranchStepsProto(s.body);
    var cases: seq<CaseMessage> := [];
    for i := 0 to |s.cases|
      invariant |cases| == i && forall x :: 0 <= x < i ==>
                cases[x] == CaseMessage(s.cases[x].guard, EncodedSteps(s.cases[x].steps))
    {
      var steps := BranchStepsProto(s.cases[i].steps);
      cases := cases + [CaseMessage(s.cases[i].guard, steps)];
    }
    return StepMessage(s.name, s.kind, s.compensable, s.queue, retry, s.sleepMillis, s.combine, s.workflow, escalation,
                       arms, body,
                       s.loopBudget, cases);
  }

  method BranchStepsProto(steps: seq<BranchStep>) returns (messages: seq<StepMessage>)
    ensures messages == EncodedSteps(steps)
    decreases steps
  {
    messages := [];
    for i := 0 to |steps|
      invariant |messages| == i && forall x :: 0 <= x < i ==> messages[x] == EncodedStep(steps[x])
    {
      var m := BranchStepProto(steps[i]);
      messages := messages + [m];
    }
  }

  // ---- decoding gives the step back ----

  function DecodedRetry(m: RetryMessage): Retry {
    Retry(m.maxAttempts, m.initialMillis * 1_000_000, m.multiplier, m.maxMillis * 1_000_000, m.jitter)
  }

  function DecodedStep(m: StepMessage): BranchStep
    decreases m
  {
    BranchStep(
      m.name, m.kind, m.compensable, m.queue, if m.retry.Some? then Some(DecodedRetry(m.retry.value)) else None,
        m.sleepMillis,
      m.combine, m.workflow, DecodedSteps(m.escalation),
      seq(|m.arms|, i requires 0 <= i < |m.arms| => Arm(DecodedSteps(m.arms[i].steps))), DecodedSteps(m.body),
        m.loopBudget,
      seq(|m.cases|, i requires 0 <= i < |m.cases| => Case(m.cases[i].guard, DecodedSteps(m.cases[i].steps))))
  }

  function DecodedSteps(messages: seq<StepMessage>): (steps: seq<BranchStep>)
    ensures |steps| == |messages|
    decreases messages
  {
    seq(|messages|, i requires 0 <= i < |messages| => DecodedStep(messages[i]))
  }

  /** A retry policy as the server will read it. */
  function Normal(r: Retry): Retry {
    r.(initialBackoff := Millis(r.initialBackoff) * 1_000_000, multiplier := if r.multiplier < 1.0 then 1.0
       else r.multiplier,
       maxBackoff := Millis(r.maxBackoff) * 1_000_000)
  }

  /** The same step with every retry policy in it, at any depth, as the server will read it. */
  function NormalStep(s: BranchStep): BranchStep
    decreases s
  {
    s.(retry := if s.retry.Some? then Some(Normal(s.retry.value)) else None,
       escalation := NormalSteps(s.escalation),
       arms := seq(|s.arms|, i requires 0 <= i < |s.arms| => Arm(NormalSteps(s.arms[i].steps))),
       body := NormalSteps(s.body),
       cases := seq(|s.cases|, i requires 0 <= i < |s.cases| => Case(s.cases[i].guard, NormalSteps(s.cases[i].steps))))
  }

  function NormalSteps(steps: seq<BranchStep>): (normal: seq<BranchStep>)
    ensures |normal| == |steps|
    decreases steps
  {
    seq(|steps|, i requires 0 <= i < |steps| => NormalStep(steps[i]))
  }

  /** Nothing of a branch is lost on the way but the finer parts of retry policies. */
  lemma {:induction false} StepRoundTrip(s: BranchStep)
    ensures DecodedStep(EncodedStep(s)) == NormalStep(s)
    decreases s
  {
    StepsRoundTrip(s.escalation);
    StepsRoundTrip(s.body);
    forall i | 0 <= i < |s.arms| ensures DecodedSteps(EncodedSteps(s.arms[i].steps)) == NormalSteps(s.arms[i].steps) {
      StepsRoundTrip(s.arms[i].steps);
    }
    forall i | 0 <= i < |s.cases|
      ensures DecodedSteps(EncodedSteps(s.cases[i].steps)) == NormalSteps(s.cases[i].steps) {
      StepsRoundTrip(s.cases[i].steps);
    }
    hide EncodedSteps, DecodedSteps, NormalSteps;
    assert DecodedStep(EncodedStep(s)).arms == NormalStep(s).arms;
    assert DecodedStep(EncodedStep(s)).cases == NormalStep(s).cases;
  }

  lemma {:induction false} StepsRoundTrip(steps: seq<BranchStep>)
    ensures DecodedSteps(EncodedSteps(steps)) == NormalSteps(steps)
    decreases steps
  {
    hide EncodedStep, DecodedStep, NormalStep;
    forall i | 0 <= i < |steps| ensures DecodedStep(EncodedStep(steps[i])) == NormalStep(steps[i]) {
      StepRoundTrip(steps[i]);
    }
  }

  lemma MillisTwice(d: Duration)
    ensures Millis(Millis(d) * 1_000_000) == Millis(d)
  {}

  lemma {:induction false} NormalIsEncodedAlike(s: BranchStep)
    ensures EncodedStep(NormalStep(s)) == EncodedStep(s)
    decreases s
  {
    hide Millis;
    if s.retry.Some? {
      MillisTwice(s.retry.value.initialBackoff);
      MillisTwice(s.retry.value.maxBackoff);
    }
    NormalStepsAreEncodedAlike(s.escalation);
    NormalStepsAreEncodedAlike(s.body);
    forall i | 0 <= i < |s.arms| ensures EncodedSteps(NormalSteps(s.arms[i].steps)) == EncodedSteps(s.arms[i].steps) {
      NormalStepsAreEncodedAlike(s.arms[i].steps);
    }
    forall i | 0 <= i < |s.cases|
      ensures EncodedSteps(NormalSteps(s.cases[i].steps)) == EncodedSteps(s.cases[i].steps) {
      NormalStepsAreEncodedAlike(s.cases[i].steps);
    }
    hide EncodedSteps, NormalSteps;
    assert EncodedStep(NormalStep(s)).arms == EncodedStep(s).arms;
    assert EncodedStep(NormalStep(s)).cases == EncodedStep(s).cases;
  }

  lemma {:induction false} NormalStepsAreEncodedAlike(steps: seq<BranchStep>)
    ensures EncodedSteps(NormalSteps(steps)) == EncodedSteps(steps)
    decreases steps
  {
    hide EncodedStep, NormalStep;
    forall i | 0 <= i < |steps| ensures EncodedStep(NormalStep(steps[i])) == EncodedStep(steps[i]) {
      NormalIsEncodedAlike(steps[i]);
    }
  }

  /** Two steps are reported alike exactly when they differ in no more than what their retry policies are read as. */
  lemma ReportedAlikeIff(a: BranchStep, b: BranchStep)
    ensures EncodedStep(a) == EncodedStep(b) <==> NormalStep(a) == NormalStep(b)
  {
    hide EncodedStep, DecodedStep, NormalStep;
    StepRoundTrip(a);
    StepRoundTrip(b);
    NormalIsEncodedAlike(a);
    NormalIsEncodedAlike(b);
  }

  // ---- a whole step ----

  datatype Event<V> = Event(type_: string, payload: V)

  /** A created branch once its handler is done with it. */
  datatype Created<V> = Created(input: V, key: string, keyed: bool, steps: seq<BranchStep>)

  /** How a step ended: a gate's answer, a task's next context, or the context left as it is. */
  datatype Outcome<V> = Answered(answer: bool) | Merged(value: V) | Unchanged

  datatype StepReport<V> = StepReport(
    nodeId: string, outcome: Outcome<V>, startedAt: int, finishedAt: int, events: seq<Event<V>>,
    branches: seq<Created<V>>)

  datatype CreatedMessage<W> = CreatedMessage(input: W, key: string, steps: seq<StepMessage>)

  datatype ResultMessage<W> = ResultMessage(
    nodeId: string, outcome: Outcome<W>, startedAt: int, finishedAt: int, events: seq<Event<W>>,
    branches: seq<CreatedMessage<W>>)

  /** Every value a report carries can be encoded. */
  ghost predicate Encodable<V, W>(r: StepReport<V>, encode: V -> Option<W>) {
    && (forall i :: 0 <= i < |r.events| ==> encode(r.events[i].payload).Some?)
    && (forall i :: 0 <= i < |r.branches| ==> encode(r.branches[i].input).Some?)
    && (r.outcome.Merged? ==> encode(r.outcome.value).Some?)
  }

  /** A message says what the report does: the same events and branches, in the same order, and the same outcome. */
  ghost predicate Says<V, W>(m: ResultMessage<W>, r: StepReport<V>, encode: V -> Option<W>) {
    && m.nodeId == r.nodeId && m.startedAt == r.startedAt && m.finishedAt == r.finishedAt
    && |m.events| == |r.events| && |m.branches| == |r.branches|
    && (forall i :: 0 <= i < |r.events| ==> SaysEvent(m.events[i], r.events[i], encode))
    && (forall i :: 0 <= i < |r.branches| ==> SaysBranch(m.branches[i], r.branches[i], encode))
    && match r.outcome
       case Answered(answer) => m.outcome == Answered(answer)
       case Merged(value) => m.outcome.Merged? && encode(value) == Some(m.outcome.value)
       case Unchanged => m.outcome == Unchanged
  }

  ghost predicate SaysEvent<V, W>(m: Event<W>, e: Event<V>, encode: V -> Option<W>) {
    m.type_ == e.type_ && encode(e.payload) == Some(m.payload)
  }

  ghost predicate SaysBranch<V, W>(m: CreatedMessage<W>, b: Created<V>, encode: V -> Option<W>) {
    encode(b.input) == Some(m.input) && m.key == b.key && m.steps == EncodedSteps(b.steps)
  }

  method CreatedBranchProto<V, W>(b: Created<V>, encode: V -> Option<W>) returns (m: Option<CreatedMessage<W>>)
    ensures m.Some? <==> encode(b.input).Some?
    ensures m.Some? ==> SaysBranch(m.value, b, encode)
  {
    var input := encode(b.input);
    if input.None? { return None; }
    var steps := BranchStepsProto(b.steps);
    return Some(CreatedMessage(input.value, b.key, steps));
  }

  /** Encodes a step's report; it fails exactly when some value in it cannot be encoded. */
  method StepResult<V, W>(r: StepReport<V>, encode: V -> Option<W>) returns (m: Option<ResultMessage<W>>)
    ensures m.Some? <==> Encodable(r, encode)
    ensures m.Some? ==> Says(m.value, r, encode)
  {
    hide EncodedSteps;
    var events: seq<Event<W>> := [];
    for i := 0 to |r.events|
      invariant |events| == i
      invariant forall x :: 0 <= x < i ==> SaysEvent(events[x], r.events[x], encode)
    {
      var payload := encode(r.events[i].payload);
      if payload.None? { return None; }
      events := events + [Event(r.events[i].type_, payload.value)];
    }
    var branches: seq<CreatedMessage<W>> := [];
    for i := 0 to |r.branches|
      invariant |branches| == i
      invariant forall x :: 0 <= x < i ==> SaysBranch(branches[x], r.branches[x], encode)
    {
      var b := CreatedBranchProto(r.branches[i], encode);
      if b.None? { return None; }
      branches := branches + [b.value];
    }
    var outcome: Outcome<W> := Unchanged;
    match r.outcome {
      case Answered(answer) => outcome := Answered(answer);
      case Merged(value) =>
        var merged := encode(value);
        if merged.None? { return None; }
        outcome := Merged(merged.value);
      case Unchanged =>
    }
    return Some(ResultMessage(r.nodeId, outcome, r.startedAt, r.finishedAt, events, branches));
  }
}
