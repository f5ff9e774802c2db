/** The poll loop, as a machine of its steps, in every interleaving of them. */
module PollLoop {
  import opened Topology

  // The loop polls for as many tasks as it has room for, hands each to a goroutine of its own, and, once stopped, waits
  // for them all. Which step comes next is left open.

  /** A task leased to this worker: the number of its lease. */
  type Lease = nat

  /**
   * Where the loop is: testing `running`, asking for `free` tasks, handing tasks out, backing off, waiting, or
   * returned.
   */
  datatype Phase = Testing | Polling(free: nat) | Handing(rest: seq<Lease>) | Sleeping | Draining | Returned

  /** A goroutine runs its task, settles it with one call, and then gives its place back. */
  datatype Stage = Running | Settled

  datatype State = State(
    running: bool,              // cleared by Stop
    phase: Phase,
    inflight: map<Lease, Stage>, // one place of the semaphore each
    leased: nat,                // leases given so far are 0 to leased-1
    settles: seq<Lease>)        // the settling calls made, in order

  datatype Action =
    | Test                      // the loop's condition, and room for another task
    | PollFails
    | PollAnswers(tasks: nat)   // how many tasks the server leased
    | Hand                      // the next task gets its place and its goroutine
    | Wake
    | Settle(lease: Lease)      // a goroutine's one settling call
    | Finish(lease: Lease)      // its place is free again
    | Stop
    | Return                    // nothing in flight: the loop returns, and so does Stop

  function Start(): State { State(true, Testing, map[], 0, []) }

  function Leases(from: nat, tasks: nat): seq<Lease> { seq(tasks, i requires 0 <= i < tasks => from + i) }

  /** Handing blocks while every place of the semaphore is taken. */
  predicate CanDo(s: State, a: Action, concurrency: nat) {
    match a
    case Test => s.phase.Testing?
    case PollFails => s.phase.Polling?
    case PollAnswers(_) => s.phase.Polling?
    case Hand => s.phase.Handing? && s.phase.rest != [] && |s.inflight| < concurrency
    case Wake => s.phase.Sleeping?
    case Settle(l) => l in s.inflight && s.inflight[l] == Running
    case Finish(l) => l in s.inflight && s.inflight[l] == Settled
    case Stop => s.running
    case Return => s.phase.Draining? && s.inflight == map[]
  }

  function Do(s: State, a: Action, concurrency: nat): State
    requires CanDo(s, a, concurrency)
  {
    match a
    case Test =>
      if !s.running then s.(phase := Draining)
      else if |s.inflight| >= concurrency then s.(phase := Sleeping)
      else s.(phase := Polling(concurrency - |s.inflight|))
    case PollFails => s.(phase := if s.running then Sleeping else Draining)
    case PollAnswers(tasks) =>
      if tasks == 0 then s.(phase := Sleeping)
      else s.(phase := Handing(Leases(s.leased, tasks)), leased := s.leased + tasks)
    case Hand =>
      var rest := s.phase.rest[1..];
      s.(inflight := s.inflight[s.phase.rest[0] := Running], phase := if rest == [] then Testing else Handing(rest))
    case Wake => s.(phase := Testing)
    case Settle(l) => s.(inflight := s.inflight[l := Settled], settles := s.settles + [l])
    case Finish(l) => s.(inflight := s.inflight - {l})
    case Stop => s.(running := false)
    case Return => s.(phase := Returned)
  }

  /** The server honours the number of tasks it was asked for. */
  predicate Honest(s: State, a: Action) { a.PollAnswers? && s.phase.Polling? ==> a.tasks <= s.phase.free }

  /** A run; None if some action could not happen. `honest` says the server never gives more than asked for. */
  function Run(run: seq<Action>, n: nat, concurrency: nat, honest: bool): Option<State>
    requires n <= |run|
  {
    if n == 0 then Some(Start())
    else
      match Run(run, n - 1, concurrency, honest)
      case None => None
      case Some(s) =>
        if CanDo(s, run[n - 1], concurrency) && (honest ==> Honest(s, run[n - 1]))
          then Some(Do(s, run[n - 1], concurrency)) else None
  }

  // ---- what every step keeps ----

  function Waiting(p: Phase): seq<Lease> { if p.Handing? then p.rest else [] }

  /**
   * Every lease is in exactly one place: waiting to be handed out, in flight, or done; settled once, when it is due.
   */
  ghost predicate Accounted(s: State) {
    && NoRepeats(Waiting(s.phase)) && NoRepeats(s.settles)
    && (forall l :: l in Waiting(s.phase) ==> l < s.leased && l !in s.inflight && l !in s.settles)
    && (forall l :: l in s.inflight ==> l < s.leased && (l in s.settles <==> s.inflight[l] == Settled))
    && (forall l :: l in s.settles ==> l < s.leased)
    && (forall l: Lease :: l < s.leased && l !in Waiting(s.phase) && l !in s.inflight ==> l in s.settles)
    && (s.phase.Handing? ==> s.phase.rest != [])
    && (s.phase.Returned? ==> s.inflight == map[] && !s.running)
    && (s.phase.Draining? ==> !s.running)
  }

  /** There is room for the tasks in flight, and for those the server was asked for or gave. */
  ghost predicate Room(s: State, concurrency: nat, honest: bool) {
    && |s.inflight| <= concurrency
    && (s.phase.Polling? ==> s.phase.free > 0 && |s.inflight| + s.phase.free <= concurrency)
    && (s.phase.Handing? ==> concurrency > 0 && (honest ==> |s.inflight| + |s.phase.rest| <= concurrency))
  }

  lemma KeepsAccounts(s: State, a: Action, concurrency: nat)
    requires Accounted(s) && CanDo(s, a, concurrency)
    ensures Accounted(Do(s, a, concurrency))
  {
    match a
    case Hand => HandAccounts(s, concurrency);
    case PollAnswers(tasks) => PollAccounts(s, tasks, concurrency);
    case Settle(l) => SettleAccounts(s, l, concurrency);
    case _ =>
  }

  lemma HandAccounts(s: State, concurrency: nat)
    requires Accounted(s) && CanDo(s, Hand, concurrency)
    ensures Accounted(Do(s, Hand, concurrency))
  {
    var rest, first, s' := s.phase.rest[1..], s.phase.rest[0], Do(s, Hand, concurrency);
    assert s.phase.rest == [first] + rest && Waiting(s.phase) == s.phase.rest;
    assert Waiting(s'.phase) == rest && s'.settles == s.settles && s'.leased == s.leased;
    assert s'.inflight == s.inflight[first := Running];
    assert NoRepeats(rest) by {
      forall i, x | 0 <= i < x < |rest| ensures rest[i] != rest[x] {
        assert rest[i] == s.phase.rest[i + 1] && rest[x] == s.phase.rest[x + 1];
      }
    }
    forall l | l in rest ensures l != first && l in s.phase.rest {
      var i :| 0 <= i < |rest| && rest[i] == l;
      assert s.phase.rest[i + 1] == l;
    }
    assert first in s.phase.rest;
    forall l: Lease | l < s.leased && l !in rest && l !in s'.inflight ensures l in s.settles {
      assert l !in s.phase.rest;
    }
    forall l | l in s'.inflight ensures l < s.leased && (l in s.settles <==> s'.inflight[l] == Settled) {
      if l != first { assert l in s.inflight; }
    }
  }

  lemma PollAccounts(s: State, tasks: nat, concurrency: nat)
    requires Accounted(s) && CanDo(s, PollAnswers(tasks), concurrency)
    ensures Accounted(Do(s, PollAnswers(tasks), concurrency))
  {
    var new_, s' := Leases(s.leased, tasks), Do(s, PollAnswers(tasks), concurrency);
    forall l: Lease | s.leased <= l < s.leased + tasks ensures l in new_ { assert new_[l - s.leased] == l; }
    assert Waiting(s.phase) == [];
  }

  lemma SettleAccounts(s: State, l: Lease, concurrency: nat)
    requires Accounted(s) && CanDo(s, Settle(l), concurrency)
    ensures Accounted(Do(s, Settle(l), concurrency))
  {
    var s' := Do(s, Settle(l), concurrency);
    forall i | 0 <= i < |s.settles| ensures s.settles[i] != l { assert s.settles[i] in s.settles; }
    assert forall x :: x in s'.settles <==> x in s.settles || x == l;
    assert NoRepeats(s'.settles);
  }

  lemma KeepsRoom(s: State, a: Action, concurrency: nat, honest: bool)
    requires Room(s, concurrency, honest) && CanDo(s, a, concurrency) && (honest ==> Honest(s, a))
    ensures Room(Do(s, a, concurrency), concurrency, honest)
  {
    match a
    case Settle(l) => SameSize(s.inflight, l);
    case Finish(l) => OneLess(s.inflight, l);
    case Hand => OneMore(s.inflight, s.phase.rest[0]);
    case _ =>
  }

  lemma SameSize(m: map<Lease, Stage>, l: Lease)
    requires l in m
    ensures |m[l := Settled]| == |m|
  {
    assert m[l := Settled].Keys == m.Keys;
    assert |m[l := Settled].Keys| == |m[l := Settled]| && |m.Keys| == |m|;
  }

  lemma OneLess(m: map<Lease, Stage>, l: Lease)
    requires l in m
    ensures |m - {l}| == |m| - 1
  {
    assert (m - {l}).Keys == m.Keys - {l};
    assert |(m - {l}).Keys| == |m - {l}| && |m.Keys| == |m|;
  }

  lemma OneMore(m: map<Lease, Stage>, l: Lease)
    ensures |m[l := Running]| <= |m| + 1
  {
    assert m[l := Running].Keys == m.Keys + {l};
    assert |m[l := Running].Keys| == |m[l := Running]| && |m.Keys| == |m|;
    assert |m.Keys + {l}| <= |m.Keys| + 1;
  }

  lemma {:induction false} RunKeeps(run: seq<Action>, n: nat, concurrency: nat, honest: bool)
    requires n <= |run|
    ensures var s := Run(run, n, concurrency, honest); s.Some? ==>
            Accounted(s.value) &&
            Room(s.value, concurrency, honest)
  {
    hide Accounted, Room, Do, CanDo, Honest;
    if n == 0 {
      StartIsFine(concurrency, honest);
    } else {
      RunKeeps(run, n - 1, concurrency, honest);
      var before := Run(run, n - 1, concurrency, honest);
      if before.Some? && CanDo(before.value, run[n - 1], concurrency) && (honest ==> Honest(before.value, run[n - 1])) {
        KeepsAccounts(before.value, run[n - 1], concurrency);
        KeepsRoom(before.value, run[n - 1], concurrency, honest);
      }
    }
  }

  lemma StartIsFine(concurrency: nat, honest: bool)
    ensures Accounted(Start()) && Room(Start(), concurrency, honest)
  {}

  // ---- what follows for every run ----

  /**
   * In every interleaving no more than `concurrency` tasks are in flight, and, if the server gives no more than it is
   * asked for, handing a task out never waits for a place.
   */
  lemma NeverTooMany(run: seq<Action>, concurrency: nat, honest: bool)
    ensures var s := Run(run, |run|, concurrency, honest);
            s.Some? ==>
              && |s.value.inflight| <= concurrency
              && (honest && s.value.phase.Handing? ==> CanDo(s.value, Hand, concurrency))
  {
    RunKeeps(run, |run|, concurrency, honest);
  }

  /** How often a lease was settled. */
  function Settles(s: State, l: Lease): nat { multiset(s.settles)[l] }

  lemma {:induction false} CountOnce(leases: seq<Lease>, l: Lease)
    requires NoRepeats(leases)
    ensures multiset(leases)[l] == if l in leases then 1 else 0
    decreases |leases|
  {
    if leases != [] {
      var before, last := leases[..|leases| - 1], leases[|leases| - 1];
      assert leases == before + [last];
      CountOnce(before, l);
      assert last !in before;
    }
  }

  /** A lease is settled at most once, and by the time the loop has returned, which Stop waits for, exactly once. */
  lemma SettledOnce(run: seq<Action>, concurrency: nat, honest: bool, l: Lease)
    ensures var s := Run(run, |run|, concurrency, honest);
            s.Some? ==>
              && Settles(s.value, l) <= 1
              && (l >= s.value.leased ==> Settles(s.value, l) == 0)
              && (s.value.phase.Returned? && l < s.value.leased ==> Settles(s.value, l) == 1)
  {
    RunKeeps(run, |run|, concurrency, honest);
    var s := Run(run, |run|, concurrency, honest);
    if s.Some? { CountOnce(s.value.settles, l); }
  }

  // ---- Stop returns ----

  /** How many steps the worker has left once it is stopped, if the server leases no more. */
  function Left(s: State): nat {
    var loop :=
      match s.phase
      case Sleeping => 3
      case Polling(_) => 4
      case Testing => 2
      case Handing(rest) => 3 * |rest| + 2
      case Draining => 1
      case Returned => 0;
    loop + Work(s.inflight)
  }

  /** Two steps for each task that still has to settle, one for each that has. */
  function Work(m: map<Lease, Stage>): nat {
    |m| + |Unsettled(m)|
  }

  function Unsettled(m: map<Lease, Stage>): set<Lease> { set l | l in m && m[l] == Running }

  /** The same, with three steps for each task that a server that keeps to what it was asked may still lease. */
  function Ahead(s: State): nat { Left(s) + if s.phase.Polling? then 3 * s.phase.free else 0 }

  /**
   * Once stopped, every step brings the return nearer, but for at most three steps for each task it leases; and a poll
   * that was under way can be answered, but no other is begun.
   */
  lemma StopComesNearer(s: State, a: Action, concurrency: nat)
    requires !s.running && CanDo(s, a, concurrency)
    ensures var s' := Do(s, a, concurrency);
            && !s'.running && s'.leased >= s.leased && Left(s') < Left(s) + 3 * (s'.leased - s.leased)
            && (s'.phase.Polling? ==> s'.phase == s.phase && !a.PollAnswers?)
            && (Honest(s, a) ==> Ahead(s') < Ahead(s))
  {
    hide Work;
    match a
    case Hand => HandWork(s.inflight, s.phase.rest[0]);
    case Settle(l) => SettleWork(s.inflight, l);
    case Finish(l) => FinishWork(s.inflight, l);
    case _ =>
  }

  lemma HandWork(m: map<Lease, Stage>, l: Lease)
    ensures Work(m[l := Running]) <= Work(m) + 2
  {
    OneMore(m, l);
    assert Unsettled(m[l := Running]) <= Unsettled(m) + {l};
    SubsetSize(Unsettled(m[l := Running]), Unsettled(m), l);
  }

  lemma SettleWork(m: map<Lease, Stage>, l: Lease)
    requires l in m && m[l] == Running
    ensures Work(m[l := Settled]) < Work(m)
  {
    SameSize(m, l);
    assert l in Unsettled(m);
    assert Unsettled(m[l := Settled]) == Unsettled(m) - {l};
  }

  lemma FinishWork(m: map<Lease, Stage>, l: Lease)
    requires l in m && m[l] == Settled
    ensures Work(m - {l}) < Work(m)
  {
    OneLess(m, l);
    assert Unsettled(m - {l}) == Unsettled(m);
  }

  lemma SubsetSize(a: set<Lease>, b: set<Lease>, l: Lease)
    requires a <= b + {l}
    ensures |a| <= |b| + 1
  {
    Smaller(a, b + {l});
    assert |b + {l}| <= |b| + 1;
  }

  lemma {:induction false} Smaller(a: set<Lease>, b: set<Lease>)
    requires a <= b
    ensures |a| <= |b|
  {
    if a != {} {
      var x :| x in a;
      Smaller(a - {x}, b - {x});
    }
  }

  /** Once stopped, the worker is not stuck before it has returned: some step of its own can be taken. */
  lemma NotStuck(s: State, concurrency: nat, honest: bool) returns (a: Action)
    requires !s.running && Accounted(s) && Room(s, concurrency, honest) && !s.phase.Returned?
    ensures CanDo(s, a, concurrency) && !a.PollAnswers? && !a.Stop?
  {
    if s.inflight != map[] {
      var l :| l in s.inflight;
      a := if s.inflight[l] == Running then Settle(l) else Finish(l);
    } else {
      match s.phase
      case Testing => a := Test;
      case Polling(_) => a := PollFails;
      case Handing(_) => a := Hand;
      case Sleeping => a := Wake;
      case Draining => a := Return;
    }
  }

  /** How often the server leased tasks between steps n and m of a run. */
  function Leasings(run: seq<Action>, n: nat, m: nat): nat
    requires n <= m <= |run|
  {
    if m == n then 0 else Leasings(run, n, m - 1) + if run[m - 1].PollAnswers? && run[m - 1].tasks > 0 then 1 else 0
  }

  lemma {:induction false} AfterStop(run: seq<Action>, n: nat, m: nat, concurrency: nat, honest: bool)
    requires n <= m <= |run| && Run(run, m, concurrency, honest).Some?
    ensures Run(run, n, concurrency, honest).Some?
    ensures var s, t := Run(run, n, concurrency, honest).value, Run(run, m, concurrency, honest).value;
            !s.running ==>
              && !t.running && t.leased >= s.leased && m - n + Left(t) <= Left(s) + 3 * (t.leased - s.leased)
              && Leasings(run, n, m) + (if t.phase.Polling? then 1 else 0) <= (if s.phase.Polling? then 1 else 0)
              && (honest ==> m - n + Ahead(t) <= Ahead(s))
  {
    hide Do, CanDo, Left, Honest, Ahead;
    if n < m {
      AfterStop(run, n, m - 1, concurrency, honest);
      var before := Run(run, m - 1, concurrency, honest).value;
      if !before.running {
        StopComesNearer(before, run[m - 1], concurrency);
        OnlyPollsLease(before, run[m - 1], concurrency);
      }
    }
  }

  lemma OnlyPollsLease(s: State, a: Action, concurrency: nat)
    ensures CanDo(s, a, concurrency) && a.PollAnswers? ==> s.phase.Polling?
  {}

  lemma AheadIsBounded(s: State, concurrency: nat)
    requires Room(s, concurrency, true)
    ensures Ahead(s) <= 3 * concurrency + 4
  {
    Smaller(Unsettled(s.inflight), s.inflight.Keys);
    assert |s.inflight.Keys| == |s.inflight|;
  }

  /**
   * From any point of any run at which the worker is stopped: the server leases tasks at most once more, in answer to a
   * poll already under way; the steps that follow are bounded, by 3 * concurrency + 4 if it keeps to what it was asked;
   * and where the worker has no step of its own to take, the loop has returned.
   */
  lemma StopReturns(run: seq<Action>, n: nat, concurrency: nat, honest: bool) returns (a: Action)
    requires n <= |run| && Run(run, |run|, concurrency, honest).Some?
    requires Run(run, n, concurrency, honest).Some? && !Run(run, n, concurrency, honest).value.running
    ensures var s, t := Run(run, n, concurrency, honest).value, Run(run, |run|, concurrency, honest).value;
            && Leasings(run, n, |run|) <= (if s.phase.Polling? then 1 else 0)
            && |run| - n <= Left(s) + 3 * (t.leased - s.leased)
    ensures honest ==> |run| - n <= 3 * concurrency + 4
    ensures var t := Run(run, |run|, concurrency, honest).value;
            t.phase.Returned? || (CanDo(t, a, concurrency) && !a.PollAnswers? && !a.Stop?)
  {
    hide Accounted, Room, Run, Left, Ahead, CanDo;
    AfterStop(run, n, |run|, concurrency, honest);
    RunKeeps(run, n, concurrency, honest);
    RunKeeps(run, |run|, concurrency, honest);
    if honest { AheadIsBounded(Run(run, n, concurrency, honest).value, concurrency); }
    a := Wake;
    var t := Run(run, |run|, concurrency, honest).value;
    if !t.phase.Returned? { a := NotStuck(t, concurrency, honest); }
  }
}
