/** Interest over every interleaving, the life of one operation, and that no
    operation waits without poll interest. */
module Wakeup {
  import opened Poll
  import opened InterestList
  import opened Demultiplexing
  import opened Protocol
  import opened Conservation

  /** The step is a connect that registers interest in this direction. */
  ghost predicate Registers(s: State, step: Step, fd: int, d: Direction) {
    step.AddInterest? && step.o in s.ops && s.ops[step.o].trigger == On(d) && s.ops[step.o].handle.fd == fd >= 0
  }

  /** The step is a dispatch that removes interest in this direction. */
  ghost predicate Unregisters(s: State, step: Step, fd: int, d: Direction) {
    && step.DispatchEvents? && step.w in s.waiters && s.waiters[step.w].Reported?
    && Indexed(s.waiters[step.w].events, |s.mux.demux|)
    && DispatchFault(s, s.waiters[step.w].events).NoFault?
    && IsCleared(s.waiters[step.w].events, fd, d)
  }

  lemma InterestStep(s: State, step: Step, fd: int, d: Direction)
    requires Structured(s) && Enabled(s, step)
    ensures Interested(Apply(s, step).mux, fd, d) <==>
            (Interested(s.mux, fd, d) && !Unregisters(s, step, fd, d)) || Registers(s, step, fd, d)
  {
    match step
    case AddInterest(o) => InterestAdded(s, o, fd, d);
    case DispatchEvents(w, e) => InterestDispatched(s, w, e, fd, d);
    case Push(o) => PushKeepsList(s, o);
    case _ => MuxFrame(s, step);
  }

  lemma InterestAdded(s: State, o: OpId, fd: int, d: Direction)
    requires Structured(s) && Enabled(s, AddInterest(o))
    ensures Interested(Apply(s, AddInterest(o)).mux, fd, d) <==>
            Interested(s.mux, fd, d) || Registers(s, AddInterest(o), fd, d)
  {
    if s.ops[o].handle.fd >= 0 { RegisterEffect(s.mux, s.ops[o].handle.fd, s.ops[o].trigger.d, fd, d); }
  }

  lemma InterestDispatched(s: State, w: WaiterId, e: seq<int>, fd: int, d: Direction)
    requires Structured(s) && Enabled(s, DispatchEvents(w, e))
    ensures Interested(Apply(s, DispatchEvents(w, e)).mux, fd, d) <==>
            Interested(s.mux, fd, d) && !Unregisters(s, DispatchEvents(w, e), fd, d)
  {
    DispatchInterest(s.mux, s.waiters[w].events, fd, d);
  }

  lemma PushKeepsList(s: State, o: OpId)
    requires Enabled(s, Push(o))
    ensures Apply(s, Push(o)).mux.list == s.mux.list
  {
  }

  ghost predicate RegistersAt(r: Run, m: int, fd: int, d: Direction)
    requires r.Valid()
  {
    0 <= m < |r.steps| && Registers(r.states[m], r.steps[m], fd, d)
  }

  ghost predicate UnregistersAt(r: Run, m: int, fd: int, d: Direction)
    requires r.Valid()
  {
    0 <= m < |r.steps| && Unregisters(r.states[m], r.steps[m], fd, d)
  }

  lemma InterestStepAt(r: Run, k: nat, fd: int, d: Direction)
    requires r.Valid() && k < |r.steps|
    ensures Interested(r.states[k + 1].mux, fd, d) <==>
            (Interested(r.states[k].mux, fd, d) && !UnregistersAt(r, k, fd, d)) || RegistersAt(r, k, fd, d)
  {
    assert r.StepAt(k);
    Reachable(r, k);
    InterestStep(r.states[k], r.steps[k], fd, d);
  }

  /** Step `i` registered the interest and no step from there to `k` removed it. */
  ghost predicate RegisteredSince(r: Run, i: int, k: int, fd: int, d: Direction)
    requires r.Valid() && k < |r.states|
  {
    0 <= i < k && RegistersAt(r, i, fd, d) && forall j :: i < j < k ==> !UnregistersAt(r, j, fd, d)
  }

  /** Over every interleaving, stale snapshots included: the interest flag is
      set exactly when some connect registered it and no later dispatch removed it. */
  lemma {:induction false} InterestExact(r: Run, k: nat, fd: int, d: Direction)
    requires r.Valid() && k < |r.states|
    ensures Interested(r.states[k].mux, fd, d) <==> exists i :: RegisteredSince(r, i, k, fd, d)
  {
    if k > 0 {
      var k' := k - 1;
      InterestStepAt(r, k', fd, d);
      InterestExact(r, k', fd, d);
      if RegistersAt(r, k', fd, d) {
        assert RegisteredSince(r, k', k, fd, d);
      } else if !UnregistersAt(r, k', fd, d) {
        if i :| RegisteredSince(r, i, k', fd, d) { assert RegisteredSince(r, i, k, fd, d); }
      }
      if i :| RegisteredSince(r, i, k, fd, d) {
        if i < k' { assert RegisteredSince(r, i, k', fd, d); }
      }
    }
  }

  // --- The life of one operation ---

  function Rank(p: Phase): nat {
    match p
    case Attempted => 0
    case Made => 1
    case Registering => 2
    case Connected => 3
    case Thrown => 4
    case Enqueuing => 5
    case Queued => 6
    case Ready(_) => 7
    case Running => 8
    case Done => 9
  }

  /** Phases only move forward, and once the sender exists its fields are fixed. */
  ghost predicate Later(a: Op, b: Op) {
    && Rank(a.phase) <= Rank(b.phase)
    && a.handle == b.handle && a.kind == b.kind
    && (a.phase != Attempted ==> a.trigger == b.trigger && a.func == b.func)
  }

  lemma EarlyLater(s: State, step: Step, o: OpId)
    requires Enabled(s, step) && o in s.ops && OpOf(s, step) == Some(o)
    requires step.Classify? || step.ConnectCheck? || step.AddInterest? || step.StartCheck?
    ensures o in Apply(s, step).ops && Later(s.ops[o], Apply(s, step).ops[o])
  {
  }

  lemma LateLater(s: State, step: Step, o: OpId)
    requires Enabled(s, step) && o in s.ops && OpOf(s, step) == Some(o) && Apply(s, step).fault.NoFault?
    requires step.Push? || step.Complete? || (step.Pop? && HasPhase(s, o, Ready(step.w)))
    ensures o in Apply(s, step).ops && Later(s.ops[o], Apply(s, step).ops[o])
  {
    if step.Complete? { CompleteLater(s, o, step.result); }
  }

  lemma CompleteLater(s: State, o: OpId, r: SysResult)
    requires Enabled(s, Complete(o, r)) && ApplyComplete(s, o, r).fault.NoFault?
    ensures var s' := ApplyComplete(s, o, r); o in s'.ops && Later(s.ops[o], s'.ops[o])
  {
  }

  lemma ReadyIsLater(ops: map<OpId, Op>, ready: seq<OpId>, w: WaiterId, o: OpId)
    requires o in ops && (o in ready ==> ops[o].phase == Queued)
    ensures o in MakeReady(ops, ready, w) && Later(ops[o], MakeReady(ops, ready, w)[o])
  {
  }

  lemma DispatchLater(s: State, step: Step, o: OpId)
    requires QueuesHold(s) && Structured(s) && Enabled(s, step) && step.DispatchEvents? && o in s.ops
    ensures o in Apply(s, step).ops && Later(s.ops[o], Apply(s, step).ops[o])
  {
    if Apply(s, step).fault.NoFault? {
      DispatchShape(s, step);
      DispatchMoves(s, s.waiters[step.w].events, o);
      ReadyIsLater(s.ops, MadeReady(s.mux, s.waiters[step.w].events), step.w, o);
    } else {
      FaultChangesNothing(s, step);
    }
  }

  lemma LaterStep(s: State, step: Step, o: OpId)
    requires Inv(s) && Enabled(s, step) && o in s.ops
    ensures o in Apply(s, step).ops && Later(s.ops[o], Apply(s, step).ops[o])
  {
    if step.DispatchEvents? {
      DispatchLater(s, step, o);
    } else if !Apply(s, step).fault.NoFault? {
      FaultChangesNothing(s, step);
    } else if OpOf(s, step) == Some(o) {
      if step.Pop? { PopsReady(s, step); }
      if step.Push? || step.Complete? || step.Pop? {
        LateLater(s, step, o);
      } else {
        EarlyLater(s, step, o);
      }
    } else {
      StepChangesOneOp(s, step);
    }
  }

  lemma {:induction false} LaterRun(r: Run, i: nat, k: nat, o: OpId)
    requires r.Valid() && i <= k < |r.states| && o in r.states[i].ops
    ensures o in r.states[k].ops && Later(r.states[i].ops[o], r.states[k].ops[o])
    decreases k - i
  {
    if i < k {
      LaterRun(r, i, k - 1, o);
      Reachable(r, k - 1);
      assert r.StepAt(k - 1);
      LaterStep(r.states[k - 1], r.steps[k - 1], o);
    }
  }

  // --- No lost wakeup ---

  /** A dispatch that removes the interest of a waiting operation releases it. */
  lemma UnregisterReleases(s: State, step: Step, o: OpId)
    requires Inv(s) && Enabled(s, step) && HasPhase(s, o, Queued) && s.ops[o].trigger.On?
    requires Unregisters(s, step, s.ops[o].handle.fd, s.ops[o].trigger.d)
    ensures !HasPhase(Apply(s, step), o, Queued)
  {
    ClearedIsSelected(s.waiters[step.w].events, s.ops[o].handle.fd, s.ops[o].trigger.d);
    DispatchMoves(s, s.waiters[step.w].events, o);
  }

  /** A dispatch cannot remove the interest of an operation and leave it waiting. */
  lemma WaitingKeepsInterest(s: State, step: Step, o: OpId)
    requires Inv(s) && Enabled(s, step)
    requires HasPhase(s, o, Queued) && s.ops[o].trigger.On?
    requires Interested(s.mux, s.ops[o].handle.fd, s.ops[o].trigger.d)
    requires HasPhase(Apply(s, step), o, Queued)
    ensures Interested(Apply(s, step).mux, s.ops[o].handle.fd, s.ops[o].trigger.d)
  {
    var fd, d := s.ops[o].handle.fd, s.ops[o].trigger.d;
    InterestStep(s, step, fd, d);
    if Unregisters(s, step, fd, d) { UnregisterReleases(s, step, o); }
  }

  /** Between its queueing and a later moment at which it still waits, an
      operation waited all the time. */
  lemma WaitedThroughout(r: Run, j: nat, m: nat, k: nat, o: OpId)
    requires r.Valid() && j < m <= k < |r.states| && r.steps[j] == Push(o)
    requires HasPhase(r.states[k], o, Queued)
    ensures HasPhase(r.states[m], o, Queued)
    ensures r.states[m].ops[o].handle == r.states[k].ops[o].handle
    ensures r.states[m].ops[o].trigger == r.states[k].ops[o].trigger
  {
    assert r.StepAt(j);
    LaterRun(r, j, m, o);
    LaterRun(r, m, k, o);
    if j + 1 < k {
      assert r.StepAt(j + 1);
      LaterRun(r, j + 1, m, o);
    }
  }

  lemma {:induction false} LastUnregister(r: Run, i: int, k: nat, fd: int, d: Direction) returns (m: int)
    requires r.Valid() && exists n :: i < n < k && UnregistersAt(r, n, fd, d)
    ensures i < m < k && UnregistersAt(r, m, fd, d)
    ensures forall n :: m < n < k ==> !UnregistersAt(r, n, fd, d)
  {
    if UnregistersAt(r, k - 1, fd, d) { m := k - 1; } else { m := LastUnregister(r, i, k - 1, fd, d); }
  }

  /** While an operation waits, no dispatch removes its interest. */
  lemma WaitsUncleared(r: Run, j: nat, m: nat, k: nat, o: OpId)
    requires r.Valid() && j < m < k < |r.states| && r.steps[j] == Push(o)
    requires HasPhase(r.states[k], o, Queued) && r.states[k].ops[o].trigger.On?
    ensures !UnregistersAt(r, m, r.states[k].ops[o].handle.fd, r.states[k].ops[o].trigger.d)
  {
    WaitedThroughout(r, j, m, k, o);
    WaitedThroughout(r, j, m + 1, k, o);
    if UnregistersAt(r, m, r.states[k].ops[o].handle.fd, r.states[k].ops[o].trigger.d) { ReleasedAt(r, m, o); }
  }

  lemma ReleasedAt(r: Run, m: nat, o: OpId)
    requires r.Valid() && m < |r.steps| && HasPhase(r.states[m], o, Queued) && r.states[m].ops[o].trigger.On?
    requires UnregistersAt(r, m, r.states[m].ops[o].handle.fd, r.states[m].ops[o].trigger.d)
    ensures !HasPhase(r.states[m + 1], o, Queued)
  {
    Reachable(r, m);
    assert r.StepAt(m);
    UnregisterReleases(r.states[m], r.steps[m], o);
  }

  /** The connect of an operation that waits later registered its interest. */
  lemma ConnectRegisters(r: Run, i: nat, k: nat, o: OpId)
    requires r.Valid() && i < k < |r.states| && r.steps[i] == AddInterest(o) && HasPhase(r.states[k], o, Queued)
    ensures r.states[k].ops[o].trigger.On?
    ensures Registers(r.states[i], r.steps[i], r.states[k].ops[o].handle.fd, r.states[k].ops[o].trigger.d)
  {
    assert r.StepAt(i);
    LaterRun(r, i, k, o);
    Reachable(r, k);
    assert OpWired(r.states[k], r.states[k].ops[o]);
  }

  /** A dispatch between the connect at step `i` and the start at step `j`
      removed the interest, and no connect registered it since. */
  ghost predicate HitInWindow(r: Run, i: int, j: int, m: int, k: int, fd: int, d: Direction)
    requires r.Valid() && k < |r.states|
  {
    i < m < j < k && UnregistersAt(r, m, fd, d) &&
    forall n :: m < n < k ==> !RegistersAt(r, n, fd, d)
  }

  /** Over every interleaving: an operation waits uncovered by the interest list
      if and only if a dispatch removed its interest between its connect and its
      queueing and no connect, of any operation, registered it since. */
  lemma UncoveredExactly(r: Run, i: nat, j: nat, k: nat, o: OpId)
    requires r.Valid() && i < j < k < |r.states|
    requires r.steps[i] == AddInterest(o) && r.steps[j] == Push(o) && HasPhase(r.states[k], o, Queued)
    ensures r.states[k].ops[o].trigger.On?
    ensures var fd, d := r.states[k].ops[o].handle.fd, r.states[k].ops[o].trigger.d;
            !Interested(r.states[k].mux, fd, d) <==> exists m :: HitInWindow(r, i, j, m, k, fd, d)
  {
    ConnectRegisters(r, i, k, o);
    var fd, d := r.states[k].ops[o].handle.fd, r.states[k].ops[o].trigger.d;
    InterestExact(r, k, fd, d);
    if !Interested(r.states[k].mux, fd, d) {
      assert !RegisteredSince(r, i, k, fd, d);
      var m := LastUnregister(r, i, k, fd, d);
      if m > j { WaitsUncleared(r, j, m, k, o); }
      forall n | m < n < k ensures !RegistersAt(r, n, fd, d) { assert !RegisteredSince(r, n, k, fd, d); }
      assert HitInWindow(r, i, j, m, k, fd, d);
    }
    if m :| HitInWindow(r, i, j, m, k, fd, d) {
      if e :| RegisteredSince(r, e, k, fd, d) {}
    }
  }

  /** So an operation whose window from its connect to its queueing saw no
      dispatch remove its interest is covered for as long as it waits. */
  lemma NoLostWakeup(r: Run, i: nat, j: nat, k: nat, o: OpId)
    requires r.Valid() && i < j < k < |r.states|
    requires r.steps[i] == AddInterest(o) && r.steps[j] == Push(o) && HasPhase(r.states[k], o, Queued)
    requires var fd, t := r.states[k].ops[o].handle.fd, r.states[k].ops[o].trigger;
             t.On? ==> forall m :: i < m < j ==> !UnregistersAt(r, m, fd, t.d)
    ensures r.states[k].ops[o].trigger.On?
    ensures Interested(r.states[k].mux, r.states[k].ops[o].handle.fd, r.states[k].ops[o].trigger.d)
  {
    UncoveredExactly(r, i, j, k, o);
  }

  // --- The hypothesis is needed ---

  /** A connect on one thread, a whole wait on another, then the start: the
      dispatch removes the interest before the operation is queued. The
      operation then waits with no interest registered, and a further blocking
      wait returns 0 while it is pending. */
  lemma LostWakeup() returns (r: Run)
    ensures r.Valid()
    ensures HasPhase(r.Last(), 0, Queued) && !Interested(r.Last().mux, 3, Read)
    ensures r.steps[|r.steps| - 1] == DispatchEvents(1, [])
    ensures 1 in r.Last().waiters && r.Last().waiters[1] == Draining(-1, 0, [], None)
  {
    r := QueuedUncovered();
    assert Active(r.Last().mux.list) == [] by { assert r.Last().mux.list[1..] == []; }
    assert Bits([PollFd(3, {}, {})], 3) == {};
    r := WaitForNothing(r);
  }

  /** A blocking wait that finds no interest. */
  lemma WaitForNothing(r: Run) returns (r': Run)
    requires r.Valid() && r.Last().fault.NoFault? && r.Last().waiters == map[] && Active(r.Last().mux.list) == []
    ensures r'.Valid() && r'.steps != [] && r'.steps[|r'.steps| - 1] == DispatchEvents(1, [])
    ensures r'.Last().mux == r.Last().mux && r'.Last().waiters == map[1 := Draining(-1, 0, [], None)]
    ensures forall o :: HasPhase(r.Last(), o, Queued) ==> HasPhase(r'.Last(), o, Queued)
  {
    ThenValid(r, Snapshot(1, -1)); r' := r.Then(Snapshot(1, -1));
    ThenValid(r', PollReturn(1, [])); r' := r'.Then(PollReturn(1, []));
    assert r'.Last() == r.Last().(waiters := map[1 := Reported(-1, [])]);
    ThenValid(r', DispatchEvents(1, [])); r' := r'.Then(DispatchEvents(1, []));
  }

  /** The operation starts after its interest is gone. */
  lemma QueuedUncovered() returns (r: Run)
    ensures r.Valid() && HasPhase(r.Last(), 0, Queued) && r.Last().mux.list == [PollFd(3, {}, {})]
    ensures r.Last().fault.NoFault? && r.Last().waiters == map[]
  {
    r := ConnectThenWait();
    ThenValid(r, StartCheck(0)); r := r.Then(StartCheck(0));
    assert SameHandle(r.Last(), Handle(0, 3));
    ThenValid(r, Push(0)); r := r.Then(Push(0));
  }

  /** Interest registered, then removed by a dispatch. */
  lemma ConnectThenWait() returns (r: Run)
    ensures r.Valid()
    ensures r.Last() == JustConnected(Mux(Grown([], 4), [PollFd(3, {}, {})]), map[])
  {
    r := ConnectThenReport();
    DispatchReported();
    ThenValid(r, DispatchEvents(0, [0])); r := r.Then(DispatchEvents(0, [0]));
    var m: Mux<OpId, Handle> := Mux(Grown([], 4), [PollFd(3, {}, {})]);
    assert Enabled(JustConnected(m, map[0 := Draining(-1, 1, [], None)]), Finish(0));
    ThenValid(r, Finish(0)); r := r.Then(Finish(0));
    assert map[0 := Draining(-1, 1, [], None)] - {0} == map[];
  }

  /** The dispatch of that report, as a step. */
  lemma DispatchReported()
    ensures var s := JustConnected(Mux(Grown([], 4), [PollFd(3, {In}, {})]),
                                   map[0 := Reported(-1, [PollFd(3, {In}, {In})])]);
            && Enabled(s, DispatchEvents(0, [0]))
            && Apply(s, DispatchEvents(0, [0])) ==
               JustConnected(Mux(Grown([], 4), [PollFd(3, {}, {})]), map[0 := Draining(-1, 1, [], None)])
  {
    DispatchIn();
  }

  lemma ConnectThenReport() returns (r: Run)
    ensures r.Valid()
    ensures r.Last() == JustConnected(Mux(Grown([], 4), [PollFd(3, {In}, {})]),
                                      map[0 := Reported(-1, [PollFd(3, {In}, {In})])])
  {
    r := ConnectThenSnapshot();
    var e, ev := PollFd(3, {In}, {}), PollFd(3, {In}, {In});
    var revents := [{In}];
    assert revents[0] != {};
    assert WithRevents([e], revents) == [ev];
    assert [ev][1..] == [] && In in ev.revents;
    assert Reports([ev]) == [ev];
    ThenValid(r, PollReturn(0, revents)); r := r.Then(PollReturn(0, revents));
  }

  function JustConnected(mux: Mux<OpId, Handle>, waiters: map<WaiterId, Waiter>): State {
    State(map[0 := Op(Custom(On(Read)), Handle(0, 3), On(Read), Deferred, Some(3), Connected)],
          mux, map[], waiters, {}, [], [], 0, {}, NoFault)
  }

  lemma ConnectThenSnapshot() returns (r: Run)
    ensures r.Valid()
    ensures r.Last() == JustConnected(Mux(Grown([], 4), [PollFd(3, {In}, {})]),
                                      map[0 := Polling(-1, [PollFd(3, {In}, {})])])
  {
    var h := Handle(0, 3);
    r := NoSteps;
    ThenValid(r, Create(0, Custom(On(Read)), h, Success(0))); r := r.Then(Create(0, Custom(On(Read)), h, Success(0)));
    ThenValid(r, ConnectCheck(0)); r := r.Then(ConnectCheck(0));
    ThenValid(r, AddInterest(0)); r := r.Then(AddInterest(0));
    var e := PollFd(3, {In}, {});
    assert r.Last().mux == Mux(Grown([], 4), [e]);
    assert Active([e]) == [e] by { assert [e][1..] == []; }
    ThenValid(r, Snapshot(0, -1)); r := r.Then(Snapshot(0, -1));
  }

  lemma DispatchIn()
    ensures var m: Mux<OpId, Handle> := Mux(Grown([], 4), [PollFd(3, {In}, {})]);
            var evs := [PollFd(3, {In}, {In})];
            && !NullSocketHit(m, evs)
            && Dispatched(m, evs) == Mux(Grown([], 4), [PollFd(3, {}, {})])
            && MadeReady(m, evs) == []
            && StoredErrors(m, map[], evs, [0]) == map[]
  {
    var m: Mux<OpId, Handle> := Mux(Grown([], 4), [PollFd(3, {In}, {})]);
    var ev := PollFd(3, {In}, {In});
    assert m.demux[3] == Demux([], [], None) && Drained(m.demux[3], {In}) == Demux([], [], None);
    assert m.demux[3 := Demux([], [], None)] == m.demux;
    assert Remaining({In}, {In}) == {};
    assert Cleared(m.list, ev) == [PollFd(3, {}, {})];
    assert [ev][..0] == [] && [0][..0] == [];
    assert Dispatched(m, [ev]) == DispatchOne(m, ev);
  }
}
