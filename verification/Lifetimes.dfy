/** The socket pointer of a descriptor and the life of the handle it points to.
    An operation shares ownership of its handle until it has completed; the
    pointer owns nothing and is never reset. */
module Lifetimes {
  import opened Poll
  import opened InterestList
  import opened Demultiplexing
  import opened Protocol
  import opened Conservation
  import opened Wakeup
  import opened LoopExit

  /** The step queues an operation with this handle on the descriptor. */
  ghost predicate QueuesOn(s: State, step: Step, fd: int, h: Handle) {
    step.Push? && step.o in s.ops && s.ops[step.o].demux == Some(fd) && s.ops[step.o].handle == h
  }

  ghost predicate PointsTo(s: State, fd: int, h: Handle) {
    0 <= fd < |s.mux.demux| && s.mux.demux[fd].socket == Some(h)
  }

  /** The step queues something on the descriptor. */
  ghost predicate QueuesAny(s: State, step: Step, fd: int) {
    step.Push? && step.o in s.ops && s.ops[step.o].demux == Some(fd)
  }

  lemma PointsToStep(s: State, step: Step, fd: int, h: Handle)
    requires Structured(s) && Enabled(s, step)
    ensures PointsTo(Apply(s, step), fd, h) <==>
            QueuesOn(s, step, fd, h) || (PointsTo(s, fd, h) && !QueuesAny(s, step, fd))
  {
    if step.DispatchEvents? {
      DispatchQueues(s.mux, s.waiters[step.w].events, 0, Read);
    } else if step.Push? {
      PointsToPush(s, step.o, fd, h);
    } else {
      SocketsFrame(s, step);
    }
  }

  lemma PointsToPush(s: State, o: OpId, fd: int, h: Handle)
    requires Enabled(s, Push(o))
    ensures PointsTo(Apply(s, Push(o)), fd, h) <==>
            QueuesOn(s, Push(o), fd, h) || (PointsTo(s, fd, h) && !QueuesAny(s, Push(o), fd))
  {
  }

  /** Step `j` queued an operation with the handle, and no later step before `k`
      queued anything on the descriptor. */
  ghost predicate LastQueued(r: Run, j: int, k: int, fd: int, h: Handle)
    requires r.Valid() && k < |r.states|
  {
    0 <= j < k && QueuesOn(r.states[j], r.steps[j], fd, h) &&
    forall m :: j < m < k ==> !QueuesAny(r.states[m], r.steps[m], fd)
  }

  /** In any run the socket pointer of a descriptor is the handle of the
      operation queued last on it, and null if and only if there is none. */
  lemma {:induction false} SocketExactly(r: Run, k: nat, fd: int, h: Handle)
    requires r.Valid() && k < |r.states|
    ensures PointsTo(r.states[k], fd, h) <==> exists j :: LastQueued(r, j, k, fd, h)
  {
    if k > 0 {
      var s, step, k' := r.states[k - 1], r.steps[k - 1], k - 1;
      SocketExactly(r, k', fd, h);
      StructuredAt(r, k');
      assert r.StepAt(k');
      PointsToStep(s, step, fd, h);
      if QueuesOn(s, step, fd, h) { assert LastQueued(r, k', k, fd, h); }
      if !QueuesAny(s, step, fd) {
        if j :| LastQueued(r, j, k', fd, h) { assert LastQueued(r, j, k, fd, h); }
      }
      if j :| LastQueued(r, j, k, fd, h) {
        if j < k' { assert LastQueued(r, j, k', fd, h); }
      }
    }
  }

  lemma StructuredAt(r: Run, k: nat)
    requires r.Valid() && k < |r.states|
    ensures Structured(r.states[k])
  {
    Reachable(r, k);
  }

  // --- Released handles ---

  lemma {:induction false} ReleasedExactly(r: Run, k: nat, h: Handle)
    requires r.Valid() && k < |r.states|
    ensures h in r.states[k].released <==> exists m :: 0 <= m < k && r.steps[m] == Release(h)
  {
    if k > 0 {
      ReleasedExactly(r, k - 1, h);
      assert r.StepAt(k - 1);
      ReleasedStep(r.states[k - 1], r.steps[k - 1]);
    }
  }

  lemma ReleasedStep(s: State, step: Step)
    requires Enabled(s, step)
    ensures Apply(s, step).released == s.released + if step.Release? then {step.h} else {}
  {
  }

  /** An unfinished operation keeps its handle. */
  ghost predicate HandlesHeld(s: State) {
    forall o :: o in s.ops && !Finished(s.ops[o].phase) ==> s.ops[o].handle !in s.released
  }

  lemma HeldStep(s: State, step: Step)
    requires Inv(s) && HandlesHeld(s) && Enabled(s, step)
    ensures HandlesHeld(Apply(s, step))
  {
    var s' := Apply(s, step);
    ReleasedStep(s, step);
    forall o | o in s'.ops && !Finished(s'.ops[o].phase) ensures s'.ops[o].handle !in s'.released {
      if o in s.ops {
        LaterStep(s, step, o);
        if Finished(s.ops[o].phase) { FinishedStays(s, step, o); }
        if step.Release? { assert s'.ops == s.ops; }
      } else {
        NewHandle(s, step, o);
      }
    }
  }

  lemma NewHandle(s: State, step: Step, o: OpId)
    requires Enabled(s, step) && o !in s.ops && o in Apply(s, step).ops
    ensures step.Create? && step.h !in s.released && Apply(s, step).ops[o].handle == step.h
  {
    if step.DispatchEvents? {
      if Apply(s, step).fault.NoFault? { DispatchShape(s, step); } else { FaultChangesNothing(s, step); }
    } else if !Apply(s, step).fault.NoFault? {
      FaultChangesNothing(s, step);
    } else {
      StepChangesOneOp(s, step);
      if step.Create? { CreatedHandle(s, step.o, step.kind, step.h, step.result); }
    }
  }

  lemma CreatedHandle(s: State, o: OpId, kind: Kind, h: Handle, r: SysResult)
    ensures var s' := ApplyCreate(s, o, kind, h, r); o in s'.ops && s'.ops[o].handle == h
  {
  }

  /** A finished operation stays finished. */
  lemma FinishedStays(s: State, step: Step, o: OpId)
    requires Inv(s) && Enabled(s, step) && o in s.ops && o in Apply(s, step).ops && Finished(s.ops[o].phase)
    ensures Finished(Apply(s, step).ops[o].phase)
  {
    if step.DispatchEvents? {
      DispatchMoves(s, s.waiters[step.w].events, o);
      if Apply(s, step).fault.NoFault? { DispatchShape(s, step); } else { FaultChangesNothing(s, step); }
    } else if !Apply(s, step).fault.NoFault? {
      FaultChangesNothing(s, step);
    } else {
      StepChangesOneOp(s, step);
      if step.Pop? { PopsReady(s, step); }
    }
  }

  lemma {:induction false} HeldReachable(r: Run, k: nat)
    requires r.Valid() && k < |r.states|
    ensures HandlesHeld(r.states[k])
  {
    if k > 0 {
      HeldReachable(r, k - 1);
      Reachable(r, k - 1);
      assert r.StepAt(k - 1);
      HeldStep(r.states[k - 1], r.steps[k - 1]);
    }
  }

  /** While an operation waits on a descriptor, the socket pointer is its handle
      and the handle exists. */
  lemma WaitingIsSafe(r: Run, k: nat, o: OpId)
    requires r.Valid() && k < |r.states| && HasPhase(r.states[k], o, Queued)
    ensures PointsTo(r.states[k], r.states[k].ops[o].handle.fd, r.states[k].ops[o].handle)
    ensures r.states[k].ops[o].handle !in r.states[k].released
  {
    Reachable(r, k);
    HeldReachable(r, k);
    assert OpWired(r.states[k], r.states[k].ops[o]);
  }

  // --- Null and dangling pointers ---

  /** Nothing was queued on the descriptor before step `k`. */
  ghost predicate NeverQueued(r: Run, k: int, fd: int)
    requires r.Valid() && k <= |r.steps|
  {
    forall j :: 0 <= j < k ==> !QueuesAny(r.states[j], r.steps[j], fd)
  }

  ghost predicate HasSocket(s: State, fd: int) {
    0 <= fd < |s.mux.demux| && s.mux.demux[fd].socket.Some?
  }

  lemma HasSocketStep(s: State, step: Step, fd: int)
    requires Structured(s) && Enabled(s, step)
    ensures HasSocket(Apply(s, step), fd) <==> HasSocket(s, fd) || QueuesAny(s, step, fd)
  {
    if HasSocket(s, fd) { PointsToStep(s, step, fd, s.mux.demux[fd].socket.value); }
    if HasSocket(Apply(s, step), fd) { PointsToStep(s, step, fd, Apply(s, step).mux.demux[fd].socket.value); }
    if QueuesAny(s, step, fd) { PointsToStep(s, step, fd, s.ops[step.o].handle); }
  }

  lemma {:induction false} NullExactly(r: Run, k: nat, fd: int)
    requires r.Valid() && k < |r.states|
    ensures HasSocket(r.states[k], fd) <==> !NeverQueued(r, k, fd)
  {
    if k > 0 {
      NullExactly(r, k - 1, fd);
      StructuredAt(r, k - 1);
      assert r.StepAt(k - 1);
      HasSocketStep(r.states[k - 1], r.steps[k - 1], fd);
    }
  }

  /** The report that the dispatch at step `k` handles. */
  ghost predicate DispatchAt(r: Run, k: int, evs: seq<PollFd>)
    requires r.Valid()
  {
    0 <= k < |r.steps| && r.steps[k].DispatchEvents? && r.steps[k].w in r.states[k].waiters &&
    r.states[k].waiters[r.steps[k].w].Reported? && r.states[k].waiters[r.steps[k].w].events == evs
  }

  /** The report holds a failure of a descriptor on which nothing was queued yet. */
  ghost predicate FailsUnqueued(r: Run, k: int, evs: seq<PollFd>)
    requires r.Valid() && k <= |r.steps|
  {
    exists i :: 0 <= i < |evs| && Fatal(evs[i].revents) && NeverQueued(r, k, evs[i].fd)
  }

  /** In any run a dispatch goes through a null socket pointer if and only if it
      handles a failure of a descriptor on which nothing was queued yet. */
  lemma NullSocketExactly(r: Run, k: nat, evs: seq<PollFd>)
    requires r.Valid() && DispatchAt(r, k, evs)
    ensures r.states[k + 1].fault.NullSocket? <==> FailsUnqueued(r, k, evs)
  {
    assert r.StepAt(k);
    forall i | 0 <= i < |evs| ensures HasSocket(r.states[k], evs[i].fd) <==> !NeverQueued(r, k, evs[i].fd) {
      NullExactly(r, k, evs[i].fd);
    }
    assert r.states[k + 1].fault.NullSocket? <==> NullSocketHit(r.states[k].mux, evs);
  }

  /** The operation queued last on the descriptor held a handle that has been
      released by step `k`. */
  ghost predicate LastReleased(r: Run, k: int, fd: int)
    requires r.Valid() && k <= |r.steps|
  {
    exists j, m, h :: LastQueued(r, j, k, fd, h) && ReleasedAt(r, m, k, h)
  }

  ghost predicate ReleasedAt(r: Run, m: int, k: int, h: Handle)
    requires r.Valid() && k <= |r.steps|
  {
    0 <= m < k && r.steps[m] == Release(h)
  }

  lemma DanglingAt(r: Run, k: nat, fd: int)
    requires r.Valid() && k <= |r.steps|
    ensures LastReleased(r, k, fd) <==>
            HasSocket(r.states[k], fd) && r.states[k].mux.demux[fd].socket.value in r.states[k].released
  {
    if HasSocket(r.states[k], fd) {
      var h := r.states[k].mux.demux[fd].socket.value;
      SocketExactly(r, k, fd, h);
      ReleasedExactly(r, k, h);
      var j :| LastQueued(r, j, k, fd, h);
      if m :| 0 <= m < k && r.steps[m] == Release(h) { assert ReleasedAt(r, m, k, h); }
    }
    if j, m, h :| LastQueued(r, j, k, fd, h) && ReleasedAt(r, m, k, h) {
      SocketExactly(r, k, fd, h);
      ReleasedExactly(r, k, h);
    }
  }

  /** In any run a dispatch writes through a pointer to a destroyed handle if and
      only if it handles a failure of a descriptor whose last queued handle has
      been released, and no failure that reaches a null pointer. */
  lemma DanglingSocketExactly(r: Run, k: nat, evs: seq<PollFd>)
    requires r.Valid() && DispatchAt(r, k, evs)
    ensures r.states[k + 1].fault.DanglingSocket? <==>
            && !FailsUnqueued(r, k, evs)
            && exists i :: 0 <= i < |evs| && Fatal(evs[i].revents) && LastReleased(r, k, evs[i].fd)
  {
    assert r.StepAt(k);
    NullSocketExactly(r, k, evs);
    forall i | 0 <= i < |evs|
      ensures LastReleased(r, k, evs[i].fd) <==>
              HasSocket(r.states[k], evs[i].fd) && r.states[k].mux.demux[evs[i].fd].socket.value in r.states[k].released
    {
      DanglingAt(r, k, evs[i].fd);
    }
    assert DanglingSocketHit(r.states[k].mux, evs, r.states[k].released) <==>
           exists i :: 0 <= i < |evs| && Fatal(evs[i].revents) && LastReleased(r, k, evs[i].fd);
  }

  // --- Both do happen ---

  /** A wait on another thread sees a failure between the connect and the start
      of the first operation on a descriptor. */
  lemma NullSocketRun() returns (r: Run)
    ensures r.Valid() && r.Last().fault == NullSocket
  {
    r := ConnectThenSnapshot();
    var e, ev := PollFd(3, {In}, {}), PollFd(3, {In}, {Err});
    var revents := [{Err}];
    assert revents[0] != {};
    ReportOne(e, {Err});
    ThenValid(r, PollReturn(0, revents)); r := r.Then(PollReturn(0, revents));
    assert Err in ev.revents * {Err, Nval};
    assert [ev][0] == ev;
    assert NullSocketHit(r.Last().mux, [ev]);
    ThenValid(r, DispatchEvents(0, [0])); r := r.Then(DispatchEvents(0, [0]));
  }

  /** A snapshot of one entry, reported with a non-empty mask. */
  lemma ReportOne(e: PollFd, revents: set<Flag>)
    requires revents != {}
    ensures Reports(WithRevents([e], [revents])) == [e.(revents := revents)]
  {
    var ev := e.(revents := revents);
    assert WithRevents([e], [revents]) == [ev];
    assert [ev][1..] == [];
  }

  /** The one reader of the runs below. */
  function Reader(phase: Phase): Op {
    Op(Custom(On(Read)), Handle(0, 3), On(Read), Deferred, Some(3), phase)
  }

  /** A state of the run below: one entry with input interest on descriptor 3,
      the socket pointer set to the handle, the given readers waiting. */
  ghost predicate Scene(s: State, readers: seq<OpId>, phase: Phase) {
    && s.fault.NoFault? && s.errors == map[] && s.released == {}
    && s.ops == map[0 := Reader(phase)]
    && s.mux.list == [PollFd(3, {In}, {})] && |s.mux.demux| == 4
    && s.mux.demux[3] == Demux(readers, [], Some(Handle(0, 3)))
  }

  lemma SceneConnected() returns (r: Run)
    ensures r.Valid() && Sequential(r) && r.Last().mux == Mux(Grown([], 4), [PollFd(3, {In}, {})])
    ensures r.Last() == Init.(mux := r.Last().mux, ops := map[0 := Reader(Connected)])
    ensures r.steps != [] && r.steps[|r.steps| - 1] == AddInterest(0)
  {
    var create := Create(0, Custom(On(Read)), Handle(0, 3), Success(0));
    r := NoSteps;
    ThenSequential(r, create); r := r.Then(create);
    ThenSequential(r, ConnectCheck(0)); r := r.Then(ConnectCheck(0));
    ThenSequential(r, AddInterest(0)); r := r.Then(AddInterest(0));
  }

  lemma SceneStarted() returns (r: Run)
    ensures r.Valid() && Sequential(r) && r.Last().mux == Mux(Grown([], 4), [PollFd(3, {In}, {})])
    ensures r.Last() == Init.(mux := r.Last().mux, ops := map[0 := Reader(Enqueuing)])
    ensures r.steps != [] && r.steps[|r.steps| - 1] == StartCheck(0)
  {
    r := SceneConnected();
    ThenSequential(r, StartCheck(0)); r := r.Then(StartCheck(0));
  }

  lemma SceneQueued() returns (r: Run)
    ensures r.Valid() && Sequential(r) && Scene(r.Last(), [0], Queued) && r.Last().waiters == map[]
    ensures r.steps != [] && r.steps[|r.steps| - 1] == Push(0)
  {
    r := SceneStarted();
    assert SameHandle(r.Last(), Handle(0, 3));
    ThenSequential(r, Push(0)); r := r.Then(Push(0));
    assert r.Last().ops == map[0 := Reader(Queued)];
  }

  /** A blocking wait up to its report, with nothing else waiting. */
  lemma SceneReport(r: Run, revents: set<Flag>) returns (r': Run)
    requires r.Valid() && Sequential(r) && r.Last().fault.NoFault? && r.Last().waiters == map[] && revents != {}
    requires r.steps != [] && (r.steps[|r.steps| - 1].Push? || r.steps[|r.steps| - 1].Release?)
    requires r.Last().mux.list == [PollFd(3, {In}, {})]
    ensures r'.Valid() && Sequential(r')
    ensures r'.Last() == r.Last().(waiters := map[0 := Reported(-1, [PollFd(3, {In}, revents)])])
    ensures r'.steps != [] && r'.steps[|r'.steps| - 1] == PollReturn(0, [revents])
  {
    var e := PollFd(3, {In}, {});
    assert Active([e]) == [e] by { assert [e][1..] == []; }
    ThenSequential(r, Snapshot(0, -1));
    var r1 := r.Then(Snapshot(0, -1));
    assert r1.Last().waiters == map[0 := Polling(-1, [e])];
    assert [revents][0] != {};
    ReportOne(e, revents);
    ThenSequential(r1, PollReturn(0, [revents]));
    r' := r1.Then(PollReturn(0, [revents]));
  }

  /** The hang-up releases the reader and leaves the interest. */
  lemma SceneHangUp(s: State)
    requires Scene(s, [0], Queued) && s.waiters == map[0 := Reported(-1, [PollFd(3, {In}, {Hup})])]
    ensures Enabled(s, DispatchEvents(0, [0]))
    ensures var s' := Apply(s, DispatchEvents(0, [0]));
            Scene(s', [], Ready(0)) && s'.waiters == map[0 := Draining(-1, 1, [0], None)]
  {
    HangUpDispatch(s.mux, [0], s.released);
    HangUpStores(s.mux);
  }

  /** What the dispatch of the hang-up does to the shared state. */
  lemma HangUpDispatch(m: Mux<OpId, Handle>, readers: seq<OpId>, released: set<Handle>)
    requires m.list == [PollFd(3, {In}, {})] && |m.demux| == 4 && m.demux[3] == Demux(readers, [], Some(Handle(0, 3)))
    ensures var evs := [PollFd(3, {In}, {Hup})];
            && !NullSocketHit(m, evs) && !DanglingSocketHit(m, evs, released)
            && Dispatched(m, evs) == Mux(m.demux[3 := Demux([], [], Some(Handle(0, 3)))], m.list)
            && MadeReady(m, evs) == readers
  {
    var ev := PollFd(3, {In}, {Hup});
    assert [ev][..0] == [];
    assert Hup in ev.revents * {In, Hup, Err, Nval};
    assert Selects(ev.revents, Read) && !Selects(ev.revents, Write) && !Fatal(ev.revents);
    assert Dispatched(m, [ev]) == DispatchOne(m, ev);
    assert Cleared(m.list, ev) == m.list by { assert Remaining({In}, {Hup}) == {In}; }
  }

  lemma HangUpStores(m: Mux<OpId, Handle>)
    requires |m.demux| == 4
    ensures StoredErrors(m, map[], [PollFd(3, {In}, {Hup})], [0]) == map[]
  {
    var ev := PollFd(3, {In}, {Hup});
    assert [ev][..0] == [] && [0][..0] == [];
    assert !Fatal(ev.revents);
  }

  /** The reader leaves the ready queue and completes. */
  lemma SceneExecuted(r: Run) returns (r': Run)
    requires r.Valid() && Sequential(r) && Scene(r.Last(), [], Ready(0))
    requires r.Last().waiters == map[0 := Draining(-1, 1, [0], None)]
    requires r.steps != [] && r.steps[|r.steps| - 1].DispatchEvents? && r.steps[|r.steps| - 1].w == 0
    ensures r'.Valid() && Sequential(r') && Scene(r'.Last(), [], Done)
    ensures r'.Last().waiters == map[0 := Draining(-1, 1, [], Some(0))]
    ensures r'.steps != [] && r'.steps[|r'.steps| - 1] == Complete(0, Success(7))
  {
    ThenSequential(r, Pop(0)); r' := r.Then(Pop(0));
    assert [0][1..] == [];
    assert Scene(r'.Last(), [], Running) && r'.Last().waiters == map[0 := Draining(-1, 1, [], Some(0))];
    ThenSequential(r', Complete(0, Success(7))); r' := r'.Then(Complete(0, Success(7)));
  }

  /** The drain ends. */
  lemma SceneDrained(r: Run) returns (r': Run)
    requires r.Valid() && Sequential(r) && Scene(r.Last(), [], Done)
    requires r.Last().waiters == map[0 := Draining(-1, 1, [], Some(0))]
    requires r.steps != [] && r.steps[|r.steps| - 1] == Complete(0, Success(7))
    ensures r'.Valid() && Sequential(r') && Scene(r'.Last(), [], Done) && r'.Last().waiters == map[]
    ensures r'.steps != [] && r'.steps[|r'.steps| - 1] == Finish(0)
  {
    ThenSequential(r, Return(0)); r' := r.Then(Return(0));
    assert Scene(r'.Last(), [], Done) && r'.Last().waiters == map[0 := Draining(-1, 1, [], None)];
    ThenSequential(r', Finish(0)); r' := r'.Then(Finish(0));
  }

  /** The wait that the hang-up ends, from the queueing on. */
  lemma SceneHungUp(r: Run) returns (r': Run)
    requires r.Valid() && Sequential(r) && Scene(r.Last(), [0], Queued) && r.Last().waiters == map[]
    requires r.steps != [] && r.steps[|r.steps| - 1] == Push(0)
    ensures r'.Valid() && Sequential(r') && Scene(r'.Last(), [], Done) && r'.Last().waiters == map[]
    ensures r'.steps != [] && r'.steps[|r'.steps| - 1] == Finish(0)
  {
    r' := SceneReport(r, {Hup});
    SceneHangUp(r'.Last());
    ThenSequential(r', DispatchEvents(0, [0])); r' := r'.Then(DispatchEvents(0, [0]));
    r' := SceneExecuted(r');
    r' := SceneDrained(r');
  }

  /** On one thread: a hang-up releases a reader and leaves its interest, the
      reader completes, its handle is destroyed, and the next wait is told that
      the descriptor is invalid. */
  lemma DanglingSocketRun() returns (r: Run)
    ensures r.Valid() && Sequential(r) && r.Last().fault == DanglingSocket
  {
    r := SceneQueued();
    r := SceneHungUp(r);
    ThenSequential(r, Release(Handle(0, 3))); r := r.Then(Release(Handle(0, 3)));
    r := SceneReport(r, {Nval});
    SceneInvalid(r.Last());
    ThenSequential(r, DispatchEvents(0, [0])); r := r.Then(DispatchEvents(0, [0]));
  }

  lemma SceneInvalid(s: State)
    requires s.fault.NoFault? && |s.mux.demux| == 4 && s.mux.demux[3].socket == Some(Handle(0, 3)) &&
             Handle(0, 3) in s.released
    requires s.waiters == map[0 := Reported(-1, [PollFd(3, {In}, {Nval})])]
    ensures Enabled(s, DispatchEvents(0, [0])) && Apply(s, DispatchEvents(0, [0])).fault == DanglingSocket
  {
    var ev := PollFd(3, {In}, {Nval});
    assert Nval in ev.revents * {Err, Nval};
    assert [ev][0] == ev;
    assert DanglingSocketHit(s.mux, [ev], s.released);
  }
}
