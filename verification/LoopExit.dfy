/** Runs of one thread of control, in which a sender is started as soon as it is
    connected and a waiter is not interrupted by other code except the code its
    completions run. There the multiplexer never dereferences a null pointer,
    and a blocking wait that returns 0 has nothing left to wait for. */
module LoopExit {
  import opened Poll
  import opened InterestList
  import opened Demultiplexing
  import opened Protocol
  import opened Conservation
  import opened Wakeup

  /** What the thread does next, given the step it took and the state that step
      led to. Completions may create, connect, start and wait as they please. */
  predicate Follows(s: State, step: Step, next: Step) {
    match step
    case Create(o, _, _, _) => HasPhase(s, o, Attempted) ==> next == Classify(o)
    case ConnectCheck(o) => next == if HasPhase(s, o, Registering) then AddInterest(o) else StartCheck(o)
    case AddInterest(o) => HasPhase(s, o, Connected) ==> next == StartCheck(o)
    case StartCheck(o) => if HasPhase(s, o, Enqueuing) then next == Push(o) else next.Complete? && next.o == o
    case Snapshot(w, _) => (next.PollReturn? || next.PollThrow?) && next.w == w
    case PollReturn(w, _) => next.DispatchEvents? && next.w == w
    case DispatchEvents(w, _) => NextInDrain(s, w, next)
    case Pop(w) => next.Complete? && w in s.waiters && s.waiters[w].Draining? && s.waiters[w].current == Some(next.o)
    case Return(w) => NextInDrain(s, w, next)
    case _ => true
  }

  predicate NextInDrain(s: State, w: WaiterId, next: Step) {
    w in s.waiters && s.waiters[w].Draining? ==> next == if s.waiters[w].ready == [] then Finish(w) else Pop(w)
  }

  ghost predicate Sequential(r: Run)
    requires r.Valid()
  {
    forall i :: 0 <= i < |r.steps| - 1 ==> FollowsAt(r, i)
  }

  ghost predicate FollowsAt(r: Run, i: int)
    requires r.Valid()
  {
    0 <= i < |r.steps| - 1 && Follows(r.states[i + 1], r.steps[i], r.steps[i + 1])
  }

  /** A sequential run goes on with a step that follows its last one. */
  lemma ThenSequential(r: Run, step: Step)
    requires r.Valid() && Sequential(r) && Enabled(r.Last(), step)
    requires r.steps != [] ==> Follows(r.Last(), r.steps[|r.steps| - 1], step)
    ensures r.Then(step).Valid() && Sequential(r.Then(step))
    ensures r.Then(step).Last() == Apply(r.Last(), step)
    ensures r.states <= r.Then(step).states && r.Then(step).steps == r.steps + [step]
  {
    ThenValid(r, step);
    var r' := r.Then(step);
    forall i | 0 <= i < |r'.steps| - 1 ensures FollowsAt(r', i) {
      if i < |r.steps| - 1 { assert FollowsAt(r, i); }
    }
  }

  // --- Where control is, after the last step ---

  ghost predicate Covered(s: State, op: Op) {
    op.trigger.On? && op.demux.Some? && Interested(s.mux, op.handle.fd, op.trigger.d)
  }

  /** An operation between its connect and its queueing is the one the last step advanced. */
  ghost predicate OpControl(s: State, last: Option<Step>, o: OpId)
    requires o in s.ops
  {
    var op := s.ops[o];
    match op.phase
    case Registering => last == Some(ConnectCheck(o)) && !Failing(ErrorOf(s, op.handle))
    case Connected =>
      (last == Some(ConnectCheck(o)) && (op.trigger.Eager? || Failing(ErrorOf(s, op.handle)))) ||
      (last == Some(AddInterest(o)) && !Failing(ErrorOf(s, op.handle)) && Covered(s, op))
    case Enqueuing => last == Some(StartCheck(o)) && Covered(s, op)
    case Queued => Covered(s, op)
    case Running =>
      last == Some(StartCheck(o)) ||
      (last.Some? && last.value.Pop? && last.value.w in s.waiters && s.waiters[last.value.w].Draining? &&
       s.waiters[last.value.w].current == Some(o))
    case _ => true
  }

  /** A waiter that polls or has polled is where the last step left it. */
  ghost predicate WaiterControl(s: State, last: Option<Step>, w: WaiterId)
    requires w in s.waiters
  {
    match s.waiters[w]
    case Polling(t, _) => last == Some(Snapshot(w, t))
    case Reported(_, _) => last.Some? && last.value.PollReturn? && last.value.w == w
    case Draining(_, n, ready, current) =>
      n == 0 ==> ready == [] && current.None? && last.Some? && last.value.DispatchEvents? && last.value.w == w
  }

  ghost predicate Control(s: State, last: Option<Step>) {
    && (forall o :: o in s.ops ==> OpControl(s, last, o))
    && (forall w :: w in s.waiters ==> WaiterControl(s, last, w))
  }

  /** An operation in flight forces the next step. */
  lemma InFlightForces(s: State, last: Option<Step>, step: Step, o: OpId)
    requires o in s.ops && OpControl(s, last, o) && Enabled(s, step)
    requires last.Some? ==> Follows(s, last.value, step)
    requires s.ops[o].phase in {Registering, Connected, Enqueuing, Running}
    ensures step == AddInterest(o) || step == StartCheck(o) || step == Push(o) || (step.Complete? && step.o == o)
  {
  }

  lemma AddInterestControl(s: State, last: Option<Step>, o: OpId)
    requires Structured(s) && Enabled(s, AddInterest(o)) && OpControl(s, last, o)
    ensures OpControl(Apply(s, AddInterest(o)), Some(AddInterest(o)), o)
  {
    if s.ops[o].handle.fd >= 0 {
      InterestStep(s, AddInterest(o), s.ops[o].handle.fd, s.ops[o].trigger.d);
    }
  }

  lemma StartCheckControl(s: State, last: Option<Step>, o: OpId)
    requires Enabled(s, StartCheck(o)) && OpControl(s, last, o)
    ensures OpControl(Apply(s, StartCheck(o)), Some(StartCheck(o)), o)
  {
  }

  lemma PushControl(s: State, last: Option<Step>, o: OpId)
    requires Structured(s) && Enabled(s, Push(o)) && OpControl(s, last, o)
    ensures OpControl(Apply(s, Push(o)), Some(Push(o)), o)
  {
  }

  lemma EarlyControl(s: State, step: Step, o: OpId)
    requires Enabled(s, step) && OpOf(s, step) == Some(o) && (step.Create? || step.Classify? || step.ConnectCheck?)
    ensures var s' := Apply(s, step); o in s'.ops && OpControl(s', Some(step), o)
  {
    if step.Create? { CreatedControl(s, o, step.kind, step.h, step.result); }
  }

  lemma CreatedControl(s: State, o: OpId, kind: Kind, h: Handle, r: SysResult)
    ensures var s' := ApplyCreate(s, o, kind, h, r); o in s'.ops && OpControl(s', Some(Create(o, kind, h, r)), o)
  {
  }

  lemma LateControl(s: State, step: Step, o: OpId)
    requires Enabled(s, step) && OpOf(s, step) == Some(o) && (step.Pop? || step.Complete?) &&
             Apply(s, step).fault.NoFault?
    ensures var s' := Apply(s, step); o in s'.ops && OpControl(s', Some(step), o)
  {
    if step.Complete? { var out := CompleteSignals(s, o, step.result); }
  }

  /** The operation a step advances is where control says. */
  lemma AdvancedControl(s: State, last: Option<Step>, step: Step, o: OpId)
    requires Structured(s) && Enabled(s, step) && OpOf(s, step) == Some(o) && Apply(s, step).fault.NoFault?
    requires o in s.ops ==> OpControl(s, last, o)
    ensures var s' := Apply(s, step); o in s'.ops && OpControl(s', Some(step), o)
  {
    match step
    case AddInterest(_) => AddInterestControl(s, last, o);
    case StartCheck(_) => StartCheckControl(s, last, o);
    case Push(_) => PushControl(s, last, o);
    case Complete(_, _) => LateControl(s, step, o);
    case Pop(_) => LateControl(s, step, o);
    case _ => EarlyControl(s, step, o);
  }

  /** Every other operation stays covered or becomes ready. */
  lemma OtherControl(s: State, last: Option<Step>, step: Step, o: OpId)
    requires Inv(s) && Enabled(s, step) && OpOf(s, step) != Some(o) && Apply(s, step).fault.NoFault?
    requires o in s.ops && OpControl(s, last, o)
    requires last.Some? ==> Follows(s, last.value, step)
    ensures var s' := Apply(s, step); o in s'.ops && OpControl(s', Some(step), o)
  {
    if s.ops[o].phase in {Registering, Connected, Enqueuing, Running} {
      InFlightForces(s, last, step, o);
      assert false;
    } else {
      OthersKeepPhase(s, step, o);
      if HasPhase(Apply(s, step), o, Queued) { WaitingKeepsInterest(s, step, o); }
    }
  }

  /** A step leaves another operation as it is, or a dispatch makes it ready. */
  lemma OthersKeepPhase(s: State, step: Step, o: OpId)
    requires QueuesHold(s) && Structured(s) && Enabled(s, step) && OpOf(s, step) != Some(o) &&
             Apply(s, step).fault.NoFault? && o in s.ops
    ensures var s' := Apply(s, step);
            o in s'.ops && (s'.ops[o] == s.ops[o] || (s.ops[o].phase == Queued && s'.ops[o].phase.Ready?))
  {
    if step.DispatchEvents? {
      DispatchMoves(s, s.waiters[step.w].events, o);
    } else {
      StepChangesOneOp(s, step);
    }
  }

  lemma WaiterControlStep(s: State, last: Option<Step>, step: Step, w: WaiterId)
    requires Enabled(s, step) && Apply(s, step).fault.NoFault?
    requires w in s.waiters ==> WaiterControl(s, last, w)
    requires last.Some? ==> Follows(s, last.value, step)
    requires w in Apply(s, step).waiters
    ensures WaiterControl(Apply(s, step), Some(step), w)
  {
    if step.DispatchEvents? && step.w == w {
      DispatchShape(s, step);
    } else if (step.Snapshot? || step.PollReturn? || step.Pop? || step.Return?) && step.w == w {
      OwnControlStep(s, last, step, w);
    } else {
      OtherControlStep(s, last, step, w);
    }
  }

  lemma OwnControlStep(s: State, last: Option<Step>, step: Step, w: WaiterId)
    requires Enabled(s, step) && (step.Snapshot? || step.PollReturn? || step.Pop? || step.Return?) && step.w == w
    requires w in s.waiters ==> WaiterControl(s, last, w)
    requires w in Apply(s, step).waiters
    ensures WaiterControl(Apply(s, step), Some(step), w)
  {
  }

  /** A waiter between its steps is one whose completions run. */
  lemma OtherControlStep(s: State, last: Option<Step>, step: Step, w: WaiterId)
    requires Enabled(s, step) && w in Apply(s, step).waiters
    requires !((step.DispatchEvents? || step.Snapshot? || step.PollReturn? || step.Pop? || step.Return?) && step.w == w)
    requires w in s.waiters ==> WaiterControl(s, last, w)
    requires last.Some? ==> Follows(s, last.value, step)
    ensures WaiterControl(Apply(s, step), Some(step), w)
  {
    WaiterStays(s, step, w);
  }

  lemma WaiterStays(s: State, step: Step, w: WaiterId)
    requires Enabled(s, step) && w in Apply(s, step).waiters
    requires !((step.DispatchEvents? || step.Snapshot? || step.PollReturn? || step.Pop? || step.Return?) && step.w == w)
    ensures w in s.waiters && Apply(s, step).waiters[w] == s.waiters[w] &&
            !((step.PollThrow? || step.Finish?) && step.w == w)
  {
  }

  lemma ControlStep(s: State, last: Option<Step>, step: Step)
    requires Inv(s) && Control(s, last) && Enabled(s, step) && Apply(s, step).fault.NoFault?
    requires last.Some? ==> Follows(s, last.value, step)
    ensures Control(Apply(s, step), Some(step))
  {
    var s' := Apply(s, step);
    forall o | o in s'.ops ensures OpControl(s', Some(step), o) {
      if OpOf(s, step) == Some(o) {
        AdvancedControl(s, last, step, o);
      } else {
        OpsGrowOnly(s, step, o);
        OtherControl(s, last, step, o);
      }
    }
    forall w | w in s'.waiters ensures WaiterControl(s', Some(step), w) {
      WaiterControlStep(s, last, step, w);
    }
  }

  lemma OpsGrowOnly(s: State, step: Step, o: OpId)
    requires Enabled(s, step) && Apply(s, step).fault.NoFault? && OpOf(s, step) != Some(o) && o in Apply(s, step).ops
    ensures o in s.ops
  {
    if !step.DispatchEvents? { StepChangesOneOp(s, step); }
  }

  function LastStep(r: Run, k: nat): Option<Step>
    requires k <= |r.steps|
  {
    if k == 0 then None else Some(r.steps[k - 1])
  }

  /** Control holds at every state of a sequential run that has not faulted. */
  lemma {:induction false} ControlReachable(r: Run, k: nat)
    requires r.Valid() && Sequential(r) && k < |r.states| && r.states[k].fault.NoFault?
    ensures Control(r.states[k], LastStep(r, k))
  {
    if k > 0 {
      assert r.StepAt(k - 1);
      ControlReachable(r, k - 1);
      Reachable(r, k - 1);
      if k > 1 { assert FollowsAt(r, k - 2); }
      ControlStep(r.states[k - 1], LastStep(r, k - 1), r.steps[k - 1]);
    }
  }

  // --- Null pointers ---

  /** In a sequential run every queued operation was registered: `start` never
      goes through a null demultiplexer pointer. */
  lemma NoNullDemux(r: Run, k: nat)
    requires r.Valid() && Sequential(r) && k < |r.states|
    ensures !r.states[k].fault.NullDemux?
  {
    if k > 0 {
      assert r.StepAt(k - 1);
      var s, step := r.states[k - 1], r.steps[k - 1];
      ControlReachable(r, k - 1);
      if step.Push? { assert OpControl(s, LastStep(r, k - 1), step.o); }
    }
  }

  /** The socket pointer of a listed descriptor is set, unless its first
      operation is the one now being started. */
  ghost predicate SocketSet(s: State, last: Option<Step>, fd: int)
    requires 0 <= fd < |s.mux.demux|
  {
    s.mux.demux[fd].socket.Some? ||
    (last.Some? && (last.value.AddInterest? || last.value.StartCheck?) && last.value.o in s.ops &&
     s.ops[last.value.o].demux == Some(fd) && s.ops[last.value.o].phase in {Connected, Enqueuing})
  }

  ghost predicate AllSockets(s: State, last: Option<Step>, l: seq<PollFd>) {
    forall i :: 0 <= i < |l| ==> 0 <= l[i].fd < |s.mux.demux| && SocketSet(s, last, l[i].fd)
  }

  ghost predicate Sockets(s: State, last: Option<Step>) {
    && AllSockets(s, last, s.mux.list)
    && (forall w :: w in s.waiters && s.waiters[w].Polling? ==> AllSockets(s, None, s.waiters[w].snapshot))
    && (forall w :: w in s.waiters && s.waiters[w].Reported? ==> AllSockets(s, None, s.waiters[w].events))
  }

  /** Socket pointers, once set, stay set. */
  lemma SocketsStay(s: State, step: Step, fd: int)
    requires Structured(s) && Enabled(s, step) && 0 <= fd < |s.mux.demux| && s.mux.demux[fd].socket.Some?
    ensures fd < |Apply(s, step).mux.demux| && Apply(s, step).mux.demux[fd].socket.Some?
  {
    if step.DispatchEvents? {
      DispatchQueues(s.mux, s.waiters[step.w].events, 0, Read);
    } else if !step.Push? {
      SocketsFrame(s, step);
    }
  }

  lemma SocketSetStep(s: State, last: Option<Step>, step: Step, fd: int)
    requires Structured(s) && Control(s, last) && Enabled(s, step) && Apply(s, step).fault.NoFault?
    requires last.Some? ==> Follows(s, last.value, step)
    requires 0 <= fd < |s.mux.demux| && SocketSet(s, last, fd)
    ensures fd < |Apply(s, step).mux.demux| && SocketSet(Apply(s, step), Some(step), fd)
  {
    if s.mux.demux[fd].socket.Some? {
      SocketsStay(s, step, fd);
    } else {
      var o := last.value.o;
      assert OpControl(s, last, o);
      InFlightForces(s, last, step, o);
      assert step == StartCheck(o) || step == Push(o);
    }
  }

  lemma ListSocketsStep(s: State, last: Option<Step>, step: Step)
    requires Structured(s) && Control(s, last) && AllSockets(s, last, s.mux.list)
    requires Enabled(s, step) && Apply(s, step).fault.NoFault?
    requires last.Some? ==> Follows(s, last.value, step)
    ensures AllSockets(Apply(s, step), Some(step), Apply(s, step).mux.list)
  {
    var s' := Apply(s, step);
    StructuredStep(s, step);
    forall i | 0 <= i < |s'.mux.list| ensures SocketSet(s', Some(step), s'.mux.list[i].fd) {
      var fd := s'.mux.list[i].fd;
      ListedBefore(s, step, i);
      if j :| 0 <= j < |s.mux.list| && s.mux.list[j].fd == fd {
        SocketSetStep(s, last, step, fd);
      }
    }
  }

  /** A descriptor enters the interest list only by its own registration. */
  lemma ListedBefore(s: State, step: Step, i: nat)
    requires Structured(s) && Enabled(s, step) && i < |Apply(s, step).mux.list|
    ensures var fd := Apply(s, step).mux.list[i].fd;
            (step.AddInterest? && s.ops[step.o].handle.fd == fd >= 0) ||
            exists j :: 0 <= j < |s.mux.list| && s.mux.list[j].fd == fd
  {
    var l := Apply(s, step).mux.list;
    match step
    case AddInterest(o) =>
      if s.ops[o].handle.fd >= 0 {
        UpsertSorted(s.mux.list, PollFd(s.ops[o].handle.fd, {DirFlag(s.ops[o].trigger.d)}, {}));
        assert l[i] in l;
      }
    case DispatchEvents(w, _) => DispatchListed(s.mux, s.waiters[w].events);
    case Push(_) =>
    case _ => MuxFrame(s, step);
  }

  lemma {:induction false} DispatchListed(m: Mux<OpId, Handle>, evs: seq<PollFd>)
    requires Indexed(m.list, |m.demux|) && InTable(m, evs)
    ensures var l := Dispatched(m, evs).list;
            |l| == |m.list| && forall i :: 0 <= i < |l| ==> l[i].fd == m.list[i].fd
    decreases |evs|
  {
    if evs != [] {
      var n := |evs| - 1;
      DispatchListed(m, evs[..n]);
      DispatchInterest(m, evs[..n], 0, Read);
      ClearedView(Dispatched(m, evs[..n]).list, evs[n]);
    }
  }

  lemma AllSocketsStay(s: State, step: Step, l: seq<PollFd>)
    requires Structured(s) && Enabled(s, step) && AllSockets(s, None, l)
    ensures AllSockets(Apply(s, step), None, l)
  {
    forall i | 0 <= i < |l|
      ensures 0 <= l[i].fd < |Apply(s, step).mux.demux| && SocketSet(Apply(s, step), None, l[i].fd)
    {
      SocketsStay(s, step, l[i].fd);
    }
  }

  lemma SnapshotSockets(s: State, last: Option<Step>, step: Step)
    requires Control(s, last) && AllSockets(s, last, s.mux.list) && Enabled(s, step) && step.Snapshot?
    requires last.Some? ==> Follows(s, last.value, step)
    ensures AllSockets(s, None, Active(s.mux.list))
  {
    var l := Active(s.mux.list);
    forall i | 0 <= i < |l| ensures 0 <= l[i].fd < |s.mux.demux| && SocketSet(s, None, l[i].fd) {
      ActiveMembers(s.mux.list, l[i]);
      var j :| 0 <= j < |s.mux.list| && s.mux.list[j] == l[i];
      SnapshotNotInFlight(s, last, step, l[i].fd);
    }
  }

  lemma ReportedSockets(s: State, l: seq<PollFd>, revents: seq<set<Flag>>)
    requires |l| == |revents| && AllSockets(s, None, l)
    ensures AllSockets(s, None, Reports(WithRevents(l, revents)))
  {
  }

  lemma WaiterSocketsStep(s: State, last: Option<Step>, step: Step, w: WaiterId)
    requires Structured(s) && Control(s, last) && Sockets(s, last) && Enabled(s, step) && Apply(s, step).fault.NoFault?
    requires last.Some? ==> Follows(s, last.value, step)
    requires w in Apply(s, step).waiters
    ensures var x := Apply(s, step).waiters[w];
            && (x.Polling? ==> AllSockets(Apply(s, step), None, x.snapshot))
            && (x.Reported? ==> AllSockets(Apply(s, step), None, x.events))
  {
    if step.Snapshot? && step.w == w {
      SnapshotSockets(s, last, step);
      AllSocketsStay(s, step, Active(s.mux.list));
    } else if step.PollReturn? && step.w == w {
      ReportedSockets(s, s.waiters[w].snapshot, step.revents);
      AllSocketsStay(s, step, Reports(WithRevents(s.waiters[w].snapshot, step.revents)));
    } else {
      WaiterUntouched(s, step, w);
      if s.waiters[w].Polling? { AllSocketsStay(s, step, s.waiters[w].snapshot); }
      if s.waiters[w].Reported? { AllSocketsStay(s, step, s.waiters[w].events); }
    }
  }

  lemma WaiterUntouched(s: State, step: Step, w: WaiterId)
    requires Enabled(s, step) && w in Apply(s, step).waiters
    requires !((step.Snapshot? || step.PollReturn?) && step.w == w)
    ensures w in s.waiters && (Apply(s, step).waiters[w] == s.waiters[w] || Apply(s, step).waiters[w].Draining?)
  {
  }

  lemma SnapshotNotInFlight(s: State, last: Option<Step>, step: Step, fd: int)
    requires Control(s, last) && Enabled(s, step) && step.Snapshot? && 0 <= fd < |s.mux.demux| && SocketSet(s, last, fd)
    requires last.Some? ==> Follows(s, last.value, step)
    ensures s.mux.demux[fd].socket.Some?
  {
  }

  lemma {:induction false} SocketsReachable(r: Run, k: nat)
    requires r.Valid() && Sequential(r) && k < |r.states| && r.states[k].fault.NoFault?
    ensures Sockets(r.states[k], LastStep(r, k))
  {
    if k > 0 {
      assert r.StepAt(k - 1);
      var s, last, step := r.states[k - 1], LastStep(r, k - 1), r.steps[k - 1];
      SocketsReachable(r, k - 1);
      ControlReachable(r, k - 1);
      Reachable(r, k - 1);
      if k > 1 { assert FollowsAt(r, k - 2); }
      ListSocketsStep(s, last, step);
      forall w | w in r.states[k].waiters
        ensures var x := r.states[k].waiters[w];
                && (x.Polling? ==> AllSockets(r.states[k], None, x.snapshot))
                && (x.Reported? ==> AllSockets(r.states[k], None, x.events))
      {
        WaiterSocketsStep(s, last, step, w);
      }
    }
  }

  /** In a sequential run a dispatch never stores an error through a null
      socket pointer, whatever the kernel reports. */
  lemma NoNullSocket(r: Run, k: nat)
    requires r.Valid() && Sequential(r) && k < |r.states|
    ensures !r.states[k].fault.NullSocket?
  {
    if k > 0 {
      assert r.StepAt(k - 1);
      var s, step := r.states[k - 1], r.steps[k - 1];
      SocketsReachable(r, k - 1);
      if step.DispatchEvents? {
        assert AllSockets(s, None, s.waiters[step.w].events);
        assert !NullSocketHit(s.mux, s.waiters[step.w].events);
      } else {
        NullByDispatch(s, step);
      }
    }
  }

  lemma NullByDispatch(s: State, step: Step)
    requires Enabled(s, step) && !step.DispatchEvents?
    ensures !Apply(s, step).fault.NullSocket?
  {
  }

  // --- Loop exit ---

  lemma {:induction false} NothingReported(l: seq<PollFd>, i: nat)
    requires Reports(l) == [] && i < |l|
    ensures l[i].revents == {}
  {
    ReportsMembers(l, l[i]);
  }

  /** A blocking wait that reports nothing had nothing to poll for: the three
      steps before its return left the shared state without any interest. */
  lemma ZeroMeansNoInterest(r: Run, k: nat, w: WaiterId, fd: int, d: Direction)
    requires r.Valid() && Sequential(r) && k < |r.steps| && r.steps[k] == Finish(w)
    requires w in r.states[k].waiters && r.states[k].waiters[w].Draining?
    requires r.states[k].waiters[w].count == 0 && r.states[k].waiters[w].timeout < 0
    ensures !Interested(r.states[k].mux, fd, d)
  {
    assert r.StepAt(k);
    ControlReachable(r, k);
    assert WaiterControl(r.states[k], LastStep(r, k), w);
    assert r.StepAt(k - 1);
    var s1 := r.states[k - 1];
    assert s1.waiters[w].Reported? && s1.waiters[w].events == [] && s1.waiters[w].timeout < 0;
    assert r.states[k].mux == s1.mux;
    ReportedFromPoll(r, k - 1, w);
    var s2 := r.states[k - 2];
    PollingFromSnapshot(r, k - 2, w);
    var s3 := r.states[k - 3];
    Reachable(r, k - 3);
    ActiveEmpty(s3.mux.list);
    assert Bits(s3.mux.list, fd) == {};
  }

  lemma ReportedFromPoll(r: Run, k: nat, w: WaiterId)
    requires r.Valid() && Sequential(r) && k < |r.steps| && r.states[k].fault.NoFault?
    requires w in r.states[k].waiters && r.states[k].waiters[w].Reported?
    requires r.states[k].waiters[w].events == [] && r.states[k].waiters[w].timeout < 0
    ensures k > 0 && r.states[k].mux == r.states[k - 1].mux && r.states[k - 1].fault.NoFault?
    ensures w in r.states[k - 1].waiters && r.states[k - 1].waiters[w].Polling? &&
            r.states[k - 1].waiters[w].snapshot == []
  {
    ControlReachable(r, k);
    assert WaiterControl(r.states[k], LastStep(r, k), w);
    assert r.StepAt(k - 1);
    var x, revents := r.states[k - 1].waiters[w], r.steps[k - 1].revents;
    if x.snapshot != [] {
      var i :| 0 <= i < |revents| && revents[i] != {};
      NothingReported(WithRevents(x.snapshot, revents), i);
    }
  }

  lemma PollingFromSnapshot(r: Run, k: nat, w: WaiterId)
    requires r.Valid() && Sequential(r) && k < |r.steps| && r.states[k].fault.NoFault?
    requires w in r.states[k].waiters && r.states[k].waiters[w].Polling?
    ensures k > 0 && r.states[k].mux == r.states[k - 1].mux
    ensures r.states[k].waiters[w].snapshot == Active(r.states[k - 1].mux.list)
  {
    ControlReachable(r, k);
    assert WaiterControl(r.states[k], LastStep(r, k), w);
    assert r.StepAt(k - 1);
  }

  /** The loop `while (wait());`: when a blocking wait that is not nested in a
      completion returns 0, every queue is empty and every operation ever
      started has signalled its receiver, exactly once. */
  lemma LoopExitComplete(r: Run, k: nat, w: WaiterId)
    requires r.Valid() && Sequential(r) && k < |r.steps| && r.steps[k] == Finish(w)
    requires r.states[k].waiters.Keys == {w} && r.states[k].waiters[w].Draining?
    requires r.states[k].waiters[w].count == 0 && r.states[k].waiters[w].timeout < 0
    ensures forall fd, d :: Q(r.states[k].mux, fd, d) == []
    ensures forall i :: 0 <= i < k && r.steps[i].StartCheck? ==>
              HasPhase(r.states[k], r.steps[i].o, Done) && SignalCount(r.states[k].signals, r.steps[i].o) == 1
  {
    var s := r.states[k];
    assert r.StepAt(k);
    Reachable(r, k);
    ControlReachable(r, k);
    assert WaiterControl(s, LastStep(r, k), w);
    forall o ensures !HasPhase(s, o, Queued) {
      if HasPhase(s, o, Queued) {
        assert OpControl(s, LastStep(r, k), o);
        ZeroMeansNoInterest(r, k, w, s.ops[o].handle.fd, s.ops[o].trigger.d);
      }
    }
    forall fd, d ensures Q(s.mux, fd, d) == [] {
      if Q(s.mux, fd, d) != [] { FrontIsQueued(s, fd, d); }
    }
    forall i | 0 <= i < k && r.steps[i].StartCheck?
      ensures HasPhase(s, r.steps[i].o, Done) && SignalCount(s.signals, r.steps[i].o) == 1
    {
      var o := r.steps[i].o;
      StartedFrom(r, i, k, o);
      assert OpControl(s, LastStep(r, k), o);
      ReadyNeedsWaiter(s, o, w);
      ExactlyOnce(r, k, o);
      assert HasPhase(s, o, Done) && Signalled(s, o);
      assert At(s, o, Completed);
    }
  }

  lemma FrontIsQueued(s: State, fd: int, d: Direction)
    requires QueuesHold(s) && Q(s.mux, fd, d) != []
    ensures HasPhase(s, Q(s.mux, fd, d)[0], Queued)
  {
  }

  lemma ReadyNeedsWaiter(s: State, o: OpId, w: WaiterId)
    requires WaitersHold(s) && s.waiters.Keys == {w} && s.waiters[w].Draining? && s.waiters[w].ready == []
    ensures o in s.ops ==> !s.ops[o].phase.Ready?
  {
  }
}
