/** Errors stored on handles: what they decide for an operation, who reads them,
    and what happens when they change under an operation. */
module Errors {
  import opened Poll
  import opened InterestList
  import opened Demultiplexing
  import opened Protocol
  import opened Conservation
  import opened Wakeup
  import opened LoopExit
  import Effects

  /** The step stores an error on the handle. */
  ghost predicate Stores(s: State, step: Step, h: Handle) {
    match step
    case Create(_, kind, h', r) =>
      h' == h && ((Attempts(kind, s.counter) && r.Failure?) || DialFails(kind, r))
    case DispatchEvents(w, _) =>
      w in s.waiters && s.waiters[w].Reported? && StoresOn(s.mux, s.waiters[w].events, h)
    case SetError(h', _) => h' == h
    case _ => false
  }

  ghost predicate StoresOn(m: Mux<OpId, Handle>, evs: seq<PollFd>, h: Handle) {
    exists i :: 0 <= i < |evs| && Fatal(evs[i].revents) && 0 <= evs[i].fd < |m.demux| &&
      m.demux[evs[i].fd].socket == Some(h)
  }

  lemma {:induction false} StoredElsewhere(m: Mux<OpId, Handle>, errors: map<Handle, int>, evs: seq<PollFd>,
                                           so: seq<int>, h: Handle)
    requires |evs| == |so| && forall i :: 0 <= i < |evs| ==> 0 <= evs[i].fd < |m.demux|
    requires forall i :: 0 <= i < |evs| && Fatal(evs[i].revents) ==> m.demux[evs[i].fd].socket != Some(h)
    ensures var errors' := StoredErrors(m, errors, evs, so);
            (h in errors' <==> h in errors) && (h in errors ==> errors'[h] == errors[h])
    decreases |evs|
  {
    if evs != [] {
      var n := |evs| - 1;
      StoredElsewhere(m, errors, evs[..n], so[..n], h);
    }
  }

  lemma ErrorStays(s: State, step: Step, h: Handle)
    requires Enabled(s, step) && !Stores(s, step, h)
    ensures ErrorOf(Apply(s, step), h) == ErrorOf(s, h)
  {
    match step
    case DispatchEvents(w, so) => DispatchStays(s, w, so, h);
    case Create(o, kind, h', r) => CreateStays(s, o, kind, h', r, h);
    case Complete(o, r) => CompleteStays(s, o, r);
    case _ =>
  }

  lemma DispatchStays(s: State, w: WaiterId, so: seq<int>, h: Handle)
    requires Enabled(s, DispatchEvents(w, so)) && !Stores(s, DispatchEvents(w, so), h)
    ensures ErrorOf(Apply(s, DispatchEvents(w, so)), h) == ErrorOf(s, h)
  {
    StoredElsewhere(s.mux, s.errors, s.waiters[w].events, so, h);
  }

  lemma CreateStays(s: State, o: OpId, kind: Kind, h': Handle, r: SysResult, h: Handle)
    requires Enabled(s, Create(o, kind, h', r)) && !Stores(s, Create(o, kind, h', r), h)
    ensures ErrorOf(ApplyCreate(s, o, kind, h', r), h) == ErrorOf(s, h)
  {
  }

  lemma CompleteStays(s: State, o: OpId, r: SysResult)
    requires Enabled(s, Complete(o, r))
    ensures ApplyComplete(s, o, r).errors == s.errors
  {
  }

  ghost predicate NoStores(r: Run, i: int, k: int, h: Handle)
    requires r.Valid() && 0 <= i <= k <= |r.steps|
  {
    forall m :: i <= m < k ==> !Stores(r.states[m], r.steps[m], h)
  }

  lemma {:induction false} ErrorStaysFrom(r: Run, i: nat, k: nat, h: Handle)
    requires r.Valid() && i <= k < |r.states| && NoStores(r, i, k, h)
    ensures ErrorOf(r.states[k], h) == ErrorOf(r.states[i], h)
    decreases k
  {
    if i < k {
      ErrorStaysFrom(r, i, k - 1, h);
      assert r.StepAt(k - 1);
      ErrorStays(r.states[k - 1], r.steps[k - 1], h);
    }
  }

  // --- Registration follows the error that connect reads ---

  /** The operation was not registered, and no longer can be. */
  ghost predicate Unregistered(s: State, o: OpId) {
    o in s.ops && s.ops[o].demux.None? && Rank(s.ops[o].phase) >= 3
  }

  /** The operation is being registered, is registered, or its connect threw. */
  ghost predicate Registered(s: State, o: OpId) {
    o in s.ops && (s.ops[o].demux.Some? || s.ops[o].phase == Registering || s.ops[o].phase == Thrown)
  }

  lemma RegistrationStays(s: State, step: Step, o: OpId)
    requires Inv(s) && Enabled(s, step)
    ensures Unregistered(s, o) ==> Unregistered(Apply(s, step), o)
    ensures Registered(s, o) ==> Registered(Apply(s, step), o)
  {
    if o in s.ops {
      LaterStep(s, step, o);
      if step.DispatchEvents? {
        DispatchMoves(s, s.waiters[step.w].events, o);
        RegistrationDispatch(s, step, o);
      } else if OpOf(s, step) == Some(o) {
        if step.Pop? { PopsReady(s, step); }
        RegistrationOwn(s, step, o);
      } else {
        OthersKeepOp(s, step, o);
      }
    }
  }

  lemma RegistrationOwn(s: State, step: Step, o: OpId)
    requires Enabled(s, step) && o in s.ops && OpOf(s, step) == Some(o) && !step.Create?
    requires step.Pop? ==> HasPhase(s, o, Ready(step.w))
    requires o in Apply(s, step).ops && Later(s.ops[o], Apply(s, step).ops[o])
    requires OpWired(s, s.ops[o])
    ensures Unregistered(s, o) ==> Unregistered(Apply(s, step), o)
    ensures Registered(s, o) ==> Registered(Apply(s, step), o)
  {
    DemuxChange(s, step, o);
  }

  lemma OthersKeepOp(s: State, step: Step, o: OpId)
    requires Enabled(s, step) && o in s.ops && OpOf(s, step) != Some(o) && !step.DispatchEvents?
    ensures o in Apply(s, step).ops && Apply(s, step).ops[o] == s.ops[o]
  {
    if Apply(s, step).fault.NoFault? { StepChangesOneOp(s, step); } else { FaultChangesNothing(s, step); }
  }

  lemma RegistrationDispatch(s: State, step: Step, o: OpId)
    requires Enabled(s, step) && step.DispatchEvents? && o in s.ops
    requires o in MadeReady(s.mux, s.waiters[step.w].events) ==> HasPhase(s, o, Queued)
    ensures o in Apply(s, step).ops && Apply(s, step).ops[o].demux == s.ops[o].demux
    ensures s.ops[o].phase == Registering || s.ops[o].phase == Thrown ==> Apply(s, step).ops[o] == s.ops[o]
  {
  }

  lemma DemuxChange(s: State, step: Step, o: OpId)
    requires Enabled(s, step) && o in s.ops && OpOf(s, step) == Some(o) && !step.Create?
    ensures o in Apply(s, step).ops
    ensures !step.AddInterest? ==> Apply(s, step).ops[o].demux == s.ops[o].demux
    ensures step.AddInterest? ==> s.ops[o].phase == Registering && Registered(Apply(s, step), o)
    ensures s.ops[o].phase == Registering ==> step.AddInterest? || step.Pop?
    ensures s.ops[o].phase == Thrown ==> step.Pop?
  {
    if step.Push? || step.Pop? || step.Complete? { LateDemux(s, step, o); }
  }

  lemma LateDemux(s: State, step: Step, o: OpId)
    requires Enabled(s, step) && o in s.ops && OpOf(s, step) == Some(o) && (step.Push? || step.Pop? || step.Complete?)
    ensures o in Apply(s, step).ops && Apply(s, step).ops[o].demux == s.ops[o].demux
  {
  }

  lemma {:induction false} RegistrationFrom(r: Run, i: nat, k: nat, o: OpId)
    requires r.Valid() && i <= k < |r.states|
    ensures Unregistered(r.states[i], o) ==> Unregistered(r.states[k], o)
    ensures Registered(r.states[i], o) ==> Registered(r.states[k], o)
    decreases k
  {
    if i < k {
      RegistrationFrom(r, i, k - 1, o);
      assert r.StepAt(k - 1);
      Reachable(r, k - 1);
      RegistrationStays(r.states[k - 1], r.steps[k - 1], o);
    }
  }

  lemma ConnectDecides(r: Run, i: nat, k: nat, o: OpId)
    requires r.Valid() && i < k < |r.states| && r.steps[i] == ConnectCheck(o)
    ensures o in r.states[i].ops && o in r.states[k].ops
    ensures var op := r.states[k].ops[o];
            && op.handle == r.states[i].ops[o].handle
            && op.trigger == r.states[i].ops[o].trigger
            && (if op.trigger.On? && !Failing(ErrorOf(r.states[i], op.handle))
                then Registered(r.states[k], o) else Unregistered(r.states[k], o))
  {
    assert r.StepAt(i);
    Reachable(r, i);
    assert OpWired(r.states[i], r.states[i].ops[o]);
    LaterRun(r, i, k, o);
    RegistrationFrom(r, i + 1, k, o);
  }

  /** When no error is stored on its handle between the two reads, `start`
      queues an operation exactly when `connect` registered it, and then the
      demultiplexer pointer is the one of its own descriptor. */
  lemma ErrorCoherence(r: Run, i: nat, j: nat, o: OpId)
    requires r.Valid() && i < j < |r.steps| && r.steps[i] == ConnectCheck(o) && r.steps[j] == StartCheck(o)
    requires o in r.states[i].ops && NoStores(r, i, j, r.states[i].ops[o].handle)
    ensures o in r.states[i + 1].ops && o in r.states[j + 1].ops
    ensures HasPhase(r.states[i + 1], o, Registering) <==> HasPhase(r.states[j + 1], o, Enqueuing)
    ensures HasPhase(r.states[j + 1], o, Enqueuing) <==>
            r.states[j + 1].ops[o].demux == Some(r.states[i].ops[o].handle.fd)
  {
    var h := r.states[i].ops[o].handle;
    assert r.StepAt(i) && r.StepAt(j);
    ErrorStaysFrom(r, i, j, h);
    ConnectDecides(r, i, j, o);
    Reachable(r, j);
    assert OpWired(r.states[j], r.states[j].ops[o]);
  }

  /** Without that hypothesis: queueing an operation goes through a null
      demultiplexer pointer if and only if the error its connect read was failing. */
  lemma NullDemuxExactly(r: Run, i: nat, k: nat, o: OpId)
    requires r.Valid() && i < k < |r.steps| && r.steps[i] == ConnectCheck(o) && r.steps[k] == Push(o)
    ensures o in r.states[i].ops
    ensures r.states[k + 1].fault == NullDemux(o) <==> Failing(ErrorOf(r.states[i], r.states[i].ops[o].handle))
  {
    assert r.StepAt(k);
    ConnectDecides(r, i, k, o);
  }

  /** It does happen: an error seen by connect and cleared before start. */
  lemma NullDemuxRun() returns (r: Run)
    ensures r.Valid() && r.Last().fault == NullDemux(0)
  {
    var h := Handle(0, 3);
    r := NoSteps;
    ThenValid(r, SetError(h, 104)); r := r.Then(SetError(h, 104));
    ThenValid(r, Create(0, Custom(On(Read)), h, Success(0))); r := r.Then(Create(0, Custom(On(Read)), h, Success(0)));
    ThenValid(r, ConnectCheck(0)); r := r.Then(ConnectCheck(0));
    ThenValid(r, SetError(h, 0)); r := r.Then(SetError(h, 0));
    ThenValid(r, StartCheck(0)); r := r.Then(StartCheck(0));
    assert SameHandle(r.Last(), h);
    ThenValid(r, Push(0)); r := r.Then(Push(0));
  }

  // --- The empty functor ---

  /** An operation gets an empty functor only from a failed attempt whose error
      reads back as failing. */
  lemma EmptyFromClassify(r: Run, i: nat, k: nat, o: OpId)
    requires r.Valid() && i < k < |r.states| && r.steps[i] == Classify(o)
    ensures o in r.states[i].ops && o in r.states[k].ops && r.states[k].ops[o].handle == r.states[i].ops[o].handle
    ensures r.states[k].ops[o].func == Empty <==> Failing(ErrorOf(r.states[i], r.states[i].ops[o].handle))
  {
    assert r.StepAt(i);
    Effects.EffectsReachable(r, i);
    LaterRun(r, i, i + 1, o);
    LaterRun(r, i + 1, k, o);
  }

  /** When no error is stored on the handle after the failed attempt was
      classified, the empty functor is never invoked. */
  lemma EmptyNeverInvoked(r: Run, i: nat, k: nat, o: OpId)
    requires r.Valid() && i < k < |r.steps| && r.steps[i] == Classify(o)
    requires o in r.states[i].ops
    requires NoStores(r, i, k, r.states[i].ops[o].handle)
    ensures r.states[k + 1].fault != EmptyFunctor(o)
  {
    var h := r.states[i].ops[o].handle;
    assert r.StepAt(k);
    EmptyFromClassify(r, i, k, o);
    ErrorStaysFrom(r, i, k, h);
  }

  /** A functor becomes empty only by classifying a failed attempt. */
  lemma EmptyStep(s: State, step: Step, o: OpId)
    requires Enabled(s, step) && o in Apply(s, step).ops && Apply(s, step).ops[o].func == Empty
    ensures (o in s.ops && s.ops[o].func == Empty) || step == Classify(o)
  {
    if step.DispatchEvents? && Apply(s, step).fault.NoFault? {
      DispatchShape(s, step);
    } else if !Apply(s, step).fault.NoFault? {
      FaultChangesNothing(s, step);
    } else {
      StepChangesOneOp(s, step);
      if OpOf(s, step) == Some(o) { EmptyOwnStep(s, step, o); }
    }
  }

  lemma EmptyOwnStep(s: State, step: Step, o: OpId)
    requires Enabled(s, step) && OpOf(s, step) == Some(o) && o in Apply(s, step).ops &&
             Apply(s, step).ops[o].func == Empty
    ensures (o in s.ops && s.ops[o].func == Empty) || step == Classify(o)
  {
    if step.Create? {
      CreatedNotEmpty(s, o, step.kind, step.h, step.result);
    } else if step.Complete? || step.Pop? || step.Push? {
      LateKeepsFunc(s, step, o);
    }
  }

  lemma CreatedNotEmpty(s: State, o: OpId, kind: Kind, h: Handle, r: SysResult)
    ensures var s' := ApplyCreate(s, o, kind, h, r); o in s'.ops && s'.ops[o].func != Empty
  {
  }

  lemma LateKeepsFunc(s: State, step: Step, o: OpId)
    requires Enabled(s, step) && OpOf(s, step) == Some(o) && (step.Complete? || step.Pop? || step.Push?)
    ensures o in s.ops && o in Apply(s, step).ops && Apply(s, step).ops[o].func == s.ops[o].func
  {
  }

  lemma {:induction false} EmptyOnlyFromClassify(r: Run, k: nat, o: OpId) returns (i: nat)
    requires r.Valid() && k < |r.states| && o in r.states[k].ops && r.states[k].ops[o].func == Empty
    ensures i < k && r.steps[i] == Classify(o)
  {
    assert k > 0;
    assert r.StepAt(k - 1);
    EmptyStep(r.states[k - 1], r.steps[k - 1], o);
    if r.steps[k - 1] == Classify(o) { i := k - 1; } else { i := EmptyOnlyFromClassify(r, k - 1, o); }
  }

  /** The operation was classified at step `i` with a failing error, and the
      error its handle carries at step `k` is not failing any more. */
  ghost predicate Overwritten(r: Run, i: int, k: int, o: OpId)
    requires r.Valid() && k < |r.states|
  {
    && 0 <= i < k && r.steps[i] == Classify(o) && o in r.states[i].ops
    && Failing(ErrorOf(r.states[i], r.states[i].ops[o].handle))
    && !Failing(ErrorOf(r.states[k], r.states[i].ops[o].handle))
  }

  /** In any run, a completion invokes an empty functor if and only if the error
      that emptied it was overwritten since by one that is not failing. */
  lemma EmptyInvokedExactly(r: Run, k: nat, o: OpId)
    requires r.Valid() && k < |r.steps| && r.steps[k].Complete? && r.steps[k].o == o
    ensures r.states[k + 1].fault == EmptyFunctor(o) <==> exists i :: Overwritten(r, i, k, o)
  {
    assert r.StepAt(k);
    if r.states[k].ops[o].func == Empty {
      var i := EmptyOnlyFromClassify(r, k, o);
      EmptyFromClassify(r, i, k, o);
      assert r.states[k + 1].fault == EmptyFunctor(o) ==> Overwritten(r, i, k, o);
    }
    if i :| Overwritten(r, i, k, o) {
      EmptyFromClassify(r, i, k, o);
    }
  }

  /** It does happen on one thread: a second operation on the same handle is
      created between the failed attempt and the start of the first, and its
      would-block overwrites the error. */
  lemma EmptyFunctorRun() returns (r: Run)
    ensures r.Valid() && Sequential(r) && r.Last().fault == EmptyFunctor(0)
  {
    r := FailedThenOverwritten();
    ThenSequential(r, ConnectCheck(0)); r := r.Then(ConnectCheck(0));
    ThenSequential(r, StartCheck(0)); r := r.Then(StartCheck(0));
    ThenSequential(r, Complete(0, Success(0))); r := r.Then(Complete(0, Success(0)));
  }

  lemma FailedThenOverwritten() returns (r: Run)
    ensures r.Valid() && Sequential(r) && r.Last().fault.NoFault? && ErrorOf(r.Last(), Handle(0, 3)) == EAGAIN
    ensures 0 in r.Last().ops && r.Last().ops[0] == Op(Transfer(Read, true), Handle(0, 3), Eager, Empty, None, Made)
    ensures r.steps != [] && r.steps[|r.steps| - 1].Classify?
  {
    var h := Handle(0, 3);
    var first, second := Create(0, Transfer(Read, true), h, Failure(104)),
                         Create(1, Transfer(Write, true), h, Failure(EAGAIN));
    r := NoSteps;
    ThenSequential(r, first); r := r.Then(first);
    ThenSequential(r, Classify(0)); r := r.Then(Classify(0));
    ThenSequential(r, second); r := r.Then(second);
    ThenSequential(r, Classify(1)); r := r.Then(Classify(1));
  }

  // --- Connecting a socket ---

  /** A connect that fails at once, other than by being in progress or already
      done (EINPROGRESS, EAGAIN, EALREADY, EISCONN), completes with its own
      error; any other completes with the error its handle carries, or with 0. */
  lemma DialOutcome(r: Run, i: nat, k: nat, o: OpId)
    requires r.Valid() && i < k < |r.steps| && r.steps[i].Create? && r.steps[i].o == o && r.steps[i].kind.Dial?
    requires r.steps[k].Complete? && r.steps[k].o == o && NoStores(r, i + 1, k, r.steps[i].h)
    ensures var res, h := r.steps[i].result, r.steps[i].h;
            var error :=
              if res.Failure? && res.errno !in {EINPROGRESS, EAGAIN, EALREADY, EISCONN} then res.errno
              else ErrorOf(r.states[i], h);
            && r.states[k + 1].signals ==
               r.states[k].signals + [Signal(o, if error != 0 && error != EAGAIN then Error(error) else Value(0))]
            && r.states[k + 1].effects == r.states[k].effects
    ensures o in r.states[k].ops && r.states[k].ops[o].trigger == On(Write)
  {
    assert r.StepAt(i) && r.StepAt(k);
    ErrorStaysFrom(r, i + 1, k, r.steps[i].h);
    LaterRun(r, i + 1, k, o);
  }

  // --- Broadcast ---

  /** In an ascending report with sockets at their own descriptors, only the
      event of a handle's descriptor stores on the handle. */
  lemma {:induction false} StoredAt(m: Mux<OpId, Handle>, errors: map<Handle, int>, evs: seq<PollFd>, so: seq<int>,
                                    x: nat, h: Handle)
    requires |evs| == |so| && x < |evs| && Sorted(evs)
    requires forall i :: 0 <= i < |evs| ==> 0 <= evs[i].fd < |m.demux|
    requires forall i :: 0 <= i < |m.demux| && m.demux[i].socket.Some? ==> m.demux[i].socket.value.fd == i
    requires Fatal(evs[x].revents) && m.demux[evs[x].fd].socket == Some(h)
    ensures h in StoredErrors(m, errors, evs, so) && StoredErrors(m, errors, evs, so)[h] == so[x]
    decreases |evs|
  {
    var n := |evs| - 1;
    if x < n {
      StoredAt(m, errors, evs[..n], so[..n], x, h);
      assert evs[x].fd < evs[n].fd;
    }
  }

  /** What a dispatch does to an operation waiting on a descriptor that reports
      a failure: the socket pointer is its handle, it becomes ready, and the
      handle carries the error read for that descriptor. */
  lemma BroadcastDispatch(s: State, step: Step, o: OpId, x: nat)
    requires Inv(s) && Enabled(s, step) && step.DispatchEvents? && HasPhase(s, o, Queued)
    requires x < |s.waiters[step.w].events| && Fatal(s.waiters[step.w].events[x].revents)
    requires s.waiters[step.w].events[x].fd == s.ops[o].handle.fd
    requires Apply(s, step).fault.NoFault?
    ensures s.mux.demux[s.ops[o].handle.fd].socket == Some(s.ops[o].handle)
    ensures HasPhase(Apply(s, step), o, Ready(step.w))
    ensures ErrorOf(Apply(s, step), s.ops[o].handle) == step.soErrors[x]
  {
    var evs, h, d := s.waiters[step.w].events, s.ops[o].handle, s.ops[o].trigger.d;
    StoredAt(s.mux, s.errors, evs, step.soErrors, x, h);
    assert Clears(evs[x].revents, d) by {
      var f :| f in evs[x].revents * {Err, Nval};
    }
    ClearsImpliesSelects(evs[x].revents, d);
    assert Selected(evs, h.fd, d);
    DispatchMoves(s, evs, o);
  }

  /** Every operation waiting on the failed descriptor completes with that
      error and without running its function, unless another error is stored on
      the handle before it executes. */
  lemma Broadcast(r: Run, i: nat, k: nat, o: OpId, x: nat)
    requires r.Valid() && i < k < |r.steps| && r.steps[i].DispatchEvents? && r.steps[k].Complete? && r.steps[k].o == o
    requires HasPhase(r.states[i], o, Queued) && r.steps[i].w in r.states[i].waiters
    requires r.states[i].waiters[r.steps[i].w].Reported?
    requires var evs := r.states[i].waiters[r.steps[i].w].events;
             x < |evs| && x < |r.steps[i].soErrors| && Fatal(evs[x].revents) &&
               evs[x].fd == r.states[i].ops[o].handle.fd
    requires Failing(r.steps[i].soErrors[x])
    requires NoStores(r, i + 1, k, r.states[i].ops[o].handle)
    ensures r.states[k + 1].signals == r.states[k].signals + [Signal(o, Error(r.steps[i].soErrors[x]))]
    ensures r.states[k + 1].effects == r.states[k].effects
  {
    var h := r.states[i].ops[o].handle;
    assert r.StepAt(i) && r.StepAt(i + 1) && r.StepAt(k);
    Reachable(r, i);
    BroadcastDispatch(r.states[i], r.steps[i], o, x);
    ErrorStaysFrom(r, i + 1, k, h);
    LaterRun(r, i, k, o);
  }
}
