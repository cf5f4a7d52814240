/** What the return value of a blocking wait says: 0 exactly when its snapshot
    found no interest, which on one thread means that nothing waited and that no
    hang-up had left interest behind. */
module BlockingWait {
  import opened Poll
  import opened InterestList
  import opened Demultiplexing
  import opened Protocol
  import opened Conservation
  import opened Wakeup
  import opened LoopExit
  import opened Lifetimes

  // --- Masks hold interest flags only ---

  predicate Plain(l: seq<PollFd>) {
    forall i :: 0 <= i < |l| ==> l[i].events <= {In, Out}
  }

  lemma {:induction false} UpsertPlain(l: seq<PollFd>, e: PollFd)
    requires Plain(l) && e.events <= {In, Out}
    ensures Plain(Upsert(l, e))
  {
    if l != [] { UpsertPlain(l[1..], e); }
  }

  lemma {:induction false} ClearedPlain(l: seq<PollFd>, ev: PollFd)
    requires Plain(l)
    ensures Plain(Cleared(l, ev))
  {
    if l != [] { ClearedPlain(l[1..], ev); }
  }

  lemma {:induction false} DispatchedPlain<T, H>(m: Mux<T, H>, evs: seq<PollFd>)
    requires Plain(m.list) && InTable(m, evs)
    ensures Plain(Dispatched(m, evs).list)
  {
    if evs != [] {
      var n := |evs| - 1;
      DispatchedPlain(m, evs[..n]);
      ClearedPlain(Dispatched(m, evs[..n]).list, evs[n]);
    }
  }

  lemma PlainStep(s: State, step: Step)
    requires Plain(s.mux.list) && Enabled(s, step)
    ensures Plain(Apply(s, step).mux.list)
  {
    match step
    case AddInterest(o) =>
      if s.ops[o].handle.fd >= 0 {
        UpsertPlain(s.mux.list, PollFd(s.ops[o].handle.fd, {DirFlag(s.ops[o].trigger.d)}, {}));
      }
    case DispatchEvents(w, _) => DispatchedPlain(s.mux, s.waiters[w].events);
    case Push(_) =>
    case _ => MuxFrame(s, step);
  }

  lemma {:induction false} PlainReachable(r: Run, k: nat)
    requires r.Valid() && k < |r.states|
    ensures Plain(r.states[k].mux.list)
  {
    if k > 0 {
      assert r.StepAt(k - 1);
      PlainReachable(r, k - 1);
      PlainStep(r.states[k - 1], r.steps[k - 1]);
    }
  }

  /** Then a snapshot is empty if and only if there is no interest in either direction. */
  lemma ActiveExactly(l: seq<PollFd>)
    requires Sorted(l) && Plain(l)
    ensures Active(l) == [] <==> forall fd, d :: DirFlag(d) !in Bits(l, fd)
  {
    ActiveEmpty(l);
    if Active(l) != [] {
      var fd :| Bits(l, fd) != {};
      ViewHas(l, fd);
      var i :| 0 <= i < |l| && l[i].fd == fd;
      ViewAt(l, i);
      var f :| f in Bits(l, fd);
      assert f == DirFlag(if f == In then Read else Write);
    }
  }

  // --- Over every interleaving ---

  /** A wait that has nothing to report, at whichever point it is. */
  predicate Blind(x: Waiter) {
    match x
    case Polling(_, snapshot) => snapshot == []
    case Reported(_, events) => events == []
    case Draining(_, count, _, _) => count == 0
  }

  predicate SnapshotBy(step: Step, w: WaiterId) { step.Snapshot? && step.w == w }

  /** `poll` with a negative timeout reports something if there is anything to poll. */
  lemma BlindPoll(s: State, step: Step)
    requires Enabled(s, step) && step.PollReturn? && s.waiters[step.w].timeout < 0
    ensures Blind(Apply(s, step).waiters[step.w]) <==> Blind(s.waiters[step.w])
  {
    var x := s.waiters[step.w];
    if x.snapshot != [] {
      var i :| 0 <= i < |step.revents| && step.revents[i] != {};
      if Reports(WithRevents(x.snapshot, step.revents)) == [] {
        NothingReported(WithRevents(x.snapshot, step.revents), i);
      }
    }
  }

  /** After its snapshot a blocking wait stays blind or stays seeing. */
  lemma BlindStep(s: State, step: Step, w: WaiterId)
    requires Enabled(s, step) && w in Apply(s, step).waiters && !SnapshotBy(step, w)
    ensures w in s.waiters && Apply(s, step).waiters[w].timeout == s.waiters[w].timeout
    ensures s.waiters[w].timeout < 0 ==> (Blind(Apply(s, step).waiters[w]) <==> Blind(s.waiters[w]))
  {
    if w in s.waiters && step.PollReturn? && step.w == w && s.waiters[w].timeout < 0 {
      BlindPoll(s, step);
    } else if step.DispatchEvents? && step.w == w {
      if Apply(s, step).fault.NoFault? { DispatchShape(s, step); } else { FaultChangesNothing(s, step); }
    } else {
      BlindElsewhere(s, step, w);
    }
  }

  lemma BlindElsewhere(s: State, step: Step, w: WaiterId)
    requires Enabled(s, step) && w in Apply(s, step).waiters && !SnapshotBy(step, w)
    requires !(step.PollReturn? && step.w == w && s.waiters[w].timeout < 0) && !(step.DispatchEvents? && step.w == w)
    ensures w in s.waiters && Apply(s, step).waiters[w].timeout == s.waiters[w].timeout
    ensures s.waiters[w].timeout < 0 ==> (Blind(Apply(s, step).waiters[w]) <==> Blind(s.waiters[w]))
  {
    if (step.PollReturn? || step.Pop? || step.Return?) && step.w == w {
      BlindOwn(s, step, w);
    } else {
      WaiterStays(s, step, w);
    }
  }

  lemma BlindOwn(s: State, step: Step, w: WaiterId)
    requires Enabled(s, step) && (step.PollReturn? || step.Pop? || step.Return?) && step.w == w
    ensures w in s.waiters && w in Apply(s, step).waiters && Apply(s, step).waiters[w].timeout == s.waiters[w].timeout
    ensures !step.PollReturn? ==> (Blind(Apply(s, step).waiters[w]) <==> Blind(s.waiters[w]))
  {
  }

  lemma InterestedIn(m: Mux<OpId, Handle>)
    ensures (forall fd, d :: !Interested(m, fd, d)) <==> (forall fd, d :: DirFlag(d) !in Bits(m.list, fd))
  {
    if forall fd, d :: !Interested(m, fd, d) {
      forall fd, d ensures DirFlag(d) !in Bits(m.list, fd) { assert !Interested(m, fd, d); }
    }
  }

  /** The snapshot a wait began with, and no later one. */
  ghost predicate BeganAt(r: Run, j: int, k: int, w: WaiterId, timeout: int)
    requires r.Valid() && k < |r.states|
  {
    0 <= j < k && r.steps[j] == Snapshot(w, timeout) && forall m :: j < m < k ==> !SnapshotBy(r.steps[m], w)
  }

  lemma {:induction false} Began(r: Run, k: nat, w: WaiterId) returns (j: nat)
    requires r.Valid() && k < |r.states| && w in r.states[k].waiters
    ensures j < k && BeganAt(r, j, k, w, r.states[k].waiters[w].timeout)
    ensures r.states[k].waiters[w].timeout < 0 ==>
              (Blind(r.states[k].waiters[w]) <==> forall fd, d :: !Interested(r.states[j].mux, fd, d))
  {
    assert k > 0;
    assert r.StepAt(k - 1);
    if SnapshotBy(r.steps[k - 1], w) {
      j := k - 1;
      Reachable(r, j);
      PlainReachable(r, j);
      ActiveExactly(r.states[j].mux.list);
      InterestedIn(r.states[j].mux);
    } else {
      BlindStep(r.states[k - 1], r.steps[k - 1], w);
      j := Began(r, k - 1, w);
    }
  }

  /** Over every interleaving: a blocking wait returns 0 if and only if nothing
      had interest when it took its snapshot. */
  lemma ZeroExactly(r: Run, k: nat, w: WaiterId) returns (j: nat)
    requires r.Valid() && k < |r.steps| && r.steps[k] == Finish(w)
    requires w in r.states[k].waiters && r.states[k].waiters[w].timeout < 0
    ensures r.states[k].waiters[w].Draining? && j < k && BeganAt(r, j, k, w, r.states[k].waiters[w].timeout)
    ensures r.states[k].waiters[w].count == 0 <==> forall fd, d :: !Interested(r.states[j].mux, fd, d)
  {
    assert r.StepAt(k);
    j := Began(r, k, w);
  }

  // --- Which operations it misses ---

  /** A step that queues an operation is its push. */
  lemma QueuedBy(s: State, step: Step, o: OpId)
    requires Enabled(s, step) && !HasPhase(s, o, Queued) && HasPhase(Apply(s, step), o, Queued)
    ensures step == Push(o)
  {
    if !step.DispatchEvents? && Apply(s, step).fault.NoFault? {
      StepChangesOneOp(s, step);
      if step.Create? { CreatePhase(s, step.o, step.kind, step.h, step.result); }
    }
  }

  lemma {:induction false} PushOf(r: Run, k: nat, o: OpId) returns (j: nat)
    requires r.Valid() && k < |r.states| && HasPhase(r.states[k], o, Queued)
    ensures j < k && r.steps[j] == Push(o)
  {
    assert k > 0;
    assert r.StepAt(k - 1);
    if HasPhase(r.states[k - 1], o, Queued) {
      j := PushOf(r, k - 1, o);
    } else {
      QueuedBy(r.states[k - 1], r.steps[k - 1], o);
      j := k - 1;
    }
  }

  ghost predicate HasDemux(s: State, o: OpId) { o in s.ops && s.ops[o].demux.Some? }

  /** A step that gives an operation its demultiplexer is its registration. */
  lemma DemuxBy(s: State, step: Step, o: OpId)
    requires Enabled(s, step) && !HasDemux(s, o) && HasDemux(Apply(s, step), o)
    ensures step == AddInterest(o)
  {
    if !step.DispatchEvents? && Apply(s, step).fault.NoFault? {
      StepChangesOneOp(s, step);
      if OpOf(s, step) == Some(o) && !step.AddInterest? { DemuxOnly(s, step, o); }
    }
  }

  lemma DemuxOnly(s: State, step: Step, o: OpId)
    requires Enabled(s, step) && OpOf(s, step) == Some(o) && !step.AddInterest? && HasDemux(Apply(s, step), o)
    ensures HasDemux(s, o)
  {
  }

  lemma {:induction false} RegistrationOf(r: Run, k: nat, o: OpId) returns (i: nat)
    requires r.Valid() && k < |r.states| && HasDemux(r.states[k], o)
    ensures i < k && r.steps[i] == AddInterest(o)
  {
    assert k > 0;
    assert r.StepAt(k - 1);
    if HasDemux(r.states[k - 1], o) {
      i := RegistrationOf(r, k - 1, o);
    } else {
      DemuxBy(r.states[k - 1], r.steps[k - 1], o);
      i := k - 1;
    }
  }

  /** A waiting operation was connected, then queued. */
  lemma QueuedFrom(r: Run, k: nat, o: OpId) returns (i: nat, j: nat)
    requires r.Valid() && k < |r.states| && HasPhase(r.states[k], o, Queued)
    ensures i < j < k && r.steps[i] == AddInterest(o) && r.steps[j] == Push(o)
  {
    j := PushOf(r, k, o);
    Reachable(r, k);
    assert OpWired(r.states[k], r.states[k].ops[o]);
    i := RegistrationOf(r, k, o);
    if j < i { NotAgain(r, j, i, o); }
  }

  /** An operation that was queued is not connected again. */
  lemma NotAgain(r: Run, j: nat, i: nat, o: OpId)
    requires r.Valid() && j < i < |r.steps| && r.steps[j] == Push(o)
    ensures r.steps[i] != AddInterest(o)
  {
    assert r.StepAt(j) && r.StepAt(i);
    Reachable(r, j);
    if r.steps[i] == AddInterest(o) {
      assert r.StepAt(j + 1);
      LaterRun(r, j + 1, i, o);
    }
  }

  /** Over every interleaving: an operation that waited when a blocking wait
      began, and that the wait missed by returning 0, had its interest removed
      between its connect and its start, and nothing registered it since. */
  lemma MissedWasHit(r: Run, k: nat, w: WaiterId, j: nat, o: OpId) returns (i: nat, p: nat, m: int)
    requires r.Valid() && k < |r.steps| && r.steps[k] == Finish(w) && w in r.states[k].waiters
    requires r.states[k].waiters[w].timeout < 0 && r.states[k].waiters[w].Draining? && r.states[k].waiters[w].count == 0
    requires BeganAt(r, j, k, w, r.states[k].waiters[w].timeout) && HasPhase(r.states[j], o, Queued)
    ensures i < p < j && r.steps[i] == AddInterest(o) && r.steps[p] == Push(o) && r.states[j].ops[o].trigger.On?
    ensures HitInWindow(r, i, p, m, j, r.states[j].ops[o].handle.fd, r.states[j].ops[o].trigger.d)
  {
    var j' := ZeroExactly(r, k, w);
    assert SnapshotBy(r.steps[j], w) && SnapshotBy(r.steps[j'], w);
    i, p := QueuedFrom(r, j, o);
    UncoveredExactly(r, i, p, j, o);
    m :| HitInWindow(r, i, p, m, j, r.states[j].ops[o].handle.fd, r.states[j].ops[o].trigger.d);
  }

  // --- On one thread ---

  /** The report that a dispatch handles; empty for every other step. */
  ghost function Handled(s: State, step: Step): seq<PollFd> {
    if step.DispatchEvents? && step.w in s.waiters && s.waiters[step.w].Reported? &&
       Indexed(s.waiters[step.w].events, |s.mux.demux|) && DispatchFault(s, s.waiters[step.w].events).NoFault?
    then s.waiters[step.w].events
    else []
  }

  /** The step releases the queue of the descriptor and direction. */
  ghost predicate ReleasesAt(r: Run, m: int, fd: int, d: Direction)
    requires r.Valid()
  {
    0 <= m < |r.steps| && Selected(Handled(r.states[m], r.steps[m]), fd, d)
  }

  /** A hang-up of the descriptor, reported without input and without a failure. */
  predicate HangUpAlone(ev: PollFd, fd: int) {
    ev.fd == fd && Hup in ev.revents && In !in ev.revents && Err !in ev.revents && Nval !in ev.revents
  }

  ghost predicate HangsUpAt(r: Run, m: int, fd: int)
    requires r.Valid()
  {
    0 <= m < |r.steps| && exists ev :: ev in Handled(r.states[m], r.steps[m]) && HangUpAlone(ev, fd)
  }

  /** A report that releases readers removes their interest, but for a hang-up alone. */
  lemma ReleaseCases(evs: seq<PollFd>, fd: int, d: Direction)
    requires Sorted(evs) && Selected(evs, fd, d)
    ensures IsCleared(evs, fd, d) <==> !(d == Read && exists ev :: ev in evs && HangUpAlone(ev, fd))
  {
    var i :| 0 <= i < |evs| && evs[i].fd == fd && Selects(evs[i].revents, d);
    SelectsWithoutClears(evs[i].revents, d);
    assert forall j :: 0 <= j < |evs| && evs[j].fd == fd ==> j == i;
    if d == Read && !Clears(evs[i].revents, d) { assert evs[i] in evs && HangUpAlone(evs[i], fd); }
  }

  lemma HangUpReleases(evs: seq<PollFd>, fd: int, ev: PollFd)
    requires ev in evs && HangUpAlone(ev, fd)
    ensures Selected(evs, fd, Read)
  {
    SelectsWithoutClears(ev.revents, Read);
    var i :| 0 <= i < |evs| && evs[i] == ev;
  }

  lemma ReleaseCasesAt(r: Run, m: int, fd: int, d: Direction)
    requires r.Valid() && 0 <= m < |r.steps|
    ensures UnregistersAt(r, m, fd, d) <==> ReleasesAt(r, m, fd, d) && !(d == Read && HangsUpAt(r, m, fd))
    ensures HangsUpAt(r, m, fd) ==> ReleasesAt(r, m, fd, Read)
  {
    var evs := Handled(r.states[m], r.steps[m]);
    assert UnregistersAt(r, m, fd, d) <==> IsCleared(evs, fd, d);
    if ReleasesAt(r, m, fd, d) { ReleaseCases(evs, fd, d); }
    if IsCleared(evs, fd, d) { ClearedIsSelected(evs, fd, d); }
    if ev :| ev in evs && HangUpAlone(ev, fd) { HangUpReleases(evs, fd, ev); }
  }

  /** Readers were registered at step `i` and released at step `m`, and since the
      registration every release of them was a hang-up alone. */
  ghost predicate StaleSince(r: Run, i: int, m: int, k: int, fd: int)
    requires r.Valid() && k < |r.states|
  {
    && i < m < k && RegistersAt(r, i, fd, Read) && HangsUpAt(r, m, fd)
    && forall n :: i < n < k && ReleasesAt(r, n, fd, Read) ==> HangsUpAt(r, n, fd)
  }

  ghost predicate Stale(r: Run, k: int, fd: int, d: Direction)
    requires r.Valid() && k < |r.states|
  {
    d == Read && exists i, m :: StaleSince(r, i, m, k, fd)
  }

  /** In any run, interest that hang-ups left behind is there. */
  lemma StaleStays(r: Run, k: nat, fd: int, d: Direction)
    requires r.Valid() && k < |r.states| && Stale(r, k, fd, d)
    ensures Interested(r.states[k].mux, fd, d)
  {
    var i, m :| StaleSince(r, i, m, k, fd);
    forall n | i < n < k ensures !UnregistersAt(r, n, fd, Read) { ReleaseCasesAt(r, n, fd, Read); }
    assert RegisteredSince(r, i, k, fd, Read);
    InterestExact(r, k, fd, d);
  }

  /** Some operation is between its connect and its queueing. */
  ghost predicate InFlight(s: State, o: OpId) {
    HasDemux(s, o) && (s.ops[o].phase == Connected || s.ops[o].phase == Enqueuing)
  }

  /** Control goes straight from a registration to the queueing. */
  lemma RegisteredIsQueued(r: Run, i: nat, k: nat, o: OpId)
    requires r.Valid() && Sequential(r) && i < k < |r.states| && r.states[k].fault.NoFault? && !InFlight(r.states[k], o)
    requires r.steps[i] == AddInterest(o) && o in r.states[i].ops && r.states[i].ops[o].handle.fd >= 0
    ensures i + 3 <= k && HasPhase(r.states[i + 3], o, Queued)
    ensures r.states[i + 3].ops[o].handle == r.states[i].ops[o].handle
    ensures r.states[i + 3].ops[o].trigger == r.states[i].ops[o].trigger
  {
    assert r.StepAt(i);
    assert InFlight(r.states[i + 1], o);
    RegisteredIsStarted(r, i, o);
    assert InFlight(r.states[i + 2], o);
    assert r.StepAt(i + 2);
    assert FollowsAt(r, i + 1);
  }

  lemma RegisteredIsStarted(r: Run, i: nat, o: OpId)
    requires r.Valid() && Sequential(r) && i + 1 < |r.steps|
    requires r.steps[i] == AddInterest(o) && o in r.states[i].ops && r.states[i].ops[o].handle.fd >= 0
    ensures r.steps[i + 1] == StartCheck(o) && r.states[i + 2].fault.NoFault?
    ensures HasDemux(r.states[i + 1], o) && o in r.states[i + 2].ops
    ensures r.states[i + 2].ops[o] == r.states[i + 1].ops[o].(phase := Enqueuing)
  {
    assert r.StepAt(i) && r.StepAt(i + 1);
    ControlReachable(r, i + 1);
    assert OpControl(r.states[i + 1], LastStep(r, i + 1), o);
    assert FollowsAt(r, i);
  }

  /** A waiting operation stops waiting only by a dispatch that releases its queue. */
  lemma LeavesByRelease(r: Run, m: nat, o: OpId)
    requires r.Valid() && m < |r.steps| && HasPhase(r.states[m], o, Queued) && !HasPhase(r.states[m + 1], o, Queued)
    ensures r.states[m].ops[o].trigger.On?
    ensures ReleasesAt(r, m, r.states[m].ops[o].handle.fd, r.states[m].ops[o].trigger.d)
  {
    assert r.StepAt(m);
    Reachable(r, m);
    var s, step := r.states[m], r.steps[m];
    if Apply(s, step).fault.NoFault? {
      if step.DispatchEvents? { DispatchMoves(s, s.waiters[step.w].events, o); } else { QueuedStays(s, step, o); }
    } else {
      FaultChangesNothing(s, step);
    }
  }

  lemma QueuedStays(s: State, step: Step, o: OpId)
    requires Inv(s) && Enabled(s, step) && !step.DispatchEvents? && Apply(s, step).fault.NoFault? &&
             HasPhase(s, o, Queued)
    ensures HasPhase(Apply(s, step), o, Queued)
  {
    QueuedIdle(s, step, o);
    StepChangesOneOp(s, step);
  }

  /** No step but a dispatch acts on a waiting operation. */
  lemma QueuedIdle(s: State, step: Step, o: OpId)
    requires Inv(s) && Enabled(s, step) && HasPhase(s, o, Queued)
    ensures OpOf(s, step) != Some(o)
  {
    if step.Pop? && OpOf(s, step) == Some(o) { PopsReady(s, step); }
  }

  lemma {:induction false} LeftAt(r: Run, a: nat, k: nat, o: OpId) returns (m: nat)
    requires r.Valid() && a <= k < |r.states| && HasPhase(r.states[a], o, Queued) && !HasPhase(r.states[k], o, Queued)
    ensures a <= m < k && HasPhase(r.states[m], o, Queued) && !HasPhase(r.states[m + 1], o, Queued)
    decreases k
  {
    if HasPhase(r.states[k - 1], o, Queued) { m := k - 1; } else { m := LeftAt(r, a, k - 1, o); }
  }

  /** The release since which interest without a waiting operation is left. */
  lemma LeftBehind(r: Run, k: nat, fd: int, d: Direction)
    requires r.Valid() && Sequential(r) && k < |r.states| && r.states[k].fault.NoFault?
    requires forall o :: !InFlight(r.states[k], o)
    requires Interested(r.states[k].mux, fd, d) && Q(r.states[k].mux, fd, d) == []
    ensures Stale(r, k, fd, d)
  {
    InterestExact(r, k, fd, d);
    var i :| RegisteredSince(r, i, k, fd, d);
    var o := r.steps[i].o;
    RegisteredIsQueued(r, i, k, o);
    Reachable(r, k);
    LaterRun(r, i, k, o);
    assert r.StepAt(i);
    assert !HasPhase(r.states[k], o, Queued);
    var m := LeftAt(r, i + 3, k, o);
    LeavesByRelease(r, m, o);
    LaterRun(r, i, m, o);
    forall n | i < n < k ensures ReleasesAt(r, n, fd, d) ==> d == Read && HangsUpAt(r, n, fd) {
      ReleaseCasesAt(r, n, fd, d);
    }
    assert StaleSince(r, i, m, k, fd);
  }

  /** On one thread, when no operation is between its connect and its queueing:
      there is interest in a direction if and only if operations wait for it, or
      it is left over from readers that were last released by hang-ups alone. */
  lemma InterestLeft(r: Run, k: nat, fd: int, d: Direction)
    requires r.Valid() && Sequential(r) && k < |r.states| && r.states[k].fault.NoFault?
    requires forall o :: !InFlight(r.states[k], o)
    ensures Interested(r.states[k].mux, fd, d) <==> Q(r.states[k].mux, fd, d) != [] || Stale(r, k, fd, d)
  {
    var s := r.states[k];
    if Q(s.mux, fd, d) != [] {
      Reachable(r, k);
      ControlReachable(r, k);
      FrontIsQueued(s, fd, d);
      var o := Q(s.mux, fd, d)[0];
      assert OpControl(s, LastStep(r, k), o);
      assert KeyOf(s.ops)[o] == (fd, d);
    }
    if Stale(r, k, fd, d) { StaleStays(r, k, fd, d); }
    if Interested(s.mux, fd, d) && Q(s.mux, fd, d) == [] { LeftBehind(r, k, fd, d); }
  }

  /** When a thread begins a wait, it has nothing in flight. */
  lemma NothingInFlight(r: Run, j: nat)
    requires r.Valid() && Sequential(r) && j < |r.steps| && r.steps[j].Snapshot?
    ensures r.states[j].fault.NoFault? && forall o :: !InFlight(r.states[j], o)
  {
    assert r.StepAt(j);
    ControlReachable(r, j);
    if j > 0 { assert FollowsAt(r, j - 1); }
    forall o ensures !InFlight(r.states[j], o) {
      if InFlight(r.states[j], o) {
        assert OpControl(r.states[j], LastStep(r, j), o);
        InFlightForces(r.states[j], LastStep(r, j), r.steps[j], o);
      }
    }
  }

  /** On one thread a blocking wait returns 0 if and only if, when it began, no
      operation waited and no hang-up had left interest of readers behind. */
  lemma LoopExitExactly(r: Run, k: nat, w: WaiterId) returns (j: nat)
    requires r.Valid() && Sequential(r) && k < |r.steps| && r.steps[k] == Finish(w)
    requires w in r.states[k].waiters && r.states[k].waiters[w].timeout < 0
    ensures r.states[k].waiters[w].Draining? && j < k && BeganAt(r, j, k, w, r.states[k].waiters[w].timeout)
    ensures r.states[k].waiters[w].count == 0 <==>
            forall fd, d :: Q(r.states[j].mux, fd, d) == [] && !Stale(r, j, fd, d)
  {
    j := ZeroExactly(r, k, w);
    NothingInFlight(r, j);
    forall fd, d
      ensures Interested(r.states[j].mux, fd, d) <==> Q(r.states[j].mux, fd, d) != [] || Stale(r, j, fd, d)
    {
      InterestLeft(r, j, fd, d);
    }
  }

  /** It does happen: on one thread every operation has completed, and yet the
      next blocking wait does not return 0. */
  lemma StaleInterestRun() returns (r: Run)
    ensures r.Valid() && Sequential(r) && r.Last().fault.NoFault? && r.Last().waiters == map[]
    ensures r.Last().ops.Keys == {0} && HasPhase(r.Last(), 0, Done)
    ensures Interested(r.Last().mux, 3, Read) && Stale(r, |r.states| - 1, 3, Read)
  {
    r := SceneQueued();
    r := SceneHungUp(r);
    var k := |r.states| - 1;
    Reachable(r, k);
    assert [PollFd(3, {In}, {})][1..] == [];
    assert Interested(r.Last().mux, 3, Read);
    assert Q(r.Last().mux, 3, Read) == [];
    InterestLeft(r, k, 3, Read);
  }
}
