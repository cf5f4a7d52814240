/** In which order operations execute: a drain runs exactly what its dispatch
    made ready, and one descriptor and direction is served first in, first out. */
module Order {
  import opened Sequences
  import opened Poll
  import opened Demultiplexing
  import opened Protocol
  import opened Conservation
  import opened Wakeup

  function ReadyAtWaiter(s: State, w: WaiterId): seq<OpId> {
    if w in s.waiters && s.waiters[w].Draining? then s.waiters[w].ready else []
  }

  /** What the step pops from the ready queue of the waiter. */
  function PopBy(s: State, step: Step, w: WaiterId): seq<OpId> {
    if step == Pop(w) && ReadyAtWaiter(s, w) != [] then [ReadyAtWaiter(s, w)[0]] else []
  }

  /** The operations the waiter executes from step `i` up to step `k`, in order. */
  function PopsBy(r: Run, w: WaiterId, i: nat, k: nat): seq<OpId>
    requires i <= k <= |r.steps| < |r.states|
  {
    if i == k then [] else PopsBy(r, w, i, k - 1) + PopBy(r.states[k - 1], r.steps[k - 1], w)
  }

  // --- Draining ---

  /** Whatever other threads or the completions themselves do, only the waiter's
      own pops change its ready queue while it drains. */
  lemma DrainStep(s: State, step: Step, w: WaiterId)
    requires Enabled(s, step) && w in s.waiters && s.waiters[w].Draining? && step != Finish(w)
    ensures var s' := Apply(s, step);
            && w in s'.waiters && s'.waiters[w].Draining?
            && PopBy(s, step, w) + s'.waiters[w].ready == s.waiters[w].ready
  {
    if step == Pop(w) {
      assert Apply(s, step).waiters[w].ready == s.waiters[w].ready[1..];
    } else {
      ReadyUntouched(s, step, w);
    }
  }

  lemma ReadyUntouched(s: State, step: Step, w: WaiterId)
    requires Enabled(s, step) && w in s.waiters && s.waiters[w].Draining? && step != Finish(w) && step != Pop(w)
    ensures var s' := Apply(s, step);
            w in s'.waiters && s'.waiters[w].Draining? && s'.waiters[w].ready == s.waiters[w].ready
  {
    if step != Return(w) { OtherWaiterSame(s, step, w); }
  }

  lemma DrainStepAt(r: Run, m: nat, w: WaiterId)
    requires r.Valid() && m < |r.steps| && w in r.states[m].waiters && r.states[m].waiters[w].Draining? &&
             r.steps[m] != Finish(w)
    ensures w in r.states[m + 1].waiters && r.states[m + 1].waiters[w].Draining?
    ensures PopBy(r.states[m], r.steps[m], w) + r.states[m + 1].waiters[w].ready == r.states[m].waiters[w].ready
  {
    assert r.StepAt(m);
    DrainStep(r.states[m], r.steps[m], w);
  }

  lemma DrainExtend(r: Run, w: WaiterId, i: nat, m: nat, ready: seq<OpId>)
    requires r.Valid() && i <= m < |r.steps| && r.steps[m] != Finish(w)
    requires w in r.states[m].waiters && r.states[m].waiters[w].Draining?
    requires PopsBy(r, w, i, m) + r.states[m].waiters[w].ready == ready
    ensures w in r.states[m + 1].waiters && r.states[m + 1].waiters[w].Draining?
    ensures PopsBy(r, w, i, m + 1) + r.states[m + 1].waiters[w].ready == ready
  {
    DrainStepAt(r, m, w);
    Rejoin(PopsBy(r, w, i, m), PopBy(r.states[m], r.steps[m], w), r.states[m + 1].waiters[w].ready, ready);
  }

  lemma DrainPrefix(r: Run, w: WaiterId, i: nat, k: nat)
    requires r.Valid() && i <= k < |r.states|
    requires w in r.states[i].waiters && r.states[i].waiters[w].Draining?
    requires forall m :: i <= m < k ==> r.steps[m] != Finish(w)
    ensures w in r.states[k].waiters && r.states[k].waiters[w].Draining?
    ensures PopsBy(r, w, i, k) + r.states[k].waiters[w].ready == r.states[i].waiters[w].ready
  {
    var m := i;
    while m < k
      invariant i <= m <= k
      invariant w in r.states[m].waiters && r.states[m].waiters[w].Draining?
      invariant PopsBy(r, w, i, m) + r.states[m].waiters[w].ready == r.states[i].waiters[w].ready
    {
      DrainExtend(r, w, i, m, r.states[i].waiters[w].ready);
      m := m + 1;
    }
  }

  lemma DoneStays(r: Run, k: nat, o: OpId)
    requires r.Valid() && k < |r.steps| && HasPhase(r.states[k], o, Done)
    ensures HasPhase(r.states[k + 1], o, Done)
  {
    LaterRun(r, k, k + 1, o);
  }

  ghost predicate DoneOrCurrent(s: State, w: WaiterId, o: OpId) {
    HasPhase(s, o, Done) || (w in s.waiters && s.waiters[w].Draining? && s.waiters[w].current == Some(o))
  }

  lemma DoneOrCurrentStays(r: Run, k: nat, w: WaiterId, o: OpId)
    requires r.Valid() && k < |r.steps| && DoneOrCurrent(r.states[k], w, o)
    ensures DoneOrCurrent(r.states[k + 1], w, o)
  {
    assert r.StepAt(k);
    if HasPhase(r.states[k], o, Done) {
      DoneStays(r, k, o);
    } else {
      CurrentStays(r.states[k], r.steps[k], w, o);
    }
  }

  lemma PoppedIsCurrent(r: Run, k: nat, w: WaiterId, o: OpId)
    requires r.Valid() && k < |r.steps| && o in PopBy(r.states[k], r.steps[k], w)
    ensures DoneOrCurrent(r.states[k + 1], w, o)
  {
    assert r.StepAt(k);
  }

  /** Every popped operation has completed, except the one in progress. */
  lemma {:induction false} DrainCompletes(r: Run, w: WaiterId, i: nat, k: nat, o: OpId)
    requires r.Valid() && i <= k < |r.states|
    requires o in PopsBy(r, w, i, k)
    ensures DoneOrCurrent(r.states[k], w, o)
    decreases k
  {
    if i < k {
      if o in PopsBy(r, w, i, k - 1) {
        DrainCompletes(r, w, i, k - 1, o);
        DoneOrCurrentStays(r, k - 1, w, o);
      } else {
        PoppedIsCurrent(r, k - 1, w, o);
      }
    }
  }

  lemma CurrentStays(s: State, step: Step, w: WaiterId, o: OpId)
    requires Enabled(s, step) && w in s.waiters && s.waiters[w].Draining? && s.waiters[w].current == Some(o)
    ensures var s' := Apply(s, step);
            w in s'.waiters && s'.waiters[w].Draining? && (HasPhase(s', o, Done) || s'.waiters[w].current == Some(o))
  {
    if !((step.Pop? || step.Return? || step.Finish?) && step.w == w) { OtherWaiterSame(s, step, w); }
  }

  /** One `wait_for`, from its dispatch to its return, with any interleaving in
      between: it executes exactly the tasks that were waiting on the reported
      descriptors when the dispatch began, ascending, writers before readers,
      each completed before the return. Tasks started meanwhile are not among them. */
  lemma DrainExact(r: Run, w: WaiterId, i: nat, k: nat)
    requires r.Valid() && i < k < |r.steps|
    requires r.steps[i].DispatchEvents? && r.steps[i].w == w && r.steps[k] == Finish(w)
    requires forall m :: i < m < k ==> r.steps[m] != Finish(w)
    ensures w in r.states[i].waiters && r.states[i].waiters[w].Reported?
    ensures Indexed(r.states[i].waiters[w].events, |r.states[i].mux.demux|)
    ensures PopsBy(r, w, i + 1, k) == ReadyOf(r.states[i].mux, r.states[i].waiters[w].events)
    ensures forall o :: o in PopsBy(r, w, i + 1, k) ==> HasPhase(r.states[k], o, Done)
  {
    DrainBegins(r, w, i);
    DrainPrefix(r, w, i + 1, k);
    DrainEnds(r, w, k);
    forall o | o in PopsBy(r, w, i + 1, k) ensures HasPhase(r.states[k], o, Done) {
      DrainCompletes(r, w, i + 1, k, o);
    }
  }

  /** The ready queue of a drain begins as what its dispatch selects, and ends empty. */
  lemma DrainBegins(r: Run, w: WaiterId, i: nat)
    requires r.Valid() && i + 1 < |r.steps| && r.steps[i].DispatchEvents? && r.steps[i].w == w
    ensures w in r.states[i].waiters && r.states[i].waiters[w].Reported?
    ensures Indexed(r.states[i].waiters[w].events, |r.states[i].mux.demux|)
    ensures w in r.states[i + 1].waiters && r.states[i + 1].waiters[w].Draining?
    ensures r.states[i + 1].waiters[w].ready == ReadyOf(r.states[i].mux, r.states[i].waiters[w].events)
  {
    ReportAt(r, i, w);
    assert r.StepAt(i);
    NotFaulted(r, i + 1, i + 1);
    DispatchShape(r.states[i], r.steps[i]);
    DispatchReady(r.states[i].mux, r.states[i].waiters[w].events);
  }

  lemma DrainEnds(r: Run, w: WaiterId, k: nat)
    requires r.Valid() && k < |r.steps| && r.steps[k] == Finish(w)
    ensures w in r.states[k].waiters && r.states[k].waiters[w].Draining?
    ensures r.states[k].waiters[w].ready == [] && r.states[k].waiters[w].current.None?
  {
    assert r.StepAt(k);
  }

  lemma ReportAt(r: Run, i: nat, w: WaiterId)
    requires r.Valid() && i < |r.steps| && r.steps[i].DispatchEvents? && r.steps[i].w == w
    ensures w in r.states[i].waiters && r.states[i].waiters[w].Reported?
    ensures Indexed(r.states[i].waiters[w].events, |r.states[i].mux.demux|)
  {
    assert r.StepAt(i);
    Reachable(r, i);
  }

  /** A state from which a step was taken has not faulted. */
  lemma NotFaulted(r: Run, i: nat, k: nat)
    requires r.Valid() && i <= k < |r.steps|
    ensures r.states[i].fault.NoFault?
  {
    assert r.StepAt(i);
  }

  // --- First in, first out ---

  /** What the step appends to the queue of the descriptor and direction. */
  function PushTo(s: State, step: Step, fd: int, d: Direction): seq<OpId> {
    if step.Push? && step.o in s.ops && s.ops[step.o].demux == Some(fd) && s.ops[step.o].trigger == On(d)
    then [step.o] else []
  }

  /** The operations queued for the descriptor and direction, in the order of their starts. */
  function Pushes(r: Run, fd: int, d: Direction, k: nat): seq<OpId>
    requires k <= |r.steps| < |r.states|
  {
    if k == 0 then [] else Pushes(r, fd, d, k - 1) + PushTo(r.states[k - 1], r.steps[k - 1], fd, d)
  }

  /** The operations of the descriptor and direction that the waiter executed, in order. */
  function Executed(r: Run, w: WaiterId, fd: int, d: Direction, k: nat): seq<OpId>
    requires k <= |r.steps| < |r.states|
  {
    if k == 0 then []
    else Executed(r, w, fd, d, k - 1) +
         Filter(PopBy(r.states[k - 1], r.steps[k - 1], w), KeyOf(r.states[k - 1].ops), (fd, d))
  }

  /** The operations started but not yet executed: those ready, then those waiting. */
  function Pending(s: State, w: WaiterId, fd: int, d: Direction): seq<OpId> {
    Filter(ReadyAtWaiter(s, w), KeyOf(s.ops), (fd, d)) + Q(s.mux, fd, d)
  }

  lemma {:induction false} FilterAgree(a: seq<OpId>, key: map<OpId, Key>, key': map<OpId, Key>, k: Key)
    requires forall i :: 0 <= i < |a| ==> (a[i] in key <==> a[i] in key') && (a[i] in key ==> key[a[i]] == key'[a[i]])
    ensures Filter(a, key, k) == Filter(a, key', k)
  {
    if a != [] {
      assert forall i :: 0 <= i < |a[1..]| ==> a[1..][i] == a[i + 1];
      FilterAgree(a[1..], key, key', k);
    }
  }

  lemma KeysStay(s: State, step: Step, a: seq<OpId>, k: Key)
    requires Inv(s) && Enabled(s, step)
    requires forall i :: 0 <= i < |a| ==> a[i] in s.ops && s.ops[a[i]].phase != Attempted
    ensures Filter(a, KeyOf(s.ops), k) == Filter(a, KeyOf(Apply(s, step).ops), k)
  {
    forall i | 0 <= i < |a| ensures a[i] in Apply(s, step).ops && Later(s.ops[a[i]], Apply(s, step).ops[a[i]]) {
      LaterStep(s, step, a[i]);
    }
    FilterAgree(a, KeyOf(s.ops), KeyOf(Apply(s, step).ops), k);
  }

  lemma ReadyHasPhase(s: State, w: WaiterId)
    requires WaitersHold(s)
    ensures forall o :: o in ReadyAtWaiter(s, w) ==> HasPhase(s, o, Ready(w))
  {
  }

  /** The step belongs to no other waiter. */
  predicate OnlyWaiter(step: Step, w: WaiterId) {
    (step.Snapshot? || step.PollReturn? || step.PollThrow? || step.DispatchEvents? || step.Pop? || step.Return? ||
     step.Finish?)
    ==> step.w == w
  }

  lemma FifoDispatch(s: State, step: Step, w: WaiterId, fd: int, d: Direction)
    requires Structured(s) && Keyed(s.mux, KeyOf(s.ops))
    requires Enabled(s, step) && step.DispatchEvents? && step.w == w && Apply(s, step).fault.NoFault?
    ensures Pending(Apply(s, step), w, fd, d) == Pending(s, w, fd, d)
  {
    var evs := s.waiters[w].events;
    DispatchShape(s, step);
    KeysOfReady(s.ops, MadeReady(s.mux, evs), w);
    PendingAfter(s, Apply(s, step), w, evs, fd, d);
  }

  lemma PendingAfter(s: State, s': State, w: WaiterId, evs: seq<PollFd>, fd: int, d: Direction)
    requires Indexed(s.mux.list, |s.mux.demux|) && Indexed(evs, |s.mux.demux|) && Keyed(s.mux, KeyOf(s.ops))
    requires ReadyAtWaiter(s, w) == [] && KeyOf(s'.ops) == KeyOf(s.ops)
    requires s'.mux == Dispatched(s.mux, evs) && ReadyAtWaiter(s', w) == MadeReady(s.mux, evs)
    ensures Pending(s', w, fd, d) == Pending(s, w, fd, d)
  {
    DispatchConserves(s.mux, evs, KeyOf(s.ops), fd, d);
  }

  lemma FifoReady(s: State, step: Step, w: WaiterId, k: Key)
    requires Inv(s) && Enabled(s, step) && OnlyWaiter(step, w) && !step.DispatchEvents?
    ensures Filter(PopBy(s, step, w), KeyOf(s.ops), k) +
            Filter(ReadyAtWaiter(Apply(s, step), w), KeyOf(Apply(s, step).ops), k) ==
            Filter(ReadyAtWaiter(s, w), KeyOf(s.ops), k)
  {
    var s' := Apply(s, step);
    ReadyStep(s, step, w);
    ReadyKeysStay(s, step, w, ReadyAtWaiter(s', w), k);
    FilterSplit(PopBy(s, step, w), ReadyAtWaiter(s', w), ReadyAtWaiter(s, w), KeyOf(s.ops), KeyOf(s'.ops), k);
  }

  lemma ReadyKeysStay(s: State, step: Step, w: WaiterId, a: seq<OpId>, k: Key)
    requires Inv(s) && Enabled(s, step) && forall o :: o in a ==> o in ReadyAtWaiter(s, w)
    ensures Filter(a, KeyOf(s.ops), k) == Filter(a, KeyOf(Apply(s, step).ops), k)
  {
    ReadyHasPhase(s, w);
    assert forall i :: 0 <= i < |a| ==> a[i] in a && HasPhase(s, a[i], Ready(w));
    KeysStay(s, step, a, k);
  }

  lemma FilterSplit(p: seq<OpId>, rest: seq<OpId>, all: seq<OpId>, key: map<OpId, Key>, key': map<OpId, Key>, k: Key)
    requires p + rest == all && Filter(rest, key, k) == Filter(rest, key', k)
    ensures Filter(p, key, k) + Filter(rest, key', k) == Filter(all, key, k)
  {
    FilterConcat(p, rest, key, k);
  }

  lemma ReadyStep(s: State, step: Step, w: WaiterId)
    requires Enabled(s, step) && OnlyWaiter(step, w) && !step.DispatchEvents?
    ensures PopBy(s, step, w) + ReadyAtWaiter(Apply(s, step), w) == ReadyAtWaiter(s, w)
    ensures forall o :: o in ReadyAtWaiter(Apply(s, step), w) ==> o in ReadyAtWaiter(s, w)
  {
    if w in s.waiters && s.waiters[w].Draining? && step != Finish(w) {
      DrainStep(s, step, w);
    } else {
      assert ReadyAtWaiter(Apply(s, step), w) == [] && ReadyAtWaiter(s, w) == [];
    }
  }

  lemma FifoQueue(s: State, step: Step, fd: int, d: Direction)
    requires Structured(s) && Enabled(s, step) && !step.DispatchEvents?
    ensures Q(Apply(s, step).mux, fd, d) == Q(s.mux, fd, d) + PushTo(s, step, fd, d)
  {
    if step.AddInterest? {
      if s.ops[step.o].handle.fd >= 0 {
        RegisterEffect(s.mux, s.ops[step.o].handle.fd, s.ops[step.o].trigger.d, fd, d);
      }
    } else if step.Push? {
      FifoPush(s, step.o, fd, d);
    } else {
      MuxFrame(s, step);
    }
  }

  lemma FifoPush(s: State, o: OpId, fd: int, d: Direction)
    requires Enabled(s, Push(o))
    ensures Q(Apply(s, Push(o)).mux, fd, d) == Q(s.mux, fd, d) + PushTo(s, Push(o), fd, d)
  {
  }

  /** Sequence arithmetic: popping in front and pushing behind commute with concatenation. */
  lemma Shift<T>(p: seq<T>, ready: seq<T>, ready': seq<T>, q: seq<T>, more: seq<T>)
    requires p + ready' == ready
    ensures p + (ready' + (q + more)) == (ready + q) + more
  {
  }

  lemma FifoStep(s: State, step: Step, w: WaiterId, fd: int, d: Direction)
    requires Inv(s) && Enabled(s, step) && OnlyWaiter(step, w)
    ensures Filter(PopBy(s, step, w), KeyOf(s.ops), (fd, d)) + Pending(Apply(s, step), w, fd, d) ==
            Pending(s, w, fd, d) + PushTo(s, step, fd, d)
  {
    var s', k := Apply(s, step), (fd, d);
    if step.DispatchEvents? {
      FifoDispatchStep(s, step, w, fd, d);
    } else {
      FifoReady(s, step, w, k);
      FifoQueue(s, step, fd, d);
      Shift(Filter(PopBy(s, step, w), KeyOf(s.ops), k), Filter(ReadyAtWaiter(s, w), KeyOf(s.ops), k),
            Filter(ReadyAtWaiter(s', w), KeyOf(s'.ops), k), Q(s.mux, fd, d), PushTo(s, step, fd, d));
    }
  }

  lemma FifoDispatchStep(s: State, step: Step, w: WaiterId, fd: int, d: Direction)
    requires Structured(s) && Keyed(s.mux, KeyOf(s.ops)) && Enabled(s, step) && step.DispatchEvents? && step.w == w
    ensures Filter(PopBy(s, step, w), KeyOf(s.ops), (fd, d)) + Pending(Apply(s, step), w, fd, d) ==
            Pending(s, w, fd, d) + PushTo(s, step, fd, d)
  {
    assert PopBy(s, step, w) == [] && PushTo(s, step, fd, d) == [];
    if Apply(s, step).fault.NoFault? {
      FifoDispatch(s, step, w, fd, d);
    } else {
      FaultChangesNothing(s, step);
      assert Pending(Apply(s, step), w, fd, d) == Pending(s, w, fd, d);
    }
    Neutral(Pending(Apply(s, step), w, fd, d), Pending(s, w, fd, d));
  }

  lemma Neutral<T>(a: seq<T>, b: seq<T>)
    requires a == b
    ensures [] + a == b + []
  {
  }

  lemma FifoStepAt(r: Run, k: nat, w: WaiterId, fd: int, d: Direction)
    requires r.Valid() && k < |r.steps| && OnlyWaiter(r.steps[k], w)
    ensures Filter(PopBy(r.states[k], r.steps[k], w), KeyOf(r.states[k].ops), (fd, d)) +
            Pending(r.states[k + 1], w, fd, d) ==
            Pending(r.states[k], w, fd, d) + PushTo(r.states[k], r.steps[k], fd, d)
  {
    assert r.StepAt(k);
    Reachable(r, k);
    FifoStep(r.states[k], r.steps[k], w, fd, d);
  }

  lemma Append<T>(a: seq<T>, p: seq<T>, x: seq<T>, x': seq<T>, q: seq<T>)
    requires p + x' == x + q
    ensures a + x + q == (a + p) + x'
  {
    assert a + x + q == a + (x + q);
  }

  lemma FifoStart(w: WaiterId, fd: int, d: Direction)
    ensures Pending(Init, w, fd, d) == []
  {
  }

  ghost predicate OnlyWaiterUpTo(r: Run, w: WaiterId, k: nat) {
    k <= |r.steps| && forall i :: 0 <= i < k ==> OnlyWaiter(r.steps[i], w)
  }

  /** What was started is what was executed, then what is ready, then what waits. */
  ghost predicate FifoAt(r: Run, w: WaiterId, fd: int, d: Direction, k: nat)
    requires k <= |r.steps| < |r.states|
  {
    Pushes(r, fd, d, k) == Executed(r, w, fd, d, k) + Pending(r.states[k], w, fd, d)
  }

  lemma FifoZero(r: Run, w: WaiterId, fd: int, d: Direction)
    requires r.Valid()
    ensures FifoAt(r, w, fd, d, 0)
  {
    FifoStart(w, fd, d);
  }

  lemma FifoNext(r: Run, w: WaiterId, fd: int, d: Direction, k: nat)
    requires r.Valid() && 0 < k <= |r.steps| && OnlyWaiter(r.steps[k - 1], w) && FifoAt(r, w, fd, d, k - 1)
    ensures FifoAt(r, w, fd, d, k)
  {
    var s, step, s' := r.states[k - 1], r.steps[k - 1], r.states[k];
    FifoStepAt(r, k - 1, w, fd, d);
    Append(Executed(r, w, fd, d, k - 1), Filter(PopBy(s, step, w), KeyOf(s.ops), (fd, d)),
           Pending(s, w, fd, d), Pending(s', w, fd, d), PushTo(s, step, fd, d));
  }

  /** With one waiter, not nested: what was started on a descriptor and
      direction is what was executed, then what is ready, then what waits. */
  lemma {:induction false} Fifo(r: Run, w: WaiterId, fd: int, d: Direction, k: nat)
    requires r.Valid() && OnlyWaiterUpTo(r, w, k)
    ensures FifoAt(r, w, fd, d, k)
  {
    if k == 0 {
      FifoZero(r, w, fd, d);
    } else {
      Fifo(r, w, fd, d, k - 1);
      FifoNext(r, w, fd, d, k);
    }
  }

  /** So the execution order is a prefix of the start order. */
  lemma FifoPrefix(r: Run, w: WaiterId, fd: int, d: Direction, k: nat)
    requires r.Valid() && OnlyWaiterUpTo(r, w, k)
    ensures Executed(r, w, fd, d, k) <= Pushes(r, fd, d, k)
  {
    Fifo(r, w, fd, d, k);
  }
}
