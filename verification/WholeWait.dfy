/** One wait from its snapshot to its return, over every interleaving: what it
    polls, what it handles given the kernel's answer, what it executes, and what
    it returns. */
module WholeWait {
  import opened Poll
  import opened InterestList
  import opened Demultiplexing
  import opened Protocol
  import opened Conservation
  import opened Order

  /** What a step makes of a waiter that does not end. */
  ghost predicate Moves(s: State, step: Step, w: WaiterId)
    requires w in s.waiters && Enabled(s, step)
  {
    var s' := Apply(s, step);
    w in s'.waiters &&
    match s.waiters[w]
    case Polling(t, snapshot) =>
      s'.waiters[w] == s.waiters[w] ||
      (step.PollReturn? && step.w == w && |step.revents| == |snapshot| &&
       s'.waiters[w] == Reported(t, Reports(WithRevents(snapshot, step.revents))))
    case Reported(t, events) =>
      s'.waiters[w] == s.waiters[w] ||
      (step.DispatchEvents? && step.w == w && s'.waiters[w].Draining? && s'.waiters[w].count == |events|)
    case Draining(t, count, _, _) => s'.waiters[w].Draining? && s'.waiters[w].count == count
  }

  lemma WaiterMoves(s: State, step: Step, w: WaiterId)
    requires Enabled(s, step) && w in s.waiters && step != Finish(w) && step != PollThrow(w)
    ensures Moves(s, step, w)
  {
    if step.DispatchEvents? && step.w == w {
      if Apply(s, step).fault.NoFault? { DispatchShape(s, step); } else { FaultChangesNothing(s, step); }
    } else if !((step.PollReturn? || step.Pop? || step.Return?) && step.w == w) {
      OtherWaiterSame(s, step, w);
    }
  }

  /** How far a wait that began at step `a` has come: `j` is its poll return and
      `i` its dispatch, once they are there. */
  ghost predicate Trace(r: Run, a: int, j: int, i: int, k: int, w: WaiterId)
    requires r.Valid() && 0 <= a < k < |r.states|
  {
    var snapshot := Active(r.states[a].mux.list);
    w in r.states[k].waiters &&
    match r.states[k].waiters[w]
    case Polling(_, l) => l == snapshot
    case Reported(_, events) => Returned(r, a, j, k, w) && events == Reports(WithRevents(snapshot, r.steps[j].revents))
    case Draining(_, count, _, _) =>
      && a < j < i < k && Returned(r, a, j, i, w)
      && r.steps[i].DispatchEvents? && r.steps[i].w == w
      && w in r.states[i].waiters && r.states[i].waiters[w].Reported?
      && r.states[i].waiters[w].events == Reports(WithRevents(snapshot, r.steps[j].revents))
      && count == |r.states[i].waiters[w].events|
  }

  /** The poll of the wait returned at step `j`. */
  ghost predicate Returned(r: Run, a: int, j: int, k: int, w: WaiterId)
    requires r.Valid() && 0 <= a < |r.states|
  {
    && a < j < k <= |r.steps| && r.steps[j].PollReturn? && r.steps[j].w == w
    && |r.steps[j].revents| == |Active(r.states[a].mux.list)|
  }

  lemma {:induction false} TraceTo(r: Run, a: nat, k: nat, w: WaiterId) returns (j: int, i: int)
    requires r.Valid() && a < k < |r.states| && r.steps[a].Snapshot? && r.steps[a].w == w
    requires forall m :: a < m < k ==> r.steps[m] != Finish(w) && r.steps[m] != PollThrow(w)
    ensures Trace(r, a, j, i, k, w)
    decreases k
  {
    assert r.StepAt(k - 1);
    if k == a + 1 {
      j, i := 0, 0;
    } else {
      j, i := TraceTo(r, a, k - 1, w);
      var s, s' := r.states[k - 1], r.states[k];
      WaiterMoves(s, r.steps[k - 1], w);
      if s.waiters[w].Polling? && s'.waiters[w].Reported? { j := k - 1; }
      if s.waiters[w].Reported? && s'.waiters[w].Draining? { i := k - 1; }
    }
  }

  /** The flags with which the kernel releases an operation that waits for a direction. */
  predicate Releases(flags: set<Flag>, d: Direction) {
    match d
    case Read => In in flags || Hup in flags || Err in flags || Nval in flags
    case Write => Out in flags || Err in flags || Nval in flags
  }

  lemma ReleasesSelects(flags: set<Flag>, d: Direction)
    ensures Selects(flags, d) <==> Releases(flags, d)
  {
    assert forall f :: f in flags * {In, Hup, Err, Nval} <==> f in flags && f in {In, Hup, Err, Nval};
    assert forall f :: f in flags * {Out, Err, Nval} <==> f in flags && f in {Out, Err, Nval};
    if Selects(flags, d) {
      var f :| f in flags && f in (if d == Read then {In, Hup, Err, Nval} else {Out, Err, Nval});
    }
    if Releases(flags, d) {
      var f :| f in flags && f in (if d == Read then {In, Hup, Err, Nval} else {Out, Err, Nval});
    }
  }

  /** The kernel answered for the descriptor of a polled entry with flags that
      release the direction. */
  ghost predicate AnsweredFor(l: seq<PollFd>, revents: seq<set<Flag>>, fd: int, d: Direction) {
    exists n :: 0 <= n < |l| == |revents| && l[n].fd == fd && Releases(revents[n], d)
  }

  lemma AnsweredSelects(l: seq<PollFd>, revents: seq<set<Flag>>, fd: int, d: Direction)
    requires |l| == |revents|
    ensures Selected(Reports(WithRevents(l, revents)), fd, d) <==> AnsweredFor(l, revents, fd, d)
  {
    var evs := Reports(WithRevents(l, revents));
    if Selected(evs, fd, d) {
      var i :| 0 <= i < |evs| && evs[i].fd == fd && Selects(evs[i].revents, d);
      ReportsExactly(l, revents, evs[i]);
      var n :| AnsweredAs(l, revents, n, evs[i]);
      ReleasesSelects(revents[n], d);
    }
    if n :| 0 <= n < |l| == |revents| && l[n].fd == fd && Releases(revents[n], d) {
      var ev := PollFd(l[n].fd, l[n].events, revents[n]);
      ReleasesSelects(revents[n], d);
      assert AnsweredAs(l, revents, n, ev);
      ReportsExactly(l, revents, ev);
      var i :| 0 <= i < |evs| && evs[i] == ev;
    }
  }

  /** The snapshot, its poll return and its dispatch, of a wait that returns. */
  ghost predicate Wait(r: Run, a: int, j: int, i: int, k: int, w: WaiterId)
    requires r.Valid()
  {
    && 0 <= a < j < i < k < |r.steps|
    && r.steps[a].Snapshot? && r.steps[a].w == w
    && r.steps[j].PollReturn? && r.steps[j].w == w
    && r.steps[i].DispatchEvents? && r.steps[i].w == w
    && r.steps[k] == Finish(w)
    && (forall m :: a < m < k ==> r.steps[m] != Finish(w) && r.steps[m] != PollThrow(w))
  }

  /** A wait that returns has a poll return and a dispatch. */
  lemma WaitParts(r: Run, a: nat, k: nat, w: WaiterId) returns (j: nat, i: nat)
    requires r.Valid() && a < k < |r.steps| && r.steps[a].Snapshot? && r.steps[a].w == w && r.steps[k] == Finish(w)
    requires forall m :: a < m < k ==> r.steps[m] != Finish(w) && r.steps[m] != PollThrow(w)
    ensures Wait(r, a, j, i, k, w) && Trace(r, a, j, i, k, w) && r.states[k].waiters[w].Draining?
  {
    assert r.StepAt(k);
    var j', i' := TraceTo(r, a, k, w);
    j, i := j', i';
  }

  /** What a wait polls, handles, returns and executes: exactly the entries with
      interest when it began are polled, exactly those the kernel answered for
      are handled, ascending and with the kernel's flags, their number is what
      it returns, and it executes what waited on them, in that order. */
  lemma WaitHandles(r: Run, a: nat, k: nat, w: WaiterId) returns (j: nat, i: nat)
    requires r.Valid() && a < k < |r.steps| && r.steps[a].Snapshot? && r.steps[a].w == w && r.steps[k] == Finish(w)
    requires forall m :: a < m < k ==> r.steps[m] != Finish(w) && r.steps[m] != PollThrow(w)
    ensures Wait(r, a, j, i, k, w)
    ensures w in r.states[j].waiters && r.states[j].waiters[w].Polling?
    ensures w in r.states[i].waiters && r.states[i].waiters[w].Reported?
    ensures w in r.states[k].waiters && r.states[k].waiters[w].Draining?
    ensures var polled, revents, handled := r.states[j].waiters[w].snapshot, r.steps[j].revents,
            r.states[i].waiters[w].events;
            && Sorted(polled) && |polled| == |revents| && Sorted(handled)
            && (forall e :: e in polled <==> e in r.states[a].mux.list && e.events != {})
            && (forall ev :: ev in handled <==> exists n :: AnsweredAs(polled, revents, n, ev))
            && r.states[k].waiters[w].count == |Answered(revents)|
            && InTable(r.states[i].mux, handled)
            && PopsBy(r, w, i + 1, k) == ReadyOf(r.states[i].mux, handled)
  {
    j, i := WaitParts(r, a, k, w);
    PolledAt(r, a, j, w);
    DrainExact(r, w, i, k);
    Reachable(r, a);
    Reachable(r, i);
    assert r.StepAt(j);
    var polled, revents := Active(r.states[a].mux.list), r.steps[j].revents;
    ActiveSorted(r.states[a].mux.list);
    forall e ensures e in polled <==> e in r.states[a].mux.list && e.events != {} {
      ActiveMembers(r.states[a].mux.list, e);
    }
    forall ev ensures ev in Reports(WithRevents(polled, revents)) <==> exists n :: AnsweredAs(polled, revents, n, ev) {
      ReportsExactly(polled, revents, ev);
    }
    ReportsCount(polled, revents);
  }

  /** The order of what is executed: event by event, the writers that waited on
      the descriptor if its flags release writers, then the readers likewise. */
  lemma ReadyInOrder<T, H>(m: Mux<T, H>, evs: seq<PollFd>)
    requires InTable(m, evs)
    ensures evs == [] ==> ReadyOf(m, evs) == []
    ensures evs != [] ==>
              var n, ev := |evs| - 1, evs[|evs| - 1];
              ReadyOf(m, evs) ==
              ReadyOf(m, evs[..n]) + (if Releases(ev.revents, Write) then Q(m, ev.fd, Write) else [])
                                   + (if Releases(ev.revents, Read) then Q(m, ev.fd, Read) else [])
  {
    if evs != [] {
      var n, ev := |evs| - 1, evs[|evs| - 1];
      ReleasesSelects(ev.revents, Write);
      ReleasesSelects(ev.revents, Read);
      var a, b := if Releases(ev.revents, Write) then Q(m, ev.fd, Write) else [],
                  if Releases(ev.revents, Read) then Q(m, ev.fd, Read) else [];
      assert Moved(m.demux[ev.fd], ev.revents) == a + b;
      assert ReadyOf(m, evs[..n]) + (a + b) == (ReadyOf(m, evs[..n]) + a) + b;
    }
  }

  /** Until its poll returns a wait holds its snapshot. */
  lemma PolledAt(r: Run, a: nat, j: nat, w: WaiterId)
    requires r.Valid() && a < j < |r.steps| && r.steps[a].Snapshot? && r.steps[a].w == w
    requires r.steps[j].PollReturn? && r.steps[j].w == w
    requires forall m :: a < m < j ==> r.steps[m] != Finish(w) && r.steps[m] != PollThrow(w)
    ensures w in r.states[j].waiters && r.states[j].waiters[w].Polling?
    ensures r.states[j].waiters[w].snapshot == Active(r.states[a].mux.list)
  {
    var j', i' := TraceTo(r, a, j, w);
    assert r.StepAt(j);
  }

  /** What a wait executes, whatever happens meanwhile: exactly the operations
      that waited, when its dispatch began, on a descriptor and for a direction
      that the kernel answered for, each completed before the wait returns. */
  lemma WaitExecutes(r: Run, a: nat, k: nat, w: WaiterId, o: OpId) returns (j: nat, i: nat)
    requires r.Valid() && a < k < |r.steps| && r.steps[a].Snapshot? && r.steps[a].w == w && r.steps[k] == Finish(w)
    requires forall m :: a < m < k ==> r.steps[m] != Finish(w) && r.steps[m] != PollThrow(w)
    ensures Wait(r, a, j, i, k, w)
    ensures w in r.states[j].waiters && r.states[j].waiters[w].Polling?
    ensures o in PopsBy(r, w, i + 1, k) <==>
            HasPhase(r.states[i], o, Queued) && r.states[i].ops[o].trigger.On? &&
            AnsweredFor(r.states[j].waiters[w].snapshot, r.steps[j].revents,
                        r.states[i].ops[o].handle.fd, r.states[i].ops[o].trigger.d)
    ensures o in PopsBy(r, w, i + 1, k) ==> HasPhase(r.states[k], o, Done)
  {
    j, i := WaitParts(r, a, k, w);
    PolledAt(r, a, j, w);
    DrainExact(r, w, i, k);
    Reachable(r, i);
    var s := r.states[i];
    DispatchReady(s.mux, s.waiters[w].events);
    DispatchMoves(s, s.waiters[w].events, o);
    if HasPhase(s, o, Queued) {
      AnsweredSelects(r.states[j].waiters[w].snapshot, r.steps[j].revents, s.ops[o].handle.fd, s.ops[o].trigger.d);
    }
  }
}
