/** What every step of the protocol keeps: where operations are, what the
    interest list and the snapshots index, and how queues are wired to sockets. */
module Conservation {
  import opened Poll
  import opened InterestList
  import opened Demultiplexing
  import opened Protocol

  // --- Index structure ---

  ghost predicate Structured(s: State) {
    && Indexed(s.mux.list, |s.mux.demux|)
    && (forall w :: w in s.waiters && s.waiters[w].Polling? ==> Indexed(s.waiters[w].snapshot, |s.mux.demux|))
    && (forall w :: w in s.waiters && s.waiters[w].Reported? ==> Indexed(s.waiters[w].events, |s.mux.demux|))
  }

  lemma ActiveIndexed(l: seq<PollFd>, size: nat)
    requires Indexed(l, size)
    ensures Indexed(Active(l), size)
  {
    ActiveSorted(l);
    forall i | 0 <= i < |Active(l)| ensures 0 <= Active(l)[i].fd < size {
      ActiveMembers(l, Active(l)[i]);
    }
  }

  lemma {:induction false} ReportsMembers(l: seq<PollFd>, e: PollFd)
    ensures e in Reports(l) <==> e in l && e.revents != {}
  {
    if l != [] { ReportsMembers(l[1..], e); }
  }

  lemma {:induction false} ReportsAppend(a: seq<PollFd>, e: PollFd)
    ensures Reports(a + [e]) == Reports(a) + if e.revents != {} then [e] else []
  {
    if a == [] {
      assert [e][1..] == [];
    } else {
      var h, t := if a[0].revents != {} then [a[0]] else [], if e.revents != {} then [e] else [];
      assert (a + [e])[0] == a[0] && (a + [e])[1..] == a[1..] + [e];
      ReportsAppend(a[1..], e);
      assert h + (Reports(a[1..]) + t) == (h + Reports(a[1..])) + t;
    }
  }

  /** The kernel answered for entry `i`, and this is the entry with its flags. */
  predicate AnsweredAs(l: seq<PollFd>, revents: seq<set<Flag>>, i: int, ev: PollFd) {
    0 <= i < |l| == |revents| && revents[i] != {} && ev == PollFd(l[i].fd, l[i].events, revents[i])
  }

  /** The entries the kernel answered for. */
  function Answered(revents: seq<set<Flag>>): set<int> {
    set i | 0 <= i < |revents| && revents[i] != {}
  }

  /** A report holds the entries the kernel answered for, with its flags. */
  lemma ReportsExactly(l: seq<PollFd>, revents: seq<set<Flag>>, ev: PollFd)
    requires |l| == |revents|
    ensures ev in Reports(WithRevents(l, revents)) <==> exists i :: AnsweredAs(l, revents, i, ev)
  {
    var a := WithRevents(l, revents);
    ReportsMembers(a, ev);
    if ev in a && ev.revents != {} {
      var i :| 0 <= i < |a| && a[i] == ev;
      assert AnsweredAs(l, revents, i, ev);
    }
    if i :| AnsweredAs(l, revents, i, ev) { assert a[i] == ev; }
  }

  /** As many as there are answers. */
  lemma ReportsCount(l: seq<PollFd>, revents: seq<set<Flag>>)
    requires |l| == |revents|
    ensures |Reports(WithRevents(l, revents))| == |Answered(revents)|
  {
    FlaggedCount(WithRevents(l, revents));
    assert Flagged(WithRevents(l, revents)) == Answered(revents);
  }

  function Flagged(a: seq<PollFd>): set<int> {
    set i | 0 <= i < |a| && a[i].revents != {}
  }

  lemma {:induction false} FlaggedCount(a: seq<PollFd>)
    ensures |Reports(a)| == |Flagged(a)|
  {
    if a == [] {
      assert Flagged(a) == {};
    } else {
      var n := |a| - 1;
      FlaggedCount(a[..n]);
      assert a == a[..n] + [a[n]];
      ReportsAppend(a[..n], a[n]);
      assert Flagged(a) == Flagged(a[..n]) + if a[n].revents != {} then {n} else {};
    }
  }

  lemma {:induction false} ReportsIndexed(l: seq<PollFd>, size: nat)
    requires Indexed(l, size)
    ensures Indexed(Reports(l), size)
  {
    if l != [] {
      IndexedTail(l, size);
      ReportsIndexed(l[1..], size);
      var t := Reports(l[1..]);
      forall e | e in t ensures l[0].fd < e.fd { ReportsMembers(l[1..], e); }
      if l[0].revents != {} { IndexedCons(l[0], t, size); }
    }
  }

  /** The rest of an indexed list is indexed and lies above its head. */
  lemma IndexedTail(l: seq<PollFd>, size: nat)
    requires Indexed(l, size) && l != []
    ensures Indexed(l[1..], size) && forall e :: e in l[1..] ==> l[0].fd < e.fd
  {
    assert forall i :: 0 <= i < |l[1..]| ==> l[1..][i] == l[i + 1];
  }

  lemma IndexedCons(x: PollFd, t: seq<PollFd>, size: nat)
    requires Indexed(t, size) && 0 <= x.fd < size && forall e :: e in t ==> x.fd < e.fd
    ensures Indexed([x] + t, size)
  {
  }

  /** The demultiplexer table never shrinks, so outstanding snapshots stay valid. */
  lemma DemuxGrows(s: State, step: Step)
    requires Enabled(s, step)
    ensures |s.mux.demux| <= |Apply(s, step).mux.demux|
  {
  }

  /** A larger table keeps every snapshot and report valid. */
  lemma StructuredWaiters(s: State, s': State, w: WaiterId)
    requires Structured(s) && |s.mux.demux| <= |s'.mux.demux| && Indexed(s'.mux.list, |s'.mux.demux|)
    requires forall x :: x in s'.waiters && x != w ==> x in s.waiters && s'.waiters[x] == s.waiters[x]
    requires w in s'.waiters ==>
               (w in s.waiters && s'.waiters[w] == s.waiters[w]) || s'.waiters[w].Draining? ||
               (s'.waiters[w].Polling? && Indexed(s'.waiters[w].snapshot, |s'.mux.demux|)) ||
               (s'.waiters[w].Reported? && Indexed(s'.waiters[w].events, |s'.mux.demux|))
    ensures Structured(s')
  {
  }

  lemma StructuredList(s: State, step: Step)
    requires Structured(s) && Enabled(s, step)
    ensures Indexed(Apply(s, step).mux.list, |Apply(s, step).mux.demux|)
  {
    match step
    case AddInterest(o) =>
      if s.ops[o].handle.fd >= 0 { RegisterEffect(s.mux, s.ops[o].handle.fd, s.ops[o].trigger.d, 0, Read); }
    case DispatchEvents(w, _) => DispatchInterest(s.mux, s.waiters[w].events, 0, Read);
    case Push(_) =>
    case _ => MuxFrame(s, step);
  }

  /** The waiter a step belongs to. */
  function WaiterOf(step: Step): WaiterId {
    if step.Snapshot? || step.PollReturn? || step.PollThrow? || step.DispatchEvents? || step.Pop? || step.Return? ||
      step.Finish?
    then step.w else 0
  }

  lemma OtherWaiters(s: State, step: Step)
    requires Enabled(s, step)
    ensures forall x :: x in Apply(s, step).waiters && x != WaiterOf(step) ==>
              x in s.waiters && Apply(s, step).waiters[x] == s.waiters[x]
  {
  }

  /** A step of another waiter, or of none, leaves a waiter as it is. */
  lemma OtherWaiterSame(s: State, step: Step, w: WaiterId)
    requires Enabled(s, step) && w in s.waiters
    requires !((step.Snapshot? || step.PollReturn? || step.PollThrow? || step.DispatchEvents? || step.Pop? ||
                step.Return? || step.Finish?) && step.w == w)
    ensures w in Apply(s, step).waiters && Apply(s, step).waiters[w] == s.waiters[w]
  {
  }

  lemma ReportIndexed(l: seq<PollFd>, revents: seq<set<Flag>>, size: nat)
    requires |l| == |revents| && Indexed(l, size)
    ensures Indexed(Reports(WithRevents(l, revents)), size)
  {
    ReportsIndexed(WithRevents(l, revents), size);
  }

  lemma OwnWaiter(s: State, step: Step)
    requires Structured(s) && Enabled(s, step) && WaiterOf(step) in Apply(s, step).waiters
    ensures var w, s' := WaiterOf(step), Apply(s, step);
            (w in s.waiters && s'.waiters[w] == s.waiters[w]) || s'.waiters[w].Draining? ||
            (s'.waiters[w].Polling? && Indexed(s'.waiters[w].snapshot, |s.mux.demux|)) ||
            (s'.waiters[w].Reported? && Indexed(s'.waiters[w].events, |s.mux.demux|))
  {
    if step.Snapshot? {
      ActiveIndexed(s.mux.list, |s.mux.demux|);
    } else if step.PollReturn? {
      ReportIndexed(s.waiters[step.w].snapshot, step.revents, |s.mux.demux|);
    } else {
      OwnWaiterDrains(s, step);
    }
  }

  lemma OwnWaiterDrains(s: State, step: Step)
    requires Enabled(s, step) && WaiterOf(step) in Apply(s, step).waiters && !step.Snapshot? && !step.PollReturn?
    ensures var w, s' := WaiterOf(step), Apply(s, step);
            (w in s.waiters && s'.waiters[w] == s.waiters[w]) || s'.waiters[w].Draining?
  {
  }

  lemma StructuredStep(s: State, step: Step)
    requires Structured(s) && Enabled(s, step)
    ensures Structured(Apply(s, step))
  {
    var s', w := Apply(s, step), WaiterOf(step);
    DemuxGrows(s, step);
    StructuredList(s, step);
    OtherWaiters(s, step);
    if w in s'.waiters { OwnWaiter(s, step); }
    StructuredWaiters(s, s', w);
  }

  // --- Places ---

  /** The queue an operation waits in, when it waits. */
  function KeyOf(ops: map<OpId, Op>): map<OpId, Key> {
    map o | o in ops && ops[o].trigger.On? :: (ops[o].handle.fd, ops[o].trigger.d)
  }

  ghost predicate QueuesHold(s: State) {
    && Keyed(s.mux, KeyOf(s.ops))
    && (forall fd, d, i :: 0 <= i < |Q(s.mux, fd, d)| ==> HasPhase(s, Q(s.mux, fd, d)[i], Queued))
    && (forall o :: HasPhase(s, o, Queued) ==>
        s.ops[o].trigger.On? && o in Q(s.mux, s.ops[o].handle.fd, s.ops[o].trigger.d))
  }

  ghost predicate WaitersHold(s: State) {
    && (forall w :: w in s.waiters && s.waiters[w].Draining? ==>
          && Distinct(s.waiters[w].ready)
          && (forall i :: 0 <= i < |s.waiters[w].ready| ==> HasPhase(s, s.waiters[w].ready[i], Ready(w)))
          && (s.waiters[w].current.Some? ==>
                HasPhase(s, s.waiters[w].current.value, Running) || HasPhase(s, s.waiters[w].current.value, Done)))
    && (forall o :: o in s.ops && s.ops[o].phase.Ready? ==>
          var w := s.ops[o].phase.w; w in s.waiters && s.waiters[w].Draining? && o in s.waiters[w].ready)
  }

  /** The receiver of the operation has been signalled. */
  ghost predicate Signalled(s: State, o: OpId) {
    exists i :: 0 <= i < |s.signals| && s.signals[i].op == o
  }

  ghost predicate SignalsHold(s: State) {
    && (forall o :: o in s.running <==> HasPhase(s, o, Running))
    && (forall i :: 0 <= i < |s.signals| ==> HasPhase(s, s.signals[i].op, Done))
    && (forall i, j :: 0 <= i < j < |s.signals| ==> s.signals[i].op != s.signals[j].op)
    && (forall o :: HasPhase(s, o, Done) ==> Signalled(s, o))
  }

  /** How an operation's own fields agree with its phase and with the table. */
  ghost predicate OpWired(s: State, op: Op) {
    && (op.demux.Some? ==> op.demux.value == op.handle.fd < |s.mux.demux| && op.trigger.On?)
    && (op.phase in {Attempted, Registering, Enqueuing, Queued} ==> op.trigger.On?)
    && (op.phase == Queued ==> op.demux.Some?)
    && (op.phase in {Attempted, Made, Registering} ==> op.demux.None?)
  }

  ghost predicate Wired(s: State) {
    && (forall o :: o in s.ops ==> OpWired(s, s.ops[o]))
    && (forall i :: 0 <= i < |s.mux.demux| && s.mux.demux[i].socket.Some? ==> s.mux.demux[i].socket.value.fd == i)
    // the socket pointer of a descriptor with waiting operations is their handle
    && (forall o :: HasPhase(s, o, Queued) ==> s.mux.demux[s.ops[o].handle.fd].socket == Some(s.ops[o].handle))
  }

  ghost predicate Inv(s: State) {
    Structured(s) && QueuesHold(s) && WaitersHold(s) && SignalsHold(s) && Wired(s)
  }

  // --- Steps that change one operation and no queue ---

  ghost predicate OnlyOp(s: State, s': State, o: OpId) {
    s'.ops.Keys == s.ops.Keys + {o} && forall x :: x in s.ops && x != o ==> s'.ops[x] == s.ops[x]
  }

  /** The operation a step advances. */
  function OpOf(s: State, step: Step): Option<OpId> {
    match step
    case Create(o, _, _, _) => Some(o)
    case Classify(o) => Some(o)
    case ConnectCheck(o) => Some(o)
    case AddInterest(o) => Some(o)
    case StartCheck(o) => Some(o)
    case Push(o) => Some(o)
    case Complete(o, _) => Some(o)
    case Pop(w) =>
      if w in s.waiters && s.waiters[w].Draining? && s.waiters[w].ready != [] then Some(s.waiters[w].ready[0]) else None
    case _ => None
  }

  lemma StepChangesOneOp(s: State, step: Step)
    requires Enabled(s, step) && !step.DispatchEvents?
    ensures var s' := Apply(s, step);
            match OpOf(s, step)
            case Some(o) => s'.fault.NoFault? ==> OnlyOp(s, s', o)
            case None => s'.ops == s.ops
  {
    if step.Create? {
      CreateChangesOneOp(s, step.o, step.kind, step.h, step.result);
    } else if step.Complete? {
      if Apply(s, step).fault.NoFault? { var out := CompleteSignals(s, step.o, step.result); }
    }
  }

  lemma CreateChangesOneOp(s: State, o: OpId, kind: Kind, h: Handle, r: SysResult)
    requires o !in s.ops
    ensures OnlyOp(s, ApplyCreate(s, o, kind, h, r), o)
  {
  }

  /** A completion that does not fault signals its own receiver, once. */
  lemma CompleteSignals(s: State, o: OpId, r: SysResult) returns (out: Outcome)
    requires Enabled(s, Complete(o, r)) && Apply(s, Complete(o, r)).fault.NoFault?
    ensures var s', e, f := Apply(s, Complete(o, r)), ErrorOf(s, s.ops[o].handle), s.ops[o].func;
            && OnlyOp(s, s', o) && s'.ops[o].phase == Done
            && s'.signals == s.signals + [Signal(o, out)] && s'.running == s.running - {o}
            && out == (if e != 0 && e != EAGAIN then Error(e)
                       else if f.Const? then Value(f.v)
                       else if r.Success? then Value(r.v) else Error(r.errno))
  {
    var error := ErrorOf(s, s.ops[o].handle);
    out := if Failing(error) then Error(error)
           else if s.ops[o].func.Const? then Value(s.ops[o].func.v)
           else if r.Success? then Value(r.v) else Error(r.errno);
  }

  lemma QueuesFrame(s: State, s': State, o: OpId)
    requires QueuesHold(s) && OnlyOp(s, s', o)
    requires forall fd, d :: Q(s'.mux, fd, d) == Q(s.mux, fd, d)
    requires !HasPhase(s, o, Queued) && !HasPhase(s', o, Queued)
    ensures QueuesHold(s')
  {
  }

  lemma QueuesPush(s: State, o: OpId)
    requires Inv(s) && Enabled(s, Push(o)) && s.ops[o].demux.Some?
    ensures QueuesHold(Apply(s, Push(o)))
  {
    var op := s.ops[o];
    assert OpWired(s, op);
    EnqueueEffect(s.mux, op.demux.value, op.trigger.d, o, op.handle);
    QueuesAppend(s, Apply(s, Push(o)), o);
  }

  /** One operation joins the end of its queue. */
  lemma QueuesAppend(s: State, s': State, o: OpId)
    requires QueuesHold(s) && o in s.ops && s.ops[o].trigger.On? && s.ops[o].phase != Queued
    requires s'.ops == s.ops[o := s.ops[o].(phase := Queued)]
    requires forall fd, d :: Q(s'.mux, fd, d) ==
               if (fd, d) == (s.ops[o].handle.fd, s.ops[o].trigger.d) then Q(s.mux, fd, d) + [o] else Q(s.mux, fd, d)
    ensures QueuesHold(s')
  {
    KeysOfPhase(s.ops, o, Queued);
    forall fd, d
      ensures Distinct(Q(s'.mux, fd, d))
      ensures forall i :: 0 <= i < |Q(s'.mux, fd, d)| ==> AppendedAt(s', fd, d, i)
    {
      AppendedQueue(s, s', o, fd, d);
    }
    AppendedKeyed(s');
    forall x | HasPhase(s', x, Queued)
      ensures s'.ops[x].trigger.On? && x in Q(s'.mux, s'.ops[x].handle.fd, s'.ops[x].trigger.d)
    {
      AppendedMember(s, s', o, x);
    }
  }

  lemma AppendedKeyed(s: State)
    requires forall fd, d :: Distinct(Q(s.mux, fd, d))
    requires forall fd, d :: forall i :: 0 <= i < |Q(s.mux, fd, d)| ==> AppendedAt(s, fd, d, i)
    ensures Keyed(s.mux, KeyOf(s.ops))
    ensures forall fd, d, i :: 0 <= i < |Q(s.mux, fd, d)| ==> HasPhase(s, Q(s.mux, fd, d)[i], Queued)
  {
    forall fd, d, i | 0 <= i < |Q(s.mux, fd, d)|
      ensures HasPhase(s, Q(s.mux, fd, d)[i], Queued)
      ensures Q(s.mux, fd, d)[i] in KeyOf(s.ops) && KeyOf(s.ops)[Q(s.mux, fd, d)[i]] == (fd, d)
    {
      assert AppendedAt(s, fd, d, i);
    }
  }

  lemma AppendedMember(s: State, s': State, o: OpId, x: OpId)
    requires QueuesHold(s) && o in s.ops && s.ops[o].trigger.On?
    requires s'.ops == s.ops[o := s.ops[o].(phase := Queued)] && HasPhase(s', x, Queued)
    requires forall fd, d :: Q(s'.mux, fd, d) ==
               if (fd, d) == (s.ops[o].handle.fd, s.ops[o].trigger.d) then Q(s.mux, fd, d) + [o] else Q(s.mux, fd, d)
    ensures s'.ops[x].trigger.On? && x in Q(s'.mux, s'.ops[x].handle.fd, s'.ops[x].trigger.d)
  {
  }

  lemma KeysOfPhase(ops: map<OpId, Op>, o: OpId, phase: Phase)
    requires o in ops
    ensures KeyOf(ops[o := ops[o].(phase := phase)]) == KeyOf(ops)
  {
  }

  ghost predicate AppendedAt(s: State, fd: int, d: Direction, i: int)
    requires 0 <= i < |Q(s.mux, fd, d)|
  {
    var x := Q(s.mux, fd, d)[i];
    HasPhase(s, x, Queued) && x in KeyOf(s.ops) && KeyOf(s.ops)[x] == (fd, d)
  }

  lemma AppendedQueue(s: State, s': State, o: OpId, fd: int, d: Direction)
    requires QueuesHold(s) && o in s.ops && s.ops[o].trigger.On? && s.ops[o].phase != Queued
    requires s'.ops == s.ops[o := s.ops[o].(phase := Queued)]
    requires Q(s'.mux, fd, d) ==
             if (fd, d) == (s.ops[o].handle.fd, s.ops[o].trigger.d) then Q(s.mux, fd, d) + [o] else Q(s.mux, fd, d)
    ensures Distinct(Q(s'.mux, fd, d))
    ensures forall i :: 0 <= i < |Q(s'.mux, fd, d)| ==> AppendedAt(s', fd, d, i)
  {
  }

  lemma QueuedIff(s: State, o: OpId)
    requires QueuesHold(s) && o in s.ops && s.ops[o].trigger.On?
    ensures o in Q(s.mux, s.ops[o].handle.fd, s.ops[o].trigger.d) <==> HasPhase(s, o, Queued)
  {
  }

  /** Exactly the operations of the selected queues become ready. */
  lemma DispatchMoves(s: State, evs: seq<PollFd>, o: OpId)
    requires QueuesHold(s) && Indexed(evs, |s.mux.demux|)
    ensures o in MadeReady(s.mux, evs) <==>
            HasPhase(s, o, Queued) && Selected(evs, s.ops[o].handle.fd, s.ops[o].trigger.d)
  {
    var key := KeyOf(s.ops);
    if o in key {
      var fd, d := s.ops[o].handle.fd, s.ops[o].trigger.d;
      DispatchFilter(s.mux, evs, key, fd, d);
      FilterHas(MadeReady(s.mux, evs), key, (fd, d), o);
      QueuedIff(s, o);
    } else {
      if o in MadeReady(s.mux, evs) { ReadyLeft(s.mux, evs, key, o); }
      assert HasPhase(s, o, Queued) ==> o in key;
    }
  }

  lemma QueuesDispatch(s: State, w: WaiterId, e: seq<int>)
    requires Inv(s) && Enabled(s, DispatchEvents(w, e)) && DispatchFault(s, s.waiters[w].events).NoFault?
    ensures QueuesHold(Apply(s, DispatchEvents(w, e)))
  {
    QueuesReady(s, Apply(s, DispatchEvents(w, e)), w, s.waiters[w].events);
  }

  lemma QueuesReady(s: State, s': State, w: WaiterId, evs: seq<PollFd>)
    requires QueuesHold(s) && Indexed(s.mux.list, |s.mux.demux|) && Indexed(evs, |s.mux.demux|)
    requires s'.mux == Dispatched(s.mux, evs) && s'.ops == MakeReady(s.ops, MadeReady(s.mux, evs), w)
    ensures QueuesHold(s')
  {
    forall fd, d ensures Q(s'.mux, fd, d) == if Selected(evs, fd, d) then [] else Q(s.mux, fd, d) {
      DispatchQueues(s.mux, evs, fd, d);
    }
    forall o
      ensures o in MadeReady(s.mux, evs) <==>
              HasPhase(s, o, Queued) && Selected(evs, s.ops[o].handle.fd, s.ops[o].trigger.d)
    {
      DispatchMoves(s, evs, o);
    }
    KeysOfReady(s.ops, MadeReady(s.mux, evs), w);
    QueuesShrink(s, s', w, evs, MadeReady(s.mux, evs));
  }

  /** What a dispatch that does not fault does to the state. */
  lemma DispatchShape(s: State, step: Step)
    requires Enabled(s, step) && step.DispatchEvents? && Apply(s, step).fault.NoFault?
    ensures var s', evs := Apply(s, step), s.waiters[step.w].events;
            && s'.mux == Dispatched(s.mux, evs)
            && s'.ops == MakeReady(s.ops, MadeReady(s.mux, evs), step.w)
            && s'.waiters ==
               s.waiters[step.w := Draining(s.waiters[step.w].timeout, |evs|, MadeReady(s.mux, evs), None)]
  {
  }

  lemma KeysOfReady(ops: map<OpId, Op>, ready: seq<OpId>, w: WaiterId)
    ensures KeyOf(MakeReady(ops, ready, w)) == KeyOf(ops)
  {
  }

  /** The selected queues empty, and exactly their operations change phase. */
  lemma QueuesShrink(s: State, s': State, w: WaiterId, evs: seq<PollFd>, ready: seq<OpId>)
    requires QueuesHold(s) && s'.ops == MakeReady(s.ops, ready, w) && KeyOf(s'.ops) == KeyOf(s.ops)
    requires forall fd, d :: Q(s'.mux, fd, d) == if Selected(evs, fd, d) then [] else Q(s.mux, fd, d)
    requires forall o :: o in ready <==> HasPhase(s, o, Queued) && Selected(evs, s.ops[o].handle.fd, s.ops[o].trigger.d)
    ensures QueuesHold(s')
  {
  }

  lemma QueuesRegister(s: State, o: OpId)
    requires Inv(s) && Enabled(s, AddInterest(o))
    ensures QueuesHold(Apply(s, AddInterest(o)))
  {
    var s' := Apply(s, AddInterest(o));
    forall fd, d ensures Q(s'.mux, fd, d) == Q(s.mux, fd, d) {
      if s.ops[o].handle.fd >= 0 {
        RegisterEffect(s.mux, s.ops[o].handle.fd, s.ops[o].trigger.d, fd, d);
      }
    }
    QueuesFrame(s, s', o);
  }

  /** Every step but registering, queueing and dispatching leaves the shared state alone. */
  lemma MuxFrame(s: State, step: Step)
    requires Enabled(s, step) && !step.DispatchEvents? && !step.Push? && !step.AddInterest?
    ensures Apply(s, step).mux == s.mux
  {
  }

  /** How a step can move the program counter of the operation it advances. */
  ghost predicate Advances(s: State, step: Step, o: OpId, p': Phase) {
    && (o in s.ops && s.ops[o].phase.Ready? <==> step.Pop?)
    && (HasPhase(s, o, Running) <==> step.Complete?)
    && !HasPhase(s, o, Queued) && !HasPhase(s, o, Done)
    && !p'.Ready?
    && (p' == Queued <==> step.Push?)
    && (p' == Done <==> step.Complete?)
    && (step.Pop? ==> p' == Running)
    && (p' == Running ==> step.Pop? || step.StartCheck?)
  }

  lemma EarlyPhaseChange(s: State, step: Step, o: OpId)
    requires Enabled(s, step) && OpOf(s, step) == Some(o)
    requires step.Create? || step.Classify? || step.ConnectCheck? || step.AddInterest? || step.StartCheck?
    ensures o in Apply(s, step).ops && Advances(s, step, o, Apply(s, step).ops[o].phase)
  {
    if step.Create? { CreatePhase(s, o, step.kind, step.h, step.result); }
  }

  lemma CreatePhase(s: State, o: OpId, kind: Kind, h: Handle, r: SysResult)
    ensures var s' := ApplyCreate(s, o, kind, h, r);
            o in s'.ops && (s'.ops[o].phase == Made || s'.ops[o].phase == Attempted)
  {
  }

  lemma LatePhaseChange(s: State, step: Step, o: OpId)
    requires Enabled(s, step) && OpOf(s, step) == Some(o) && Apply(s, step).fault.NoFault?
    requires step.Push? || step.Complete? || (step.Pop? && HasPhase(s, o, Ready(step.w)))
    ensures o in Apply(s, step).ops && Advances(s, step, o, Apply(s, step).ops[o].phase)
  {
  }

  lemma PopsReady(s: State, step: Step)
    requires WaitersHold(s) && Enabled(s, step) && step.Pop?
    ensures HasPhase(s, s.waiters[step.w].ready[0], Ready(step.w))
  {
  }

  /** The same for any step, in a state that satisfies the invariant. */
  lemma StepAdvances(s: State, step: Step, o: OpId)
    requires Inv(s) && Enabled(s, step) && OpOf(s, step) == Some(o) && Apply(s, step).fault.NoFault?
    ensures var s' := Apply(s, step); OnlyOp(s, s', o) && Advances(s, step, o, s'.ops[o].phase)
  {
    StepChangesOneOp(s, step);
    if step.Pop? { PopsReady(s, step); }
    if step.Push? || step.Complete? || step.Pop? {
      LatePhaseChange(s, step, o);
    } else {
      EarlyPhaseChange(s, step, o);
    }
  }

  lemma QueuesStep(s: State, step: Step)
    requires Inv(s) && Enabled(s, step) && Apply(s, step).fault.NoFault?
    ensures QueuesHold(Apply(s, step))
  {
    if step.DispatchEvents? {
      QueuesDispatch(s, step.w, step.soErrors);
    } else if step.Push? {
      QueuesPush(s, step.o);
    } else if step.AddInterest? {
      QueuesRegister(s, step.o);
    } else {
      MuxFrame(s, step);
      StepChangesOneOp(s, step);
      if OpOf(s, step).Some? {
        StepAdvances(s, step, OpOf(s, step).value);
        QueuesFrame(s, Apply(s, step), OpOf(s, step).value);
      }
    }
  }

  lemma WaitersFrame(s: State, s': State, o: OpId)
    requires WaitersHold(s) && OnlyOp(s, s', o) && s'.waiters == s.waiters
    requires (o in s.ops ==> !s.ops[o].phase.Ready?) && !s'.ops[o].phase.Ready?
    requires HasPhase(s, o, Running) || HasPhase(s, o, Done) ==> s'.ops[o].phase == Done
    ensures WaitersHold(s')
  {
  }

  lemma WaitersDispatch(s: State, w: WaiterId, e: seq<int>)
    requires Inv(s) && Enabled(s, DispatchEvents(w, e)) && DispatchFault(s, s.waiters[w].events).NoFault?
    ensures WaitersHold(Apply(s, DispatchEvents(w, e)))
  {
    var evs := s.waiters[w].events;
    var ready := MadeReady(s.mux, evs);
    DispatchDistinct(s.mux, evs, KeyOf(s.ops));
    forall o ensures o in ready ==> HasPhase(s, o, Queued) {
      DispatchMoves(s, evs, o);
    }
    WaitersReady(s, Apply(s, DispatchEvents(w, e)), w, ready);
  }

  lemma WaitersReady(s: State, s': State, w: WaiterId, ready: seq<OpId>)
    requires WaitersHold(s) && w in s.waiters && s.waiters[w].Reported?
    requires Distinct(ready) && forall o :: o in ready ==> HasPhase(s, o, Queued)
    requires s'.ops == MakeReady(s.ops, ready, w)
    requires s'.waiters == s.waiters[w := Draining(s.waiters[w].timeout, |s.waiters[w].events|, ready, None)]
    ensures WaitersHold(s')
  {
    forall w' | w' in s'.waiters && s'.waiters[w'].Draining?
      ensures forall i :: 0 <= i < |s'.waiters[w'].ready| ==> HasPhase(s', s'.waiters[w'].ready[i], Ready(w'))
    {
      forall i | 0 <= i < |s'.waiters[w'].ready| ensures HasPhase(s', s'.waiters[w'].ready[i], Ready(w')) {
        if w' != w {
          assert HasPhase(s, s.waiters[w'].ready[i], Ready(w'));
        } else {
          assert HasPhase(s, ready[i], Queued);
        }
      }
    }
  }

  lemma WaitersPop(s: State, w: WaiterId)
    requires WaitersHold(s) && Enabled(s, Pop(w))
    ensures WaitersHold(Apply(s, Pop(w)))
  {
    var s', ready := Apply(s, Pop(w)), s.waiters[w].ready;
    assert forall i :: 0 <= i < |ready[1..]| ==> ready[1..][i] == ready[i + 1];
    assert HasPhase(s, ready[0], Ready(w));
    forall w' | w' in s'.waiters && s'.waiters[w'].Draining?
      ensures forall i :: 0 <= i < |s'.waiters[w'].ready| ==> HasPhase(s', s'.waiters[w'].ready[i], Ready(w'))
    {
      forall i | 0 <= i < |s'.waiters[w'].ready| ensures HasPhase(s', s'.waiters[w'].ready[i], Ready(w')) {
        if w' != w { assert HasPhase(s, s.waiters[w'].ready[i], Ready(w')); }
        else { assert HasPhase(s, ready[i + 1], Ready(w)); }
      }
    }
  }

  /** The waiter steps that move no operation. */
  lemma WaitersLocal(s: State, step: Step)
    requires WaitersHold(s) && Enabled(s, step)
    requires step.Snapshot? || step.PollReturn? || step.PollThrow? || step.Return? || step.Finish? ||
             step.SetError? || step.Release?
    ensures WaitersHold(Apply(s, step))
  {
    LocalDrains(s, step);
    WaitersCarry(s, Apply(s, step));
  }

  /** Drains keep their ready queues; those that begin or end have none. */
  lemma LocalDrains(s: State, step: Step)
    requires Enabled(s, step)
    requires step.Snapshot? || step.PollReturn? || step.PollThrow? || step.Return? || step.Finish? ||
             step.SetError? || step.Release?
    ensures Apply(s, step).ops == s.ops && DrainsCarry(s, Apply(s, step))
  {
  }

  ghost predicate DrainsCarry(s: State, s': State) {
    && (forall w :: w in s'.waiters && s'.waiters[w].Draining? ==>
          && w in s.waiters && s.waiters[w].Draining? && s'.waiters[w].ready == s.waiters[w].ready
          && (s'.waiters[w].current.None? || s'.waiters[w].current == s.waiters[w].current))
    && (forall w :: w in s.waiters && s.waiters[w].Draining? && s.waiters[w].ready != [] ==>
          w in s'.waiters && s'.waiters[w].Draining?)
  }

  lemma WaitersCarry(s: State, s': State)
    requires WaitersHold(s) && s'.ops == s.ops && DrainsCarry(s, s')
    ensures WaitersHold(s')
  {
    forall w, i | w in s'.waiters && s'.waiters[w].Draining? && 0 <= i < |s'.waiters[w].ready|
      ensures HasPhase(s', s'.waiters[w].ready[i], Ready(w))
    {
      assert HasPhase(s, s.waiters[w].ready[i], Ready(w));
    }
  }

  lemma WaitersStep(s: State, step: Step)
    requires Inv(s) && Enabled(s, step) && Apply(s, step).fault.NoFault?
    ensures WaitersHold(Apply(s, step))
  {
    if step.DispatchEvents? {
      WaitersDispatch(s, step.w, step.soErrors);
    } else if step.Pop? {
      WaitersPop(s, step.w);
    } else if OpOf(s, step).Some? {
      var o := OpOf(s, step).value;
      StepAdvances(s, step, o);
      WaitersOpStep(s, step, o);
    } else {
      WaitersLocal(s, step);
    }
  }

  lemma WaitersSame(s: State, step: Step)
    requires Enabled(s, step) && OpOf(s, step).Some? && !step.Pop?
    ensures Apply(s, step).waiters == s.waiters
  {
  }

  lemma WaitersOpStep(s: State, step: Step, o: OpId)
    requires WaitersHold(s) && Enabled(s, step) && OpOf(s, step) == Some(o) && !step.Pop?
    requires var s' := Apply(s, step); OnlyOp(s, s', o) && Advances(s, step, o, s'.ops[o].phase)
    ensures WaitersHold(Apply(s, step))
  {
    WaitersSame(s, step);
    WaitersFrame(s, Apply(s, step), o);
  }

  lemma SignalsDispatch(s: State, w: WaiterId, e: seq<int>)
    requires Inv(s) && Enabled(s, DispatchEvents(w, e)) && DispatchFault(s, s.waiters[w].events).NoFault?
    ensures SignalsHold(Apply(s, DispatchEvents(w, e)))
  {
    var s' := Apply(s, DispatchEvents(w, e));
    forall o ensures o in MadeReady(s.mux, s.waiters[w].events) ==> HasPhase(s, o, Queued) {
      DispatchMoves(s, s.waiters[w].events, o);
    }
    forall o | HasPhase(s', o, Done) ensures Signalled(s', o) {
      assert Signalled(s, o);
    }
  }

  lemma SignalsComplete(s: State, s': State, o: OpId, out: Outcome)
    requires SignalsHold(s) && HasPhase(s, o, Running)
    requires OnlyOp(s, s', o) && s'.ops[o].phase == Done
    requires s'.signals == s.signals + [Signal(o, out)] && s'.running == s.running - {o}
    ensures SignalsHold(s')
  {
    var n := |s.signals|;
    assert s'.signals[n].op == o;
    forall x | HasPhase(s', x, Done) ensures Signalled(s', x) {
      if x != o {
        assert Signalled(s, x);
        var i :| 0 <= i < |s.signals| && s.signals[i].op == x;
        assert s'.signals[i].op == x;
      }
    }
    forall i | 0 <= i < |s'.signals| ensures HasPhase(s', s'.signals[i].op, Done) {
      if i < n { assert HasPhase(s, s.signals[i].op, Done); }
    }
  }

  lemma SignalsFrame(s: State, s': State, o: OpId)
    requires SignalsHold(s) && OnlyOp(s, s', o) && s'.signals == s.signals
    requires s'.running == s.running + if s'.ops[o].phase == Running then {o} else {}
    requires !HasPhase(s, o, Running) && !HasPhase(s, o, Done) && s'.ops[o].phase != Done
    ensures SignalsHold(s')
  {
    forall x | HasPhase(s', x, Done) ensures Signalled(s', x) {
      assert Signalled(s, x);
    }
  }

  lemma RunningFrame(s: State, step: Step, o: OpId)
    requires Enabled(s, step) && !step.Complete? && OpOf(s, step) == Some(o) && Apply(s, step).fault.NoFault?
    ensures var s' := Apply(s, step);
            o in s'.ops && s'.signals == s.signals &&
            s'.running == s.running + if s'.ops[o].phase == Running then {o} else {}
  {
    if step.Create? || step.Classify? || step.ConnectCheck? || step.AddInterest? {
      RunningEarly(s, step, o);
    }
  }

  lemma RunningEarly(s: State, step: Step, o: OpId)
    requires Enabled(s, step) && OpOf(s, step) == Some(o)
    requires step.Create? || step.Classify? || step.ConnectCheck? || step.AddInterest?
    ensures var s' := Apply(s, step);
            o in s'.ops && s'.signals == s.signals && s'.running == s.running && s'.ops[o].phase != Running
  {
    if step.Create? { RunningCreate(s, o, step.kind, step.h, step.result); }
  }

  lemma RunningCreate(s: State, o: OpId, kind: Kind, h: Handle, r: SysResult)
    ensures var s' := ApplyCreate(s, o, kind, h, r);
            o in s'.ops && s'.signals == s.signals && s'.running == s.running && s'.ops[o].phase != Running
  {
  }

  lemma SignalsStep(s: State, step: Step)
    requires Inv(s) && Enabled(s, step) && Apply(s, step).fault.NoFault?
    ensures SignalsHold(Apply(s, step))
  {
    if step.DispatchEvents? {
      SignalsDispatch(s, step.w, step.soErrors);
    } else if step.Complete? {
      var out := CompleteSignals(s, step.o, step.result);
      SignalsComplete(s, Apply(s, step), step.o, out);
    } else if OpOf(s, step).Some? {
      var o := OpOf(s, step).value;
      StepAdvances(s, step, o);
      RunningFrame(s, step, o);
      SignalsFrame(s, Apply(s, step), o);
    } else {
      SignalsLocal(s, step);
    }
  }

  lemma SignalsLocal(s: State, step: Step)
    requires SignalsHold(s) && Enabled(s, step) && OpOf(s, step).None? && !step.DispatchEvents?
    ensures SignalsHold(Apply(s, step))
  {
    var s' := Apply(s, step);
    assert s'.ops == s.ops && s'.running == s.running && s'.signals == s.signals;
    forall x | HasPhase(s', x, Done) ensures Signalled(s', x) {
      assert Signalled(s, x);
    }
  }

  lemma WiredFrame(s: State, s': State, o: OpId)
    requires Wired(s) && OnlyOp(s, s', o)
    requires |s.mux.demux| <= |s'.mux.demux|
    requires forall i :: 0 <= i < |s'.mux.demux| ==>
               s'.mux.demux[i].socket == if i < |s.mux.demux| then s.mux.demux[i].socket else None
    requires OpWired(s', s'.ops[o]) && s'.ops[o].phase != Queued
    ensures Wired(s')
  {
  }

  lemma WiredDispatch(s: State, w: WaiterId, e: seq<int>)
    requires Inv(s) && Enabled(s, DispatchEvents(w, e)) && DispatchFault(s, s.waiters[w].events).NoFault?
    ensures Wired(Apply(s, DispatchEvents(w, e)))
  {
    var s' := Apply(s, DispatchEvents(w, e));
    DispatchQueues(s.mux, s.waiters[w].events, 0, Read);
    forall o | o in s'.ops ensures OpWired(s', s'.ops[o]) {
      assert OpWired(s, s.ops[o]);
    }
    forall o | HasPhase(s', o, Queued) ensures s'.mux.demux[s'.ops[o].handle.fd].socket == Some(s'.ops[o].handle) {
      assert HasPhase(s, o, Queued);
    }
  }

  lemma OpWiredAfter(s: State, step: Step, o: OpId)
    requires Enabled(s, step) && OpOf(s, step) == Some(o) && !step.Push? && Apply(s, step).fault.NoFault?
    requires o in s.ops ==> OpWired(s, s.ops[o])
    ensures var s' := Apply(s, step); o in s'.ops && OpWired(s', s'.ops[o])
  {
    if step.Pop? || step.Complete? {
      MuxFrame(s, step);
      assert Apply(s, step).ops[o] == s.ops[o].(phase := Apply(s, step).ops[o].phase);
    } else {
      OpWiredEarly(s, step, o);
    }
  }

  lemma OpWiredEarly(s: State, step: Step, o: OpId)
    requires Enabled(s, step) && OpOf(s, step) == Some(o)
    requires step.Create? || step.Classify? || step.ConnectCheck? || step.AddInterest? || step.StartCheck?
    requires o in s.ops ==> OpWired(s, s.ops[o])
    ensures var s' := Apply(s, step); o in s'.ops && OpWired(s', s'.ops[o])
  {
    if !step.AddInterest? { MuxFrame(s, step); }
  }

  lemma SocketsFrame(s: State, step: Step)
    requires Enabled(s, step) && !step.Push? && !step.DispatchEvents?
    ensures var d, d' := s.mux.demux, Apply(s, step).mux.demux;
            |d| <= |d'| && forall i :: 0 <= i < |d'| ==> d'[i].socket == if i < |d| then d[i].socket else None
  {
    if step.AddInterest? { SocketsAdded(s, step.o); } else { MuxFrame(s, step); }
  }

  lemma SocketsAdded(s: State, o: OpId)
    requires Enabled(s, AddInterest(o))
    ensures var d, d' := s.mux.demux, Apply(s, AddInterest(o)).mux.demux;
            |d| <= |d'| && forall i :: 0 <= i < |d'| ==> d'[i].socket == if i < |d| then d[i].socket else None
  {
  }

  lemma WiredOpStep(s: State, step: Step, o: OpId)
    requires Wired(s) && Enabled(s, step) && OpOf(s, step) == Some(o) && !step.Push? && Apply(s, step).fault.NoFault?
    requires var s' := Apply(s, step); OnlyOp(s, s', o) && s'.ops[o].phase != Queued
    ensures Wired(Apply(s, step))
  {
    OpWiredAfter(s, step, o);
    SocketsFrame(s, step);
    WiredFrame(s, Apply(s, step), o);
  }

  lemma WiredStep(s: State, step: Step)
    requires Inv(s) && Enabled(s, step) && Apply(s, step).fault.NoFault?
    ensures Wired(Apply(s, step))
  {
    if step.DispatchEvents? {
      WiredDispatch(s, step.w, step.soErrors);
    } else if step.Push? {
      PushSockets(s, step.o);
    } else if OpOf(s, step).Some? {
      StepAdvances(s, step, OpOf(s, step).value);
      WiredOpStep(s, step, OpOf(s, step).value);
    } else {
      WiredLocal(s, step);
    }
  }

  lemma WiredLocal(s: State, step: Step)
    requires Wired(s) && Enabled(s, step) && OpOf(s, step).None? && !step.DispatchEvents?
    ensures Wired(Apply(s, step))
  {
  }

  lemma PushSockets(s: State, o: OpId)
    requires Inv(s) && Enabled(s, Push(o)) && s.ops[o].demux.Some?
    ensures Wired(Apply(s, Push(o)))
  {
  }

  lemma InvStep(s: State, step: Step)
    requires Inv(s) && Enabled(s, step)
    ensures Inv(Apply(s, step))
  {
    StructuredStep(s, step);
    if Apply(s, step).fault.NoFault? {
      QueuesStep(s, step);
      WaitersStep(s, step);
      SignalsStep(s, step);
      WiredStep(s, step);
    } else {
      var s' := Apply(s, step);
      FaultChangesNothing(s, step);
      forall o | HasPhase(s', o, Done) ensures Signalled(s', o) {
        assert Signalled(s, o);
      }
    }
  }

  lemma FaultChangesNothing(s: State, step: Step)
    requires Enabled(s, step) && !Apply(s, step).fault.NoFault?
    ensures Apply(s, step).(fault := NoFault) == s
  {
    if step.Push? {
      PushFaults(s, step.o);
    } else if step.Create? {
      CreateNeverFaults(s, step.o, step.kind, step.h, step.result);
    } else if step.Complete? {
      CompleteFaults(s, step.o, step.result);
    }
  }

  lemma PushFaults(s: State, o: OpId)
    requires Enabled(s, Push(o)) && !ApplyPush(s, o).fault.NoFault?
    ensures ApplyPush(s, o).(fault := NoFault) == s
  {
  }

  lemma CreateNeverFaults(s: State, o: OpId, kind: Kind, h: Handle, r: SysResult)
    requires s.fault.NoFault?
    ensures ApplyCreate(s, o, kind, h, r).fault.NoFault?
  {
  }

  lemma CompleteFaults(s: State, o: OpId, r: SysResult)
    requires Enabled(s, Complete(o, r)) && !ApplyComplete(s, o, r).fault.NoFault?
    ensures ApplyComplete(s, o, r).(fault := NoFault) == s
  {
  }

  /** Every reachable state satisfies the invariant. */
  lemma {:induction false} Reachable(r: Run, k: nat)
    requires r.Valid() && k < |r.states|
    ensures Inv(r.states[k])
  {
    if k > 0 {
      Reachable(r, k - 1);
      assert r.StepAt(k - 1);
      InvStep(r.states[k - 1], r.steps[k - 1]);
    }
  }

  /** The well-definedness conjuncts of `Enabled` hold in every reachable
      state, so they exclude no behaviour of the source. */
  lemma GuardsAreFree(r: Run, k: nat)
    requires r.Valid() && k < |r.states|
    ensures var s := r.states[k];
            && (forall o :: HasPhase(s, o, Registering) || HasPhase(s, o, Enqueuing) ==> s.ops[o].trigger.On?)
            && (forall o :: o in s.ops && s.ops[o].demux.Some? ==> s.ops[o].demux.value < |s.mux.demux|)
            && (forall w, i :: w in s.waiters && s.waiters[w].Reported? && 0 <= i < |s.waiters[w].events| ==>
                  0 <= s.waiters[w].events[i].fd < |s.mux.demux|)
            && (forall w :: w in s.waiters && s.waiters[w].Draining? && s.waiters[w].ready != [] ==>
                  s.waiters[w].ready[0] in s.ops)
  {
    Reachable(r, k);
    var s := r.states[k];
    forall o | o in s.ops ensures OpWired(s, s.ops[o]) {
    }
    forall w | w in s.waiters && s.waiters[w].Draining? && s.waiters[w].ready != []
      ensures s.waiters[w].ready[0] in s.ops
    {
      assert HasPhase(s, s.waiters[w].ready[0], Ready(w));
    }
  }

  // --- Exactly one place ---

  datatype Place = Starting | Waiting(fd: int, d: Direction) | ReadyAt(w: WaiterId) | Executing | Completed

  ghost predicate At(s: State, o: OpId, p: Place) {
    match p
    case Starting => HasPhase(s, o, Enqueuing)
    case Waiting(fd, d) => o in Q(s.mux, fd, d)
    case ReadyAt(w) => w in s.waiters && s.waiters[w].Draining? && o in s.waiters[w].ready
    case Executing => o in s.running
    case Completed => Signalled(s, o)
  }

  predicate Started(s: State, o: OpId) {
    o in s.ops &&
    (s.ops[o].phase == Enqueuing || s.ops[o].phase == Queued || s.ops[o].phase.Ready? ||
     s.ops[o].phase == Running || s.ops[o].phase == Done)
  }

  function PlaceOf(op: Op): Place
    requires op.trigger.On? || (op.phase != Queued)
  {
    match op.phase
    case Queued => Waiting(op.handle.fd, op.trigger.d)
    case Ready(w) => ReadyAt(w)
    case Running => Executing
    case Done => Completed
    case _ => Starting
  }

  /** Being at a place fixes the phase. */
  lemma PlaceFixesPhase(s: State, o: OpId, p: Place)
    requires Inv(s) && At(s, o, p)
    ensures o in s.ops && OpWired(s, s.ops[o]) && p == PlaceOf(s.ops[o]) && Started(s, o)
  {
  }

  lemma PhaseGivesPlace(s: State, o: OpId)
    requires Inv(s) && Started(s, o)
    ensures OpWired(s, s.ops[o]) && At(s, o, PlaceOf(s.ops[o]))
  {
  }

  lemma StartedStays(s: State, step: Step, o: OpId)
    requires Inv(s) && Enabled(s, step) && Started(s, o)
    ensures Started(Apply(s, step), o)
  {
    if !Apply(s, step).fault.NoFault? {
      FaultChangesNothing(s, step);
    } else if step.DispatchEvents? {
      StartedDispatch(s, step, o);
    } else if OpOf(s, step) == Some(o) {
      StartedOwn(s, step, o);
    } else {
      StepChangesOneOp(s, step);
    }
  }

  lemma StartedDispatch(s: State, step: Step, o: OpId)
    requires Enabled(s, step) && step.DispatchEvents? && Apply(s, step).fault.NoFault? && Started(s, o)
    ensures Started(Apply(s, step), o)
  {
    DispatchShape(s, step);
  }

  lemma StartedOwn(s: State, step: Step, o: OpId)
    requires Inv(s) && Enabled(s, step) && OpOf(s, step) == Some(o) && Apply(s, step).fault.NoFault? && Started(s, o)
    ensures Started(Apply(s, step), o)
  {
    StepAdvances(s, step, o);
  }

  lemma {:induction false} StartedFrom(r: Run, i: nat, k: nat, o: OpId)
    requires r.Valid() && i < k < |r.states| && r.steps[i] == StartCheck(o)
    ensures Started(r.states[k], o)
  {
    if k == i + 1 {
      assert r.StepAt(i);
    } else {
      StartedFrom(r, i, k - 1, o);
      Reachable(r, k - 1);
      assert r.StepAt(k - 1);
      StartedStays(r.states[k - 1], r.steps[k - 1], o);
    }
  }

  function SignalCount(signals: seq<Signal>, o: OpId): nat {
    if signals == [] then 0 else (if signals[0].op == o then 1 else 0) + SignalCount(signals[1..], o)
  }

  lemma {:induction false} CountDistinct(signals: seq<Signal>, o: OpId)
    requires forall i, j :: 0 <= i < j < |signals| ==> signals[i].op != signals[j].op
    ensures SignalCount(signals, o) == if exists i :: 0 <= i < |signals| && signals[i].op == o then 1 else 0
  {
    if signals != [] {
      CountDistinct(signals[1..], o);
      if i :| 0 <= i < |signals[1..]| && signals[1..][i].op == o {
        assert signals[i + 1].op == o;
      }
      if i :| 0 <= i < |signals| && signals[i].op == o {
        if i > 0 { assert signals[1..][i - 1].op == o; }
      }
    }
  }

  /** In every run and at every moment, a started operation is in exactly one
      place, no queue holds it twice, and its receiver has been signalled once
      if it is completed and not at all otherwise. An operation that was never
      started is nowhere and never signalled. */
  lemma ExactlyOnce(r: Run, k: nat, o: OpId)
    requires r.Valid() && k < |r.states|
    ensures (exists i :: 0 <= i < k && r.steps[i] == StartCheck(o)) ==> exists p :: At(r.states[k], o, p)
    ensures forall p, p' :: At(r.states[k], o, p) && At(r.states[k], o, p') ==> p == p'
    ensures forall fd, d :: Distinct(Q(r.states[k].mux, fd, d))
    ensures forall w :: w in r.states[k].waiters && r.states[k].waiters[w].Draining? ==>
            Distinct(r.states[k].waiters[w].ready)
    ensures SignalCount(r.states[k].signals, o) == if At(r.states[k], o, Completed) then 1 else 0
    ensures !Started(r.states[k], o) ==> forall p :: !At(r.states[k], o, p)
  {
    var s := r.states[k];
    Reachable(r, k);
    if i :| 0 <= i < k && r.steps[i] == StartCheck(o) {
      StartedFrom(r, i, k, o);
      PhaseGivesPlace(s, o);
    }
    forall p | At(s, o, p) ensures o in s.ops && OpWired(s, s.ops[o]) && p == PlaceOf(s.ops[o]) && Started(s, o) {
      PlaceFixesPhase(s, o, p);
    }
    CountDistinct(s.signals, o);
    assert At(s, o, Completed) <==> Signalled(s, o);
  }
}
