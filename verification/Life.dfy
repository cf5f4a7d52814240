/** The life of one operation, from what its creator asked for to what its
    receiver is told, and the errors that handles carry. */
module Life {
  import opened Poll
  import opened InterestList
  import opened Demultiplexing
  import opened Protocol
  import opened Conservation
  import opened Wakeup
  import opened LoopExit
  import opened Fairness
  import opened Errors
  import opened BlockingWait
  import Lifetimes

  // --- What an operation is, given what its creator asked for ---

  /** A transfer waits for its own direction if and only if its call is still to
      be made, and is eager otherwise; a connect waits for writability with its
      result fixed; a caller's own function has the caller's trigger. */
  predicate AsAsked(op: Op) {
    match op.kind
    case Transfer(d, eager) =>
      && (op.trigger == On(d) <==> op.func == Deferred)
      && (op.trigger == Eager <==> op.func != Deferred)
      && (op.func != Deferred || op.phase == Attempted ==> eager)
      && (op.phase == Attempted ==> op.func == Deferred)
    case Dial => op.trigger == On(Write) && op.func == Const(0) && op.phase != Attempted
    case Custom(t) => op.trigger == t && op.func == Deferred && op.phase != Attempted
  }

  lemma CreatedAsAsked(s: State, o: OpId, kind: Kind, h: Handle, r: SysResult)
    ensures var s' := ApplyCreate(s, o, kind, h, r);
            o in s'.ops && AsAsked(s'.ops[o]) && s'.ops[o].kind == kind && s'.ops[o].handle == h
  {
  }

  lemma ClassifiedAsAsked(s: State, o: OpId)
    requires HasPhase(s, o, Attempted) && AsAsked(s.ops[o])
    ensures AsAsked(ApplyClassify(s, o).ops[o])
  {
  }

  /** An attempted operation is left alone until it is classified. */
  lemma AttemptedWaits(s: State, step: Step, o: OpId)
    requires Inv(s) && Enabled(s, step) && HasPhase(s, o, Attempted) && step != Classify(o)
    ensures o in Apply(s, step).ops && Apply(s, step).ops[o] == s.ops[o]
  {
    if !Apply(s, step).fault.NoFault? {
      FaultChangesNothing(s, step);
    } else if step.DispatchEvents? {
      OthersKeepPhase(s, step, o);
    } else {
      StepChangesOneOp(s, step);
      if step.Pop? { PopsReady(s, step); }
    }
  }

  lemma AskedStep(s: State, step: Step, o: OpId)
    requires Inv(s) && Enabled(s, step) && o in Apply(s, step).ops && (o in s.ops ==> AsAsked(s.ops[o]))
    ensures AsAsked(Apply(s, step).ops[o])
  {
    if o !in s.ops {
      Lifetimes.NewHandle(s, step, o);
      AskedNew(s, step, o);
    } else if HasPhase(s, o, Attempted) {
      if step == Classify(o) { ClassifiedAsAsked(s, o); } else { AttemptedWaits(s, step, o); }
    } else {
      LaterStep(s, step, o);
    }
  }

  lemma AskedNew(s: State, step: Step, o: OpId)
    requires Enabled(s, step) && step.Create? && o !in s.ops && o in Apply(s, step).ops
    ensures step.o == o && AsAsked(Apply(s, step).ops[o])
  {
    CreateChangesOneOp(s, step.o, step.kind, step.h, step.result);
    CreatedAsAsked(s, step.o, step.kind, step.h, step.result);
  }

  /** In every state of every run an operation is as its creator asked. */
  lemma {:induction false} Asked(r: Run, k: nat, o: OpId)
    requires r.Valid() && k < |r.states| && o in r.states[k].ops
    ensures AsAsked(r.states[k].ops[o])
  {
    if k > 0 {
      assert r.StepAt(k - 1);
      Reachable(r, k - 1);
      if o in r.states[k - 1].ops { Asked(r, k - 1, o); }
      AskedStep(r.states[k - 1], r.steps[k - 1], o);
    }
  }

  /** It keeps the kind and the handle it was created with. */
  lemma KeepsKind(r: Run, i: nat, k: nat, o: OpId)
    requires r.Valid() && i < k < |r.states| && r.steps[i].Create? && r.steps[i].o == o
    ensures o in r.states[k].ops && r.states[k].ops[o].kind == r.steps[i].kind &&
            r.states[k].ops[o].handle == r.steps[i].h
  {
    assert r.StepAt(i);
    CreatedAsAsked(r.states[i], o, r.steps[i].kind, r.steps[i].h, r.steps[i].result);
    LaterRun(r, i + 1, k, o);
  }

  // --- Where it waits ---

  /** What an operation of this kind waits for when it waits. */
  predicate WaitsFor(kind: Kind, d: Direction) {
    (kind.Transfer? && kind.d == d) || (kind.Dial? && d == Write) || kind == Custom(On(d))
  }

  /** A waiting operation is in the queue of its own descriptor and of the
      direction that its kind waits for, and in no other; its connect set the
      interest flag of exactly that descriptor and direction. */
  lemma WaitsWhereAsked(r: Run, k: nat, o: OpId, d: Direction) returns (i: nat)
    requires r.Valid() && k < |r.states| && HasPhase(r.states[k], o, Queued) && WaitsFor(r.states[k].ops[o].kind, d)
    ensures var fd := r.states[k].ops[o].handle.fd;
            && (forall fd', d' :: o in Q(r.states[k].mux, fd', d') <==> fd' == fd && d' == d)
            && i < k && r.steps[i] == AddInterest(o)
            && SetsExactly(r.states[i].mux, r.states[i + 1].mux, fd, d)
  {
    var s := r.states[k];
    Asked(r, k, o);
    Reachable(r, k);
    InOwnQueue(s, o, d);
    var j;
    i, j := QueuedFrom(r, k, o);
    ConnectRegisters(r, i, k, o);
    RegistrationSets(r, i, o, s.ops[o].handle.fd, d);
  }

  /** Exactly the interest in this descriptor and direction is added. */
  ghost predicate SetsExactly(m: Mux<OpId, Handle>, m': Mux<OpId, Handle>, fd: int, d: Direction) {
    forall fd', d' :: Interested(m', fd', d') <==> Interested(m, fd', d') || (fd' == fd && d' == d)
  }

  lemma RegistrationSets(r: Run, i: nat, o: OpId, fd: int, d: Direction)
    requires r.Valid() && i < |r.steps| && r.steps[i] == AddInterest(o) && Registers(r.states[i], r.steps[i], fd, d)
    ensures SetsExactly(r.states[i].mux, r.states[i + 1].mux, fd, d)
  {
    assert r.StepAt(i);
    Reachable(r, i);
    var m, m' := r.states[i].mux, r.states[i + 1].mux;
    forall fd', d' ensures Interested(m', fd', d') <==> Interested(m, fd', d') || (fd' == fd && d' == d) {
      InterestAdded(r.states[i], o, fd', d');
    }
  }

  lemma InOwnQueue(s: State, o: OpId, d: Direction)
    requires QueuesHold(s) && HasPhase(s, o, Queued) && s.ops[o].trigger == On(d)
    ensures forall fd', d' :: o in Q(s.mux, fd', d') <==> fd' == s.ops[o].handle.fd && d' == d
  {
    forall fd', d' ensures o in Q(s.mux, fd', d') <==> fd' == s.ops[o].handle.fd && d' == d {
      if o in Q(s.mux, fd', d') {
        var i :| 0 <= i < |Q(s.mux, fd', d')| && Q(s.mux, fd', d')[i] == o;
        assert KeyOf(s.ops)[o] == (fd', d');
      }
    }
  }

  // --- The eager attempt ---

  /** The creation at step `i` makes its system call at once. */
  predicate AttemptedAt(r: Run, i: nat)
    requires i < |r.steps| < |r.states|
  {
    var step := r.steps[i];
    step.Create? && step.kind.Transfer? && step.kind.eager && Creations(r, i + 1) % 256 != 0
  }

  /** Whether a creation attempts its call, what the attempt leaves, and that
      nothing else is started for the operation. */
  lemma CreationOutcome(r: Run, i: nat)
    requires r.Valid() && i < |r.steps| && r.steps[i].Create?
    ensures var c, s, s' := r.steps[i], r.states[i], r.states[i + 1];
            && c.o in s'.ops
            && (AttemptedAt(r, i) && c.result.Success? ==>
                  s'.ops[c.o].phase == Made && s'.ops[c.o].func == Const(c.result.v) &&
                  s'.effects == s.effects + [Effect(c.o, c.result.v)])
            && (AttemptedAt(r, i) && c.result.Failure? ==>
                  s'.ops[c.o].phase == Attempted && ErrorOf(s', c.h) == c.result.errno && s'.effects == s.effects)
            && (!AttemptedAt(r, i) ==>
                  s'.ops[c.o].phase == Made && s'.effects == s.effects &&
                  (c.kind.Dial? || s'.ops[c.o].func == Deferred))
  {
    assert r.StepAt(i);
    CounterCounts(r, i);
    CounterStep(r.states[i], r.steps[i]);
    CounterCounts(r, i + 1);
    CreationLeaves(r.states[i], r.steps[i].o, r.steps[i].kind, r.steps[i].h, r.steps[i].result);
  }

  lemma CreationLeaves(s: State, o: OpId, kind: Kind, h: Handle, r: SysResult)
    ensures var s' := ApplyCreate(s, o, kind, h, r);
            var attempt := kind.Transfer? && kind.eager && s'.counter != 0;
            && o in s'.ops
            && (attempt && r.Success? ==>
                  s'.ops[o].phase == Made && s'.ops[o].func == Const(r.v) && s'.effects == s.effects + [Effect(o, r.v)])
            && (attempt && r.Failure? ==>
                  s'.ops[o].phase == Attempted && ErrorOf(s', h) == r.errno && s'.effects == s.effects)
            && (!attempt ==>
                  s'.ops[o].phase == Made && s'.effects == s.effects && (kind.Dial? || s'.ops[o].func == Deferred))
  {
  }

  /** After a failed attempt no result is captured. */
  lemma {:induction false} NothingCaptured(r: Run, a: nat, k: nat, o: OpId)
    requires r.Valid() && a <= k < |r.states| && HasPhase(r.states[a], o, Attempted)
    ensures o in r.states[k].ops && !r.states[k].ops[o].func.Const?
    decreases k
  {
    if a < k {
      NothingCaptured(r, a, k - 1, o);
      assert r.StepAt(k - 1);
      Reachable(r, k - 1);
      var s, step := r.states[k - 1], r.steps[k - 1];
      if !HasPhase(s, o, Attempted) {
        LaterStep(s, step, o);
      } else if step != Classify(o) {
        AttemptedWaits(s, step, o);
      }
    } else {
      Asked(r, a, o);
    }
  }

  /** A failed attempt whose error reads back as none or would-block leaves a
      transfer that still has its call to make and waits for its direction. */
  lemma WouldBlock(r: Run, i: nat, k: nat, o: OpId)
    requires r.Valid() && i < k < |r.states| && r.steps[i] == Classify(o) && o in r.states[i].ops
    requires ErrorOf(r.states[i], r.states[i].ops[o].handle) in {0, EAGAIN}
    ensures o in r.states[k].ops && r.states[k].ops[o].kind.Transfer?
    ensures r.states[k].ops[o].func == Deferred && r.states[k].ops[o].trigger == On(r.states[k].ops[o].kind.d)
  {
    assert r.StepAt(i);
    EmptyFromClassify(r, i, k, o);
    NothingCaptured(r, i, k, o);
    Asked(r, i, o);
    LaterRun(r, i, k, o);
    Asked(r, k, o);
  }

  /** With nothing stored on its handle up to the start, its connect registers
      interest in its descriptor and direction and its start is to queue it
      there. */
  lemma WouldBlockWaits(r: Run, i: nat, k: nat, o: OpId) returns (c: nat)
    requires r.Valid() && i < k < |r.steps| && r.steps[i] == Classify(o) && o in r.states[i].ops
    requires ErrorOf(r.states[i], r.states[i].ops[o].handle) in {0, EAGAIN}
    requires r.steps[k] == StartCheck(o) && NoStores(r, i, k, r.states[i].ops[o].handle)
    ensures HasPhase(r.states[k + 1], o, Enqueuing) && r.states[k + 1].ops[o].kind.Transfer?
    ensures r.states[k + 1].ops[o].demux == Some(r.states[k + 1].ops[o].handle.fd)
    ensures i < c < k && r.steps[c] == AddInterest(o)
    ensures Interested(r.states[c + 1].mux, r.states[k + 1].ops[o].handle.fd, r.states[k + 1].ops[o].kind.d)
  {
    var h := r.states[i].ops[o].handle;
    assert r.StepAt(i) && r.StepAt(k);
    WouldBlock(r, i, k, o);
    WouldBlock(r, i, k + 1, o);
    LaterRun(r, i, k, o);
    ErrorStaysFrom(r, i, k, h);
    var j := ConnectOf(r, i + 1, k, o);
    NoStoresPart(r, i, j, k, h);
    LaterRun(r, i, j, o);
    ErrorCoherence(r, j, k, o);
    c := RegistrationOf(r, k + 1, o);
    AfterClassify(r, i, c, k, o);
  }

  lemma NoStoresPart(r: Run, i: nat, j: nat, k: nat, h: Handle)
    requires r.Valid() && i <= j <= k <= |r.steps| && NoStores(r, i, k, h)
    ensures NoStores(r, j, k, h)
  {
  }

  /** The registration comes after the classification, and registers. */
  lemma AfterClassify(r: Run, i: nat, c: nat, k: nat, o: OpId)
    requires r.Valid() && i < k < |r.steps| && r.steps[i] == Classify(o) && c <= k && r.steps[c] == AddInterest(o)
    requires r.steps[k] == StartCheck(o) && HasDemux(r.states[k + 1], o)
    requires r.states[k + 1].ops[o].kind.Transfer? &&
             r.states[k + 1].ops[o].trigger == On(r.states[k + 1].ops[o].kind.d)
    ensures i < c < k
    ensures Interested(r.states[c + 1].mux, r.states[k + 1].ops[o].handle.fd, r.states[k + 1].ops[o].kind.d)
  {
    assert r.StepAt(i) && r.StepAt(c) && r.StepAt(k);
    if c < i { LaterRun(r, c, i, o); }
    LaterRun(r, c, k + 1, o);
    WiredDescriptor(r, k + 1, o);
    var fd, d := r.states[k + 1].ops[o].handle.fd, r.states[k + 1].ops[o].kind.d;
    RegistrationSets(r, c, o, fd, d);
    assert Interested(r.states[c + 1].mux, fd, d);
  }

  lemma WiredDescriptor(r: Run, k: nat, o: OpId)
    requires r.Valid() && k < |r.states| && HasDemux(r.states[k], o)
    ensures r.states[k].ops[o].handle.fd >= 0
  {
    Reachable(r, k);
    assert OpWired(r.states[k], r.states[k].ops[o]);
  }

  /** A step that takes an operation out of `Made` is its connect. */
  lemma {:induction false} ConnectOf(r: Run, a: nat, k: nat, o: OpId) returns (j: nat)
    requires r.Valid() && a <= k < |r.states| && HasPhase(r.states[a], o, Made) && !HasPhase(r.states[k], o, Made)
    ensures a <= j < k && r.steps[j] == ConnectCheck(o)
    decreases k
  {
    if HasPhase(r.states[k - 1], o, Made) {
      MadeUntilConnectAt(r, k - 1, o);
      j := k - 1;
    } else {
      j := ConnectOf(r, a, k - 1, o);
    }
  }

  lemma MadeUntilConnectAt(r: Run, k: nat, o: OpId)
    requires r.Valid() && k < |r.steps| && HasPhase(r.states[k], o, Made) && !HasPhase(r.states[k + 1], o, Made)
    ensures r.steps[k] == ConnectCheck(o)
  {
    assert r.StepAt(k);
    Reachable(r, k);
    MadeUntilConnect(r.states[k], r.steps[k], o);
  }

  lemma MadeUntilConnect(s: State, step: Step, o: OpId)
    requires Inv(s) && Enabled(s, step) && HasPhase(s, o, Made) && !HasPhase(Apply(s, step), o, Made)
    ensures step == ConnectCheck(o)
  {
    if !Apply(s, step).fault.NoFault? {
      FaultChangesNothing(s, step);
    } else if step.DispatchEvents? {
      OthersKeepPhase(s, step, o);
    } else {
      StepChangesOneOp(s, step);
      if step.Pop? { PopsReady(s, step); }
    }
  }

  // --- Connect and start ---

  /** Connect registers if and only if the operation has a direction to wait for
      and the error it reads is none or would-block. */
  lemma ConnectReads(r: Run, i: nat, o: OpId)
    requires r.Valid() && i < |r.steps| && r.steps[i] == ConnectCheck(o)
    ensures o in r.states[i].ops && o in r.states[i + 1].ops
    ensures var op := r.states[i].ops[o];
            r.states[i + 1].ops[o].phase ==
            if ErrorOf(r.states[i], op.handle) in {0, EAGAIN} && op.trigger != Eager then Registering else Connected
  {
    assert r.StepAt(i);
  }

  /** Start queues under the same condition on the error it reads, and otherwise completes at once. */
  lemma StartReads(r: Run, i: nat, o: OpId)
    requires r.Valid() && i < |r.steps| && r.steps[i] == StartCheck(o)
    ensures o in r.states[i].ops && o in r.states[i + 1].ops
    ensures var op := r.states[i].ops[o];
            r.states[i + 1].ops[o].phase ==
            if ErrorOf(r.states[i], op.handle) in {0, EAGAIN} && op.trigger != Eager then Enqueuing else Running
  {
    assert r.StepAt(i);
  }

  // --- What the receiver is told ---

  /** The function of an operation past its attempt, given how it was created. */
  lemma FunctionOf(r: Run, i: nat, k: nat, o: OpId)
    requires r.Valid() && i < k < |r.states| && r.steps[i].Create? && r.steps[i].o == o
    requires !HasPhase(r.states[k], o, Attempted)
    ensures o in r.states[k].ops
    ensures var c, f := r.steps[i], r.states[k].ops[o].func;
            && (c.kind.Dial? ==> f == Const(0))
            && (AttemptedAt(r, i) && c.result.Success? ==> f == Const(c.result.v))
            && (AttemptedAt(r, i) && c.result.Failure? ==> f == Deferred || f == Empty)
            && (!AttemptedAt(r, i) && !c.kind.Dial? ==> f == Deferred)
  {
    KeepsKind(r, i, k, o);
    Asked(r, k, o);
    CreationOutcome(r, i);
    LaterRun(r, i + 1, k, o);
    if HasPhase(r.states[i + 1], o, Attempted) { NothingCaptured(r, i + 1, k, o); }
  }

  /** In every run, what a completion that does not fault tells the receiver,
      and what it calls, in terms of the creation of the operation, the error
      its handle carries and what the call returns. */
  lemma ReceiverTold(r: Run, i: nat, k: nat, o: OpId, result: SysResult)
    requires r.Valid() && i < k < |r.steps| && r.steps[i].Create? && r.steps[i].o == o
    requires r.steps[k] == Complete(o, result) && r.states[k + 1].fault.NoFault?
    ensures var c, e, s, s' := r.steps[i], ErrorOf(r.states[k], r.steps[i].h), r.states[k], r.states[k + 1];
            var captured := if c.kind.Dial? then Some(0)
                            else if AttemptedAt(r, i) && c.result.Success? then Some(c.result.v)
                            else None;
            && s'.signals == s.signals + [Signal(o,
                 if e != 0 && e != EAGAIN then Error(e)
                 else if captured.Some? then Value(captured.value)
                 else if result.Success? then Value(result.v) else Error(result.errno))]
            && s'.effects == s.effects +
                 (if e in {0, EAGAIN} && captured.None? && result.Success? then [Effect(o, result.v)] else [])
            && s'.errors == s.errors
  {
    assert r.StepAt(k);
    KeepsKind(r, i, k, o);
    FunctionOf(r, i, k, o);
    CompletionTells(r.states[k], o, result);
  }

  lemma CompletionTells(s: State, o: OpId, r: SysResult)
    requires Enabled(s, Complete(o, r)) && Apply(s, Complete(o, r)).fault.NoFault?
    ensures var s', e, f := Apply(s, Complete(o, r)), ErrorOf(s, s.ops[o].handle), s.ops[o].func;
            && (e in {0, EAGAIN} ==> f != Empty)
            && s'.signals == s.signals + [Signal(o,
                 if e != 0 && e != EAGAIN then Error(e)
                 else if f.Const? then Value(f.v)
                 else if r.Success? then Value(r.v) else Error(r.errno))]
            && s'.effects == s.effects +
                 (if e in {0, EAGAIN} && f == Deferred && r.Success? then [Effect(o, r.v)] else [])
            && s'.errors == s.errors
  {
  }

  // --- Nothing is ever stuck ---

  /** In every state of every run that has not faulted, whatever the system calls
      return: an operation that is not waiting can take its next step, a ready
      one is in a drain that goes on, and one that is to be queued can be, as
      long as no other handle owns its descriptor. */
  lemma OperationGoesOn(r: Run, k: nat, o: OpId)
    requires r.Valid() && k < |r.states| && r.states[k].fault.NoFault? && o in r.states[k].ops
    ensures var s := r.states[k];
            match s.ops[o].phase
            case Attempted => Enabled(s, Classify(o))
            case Made => Enabled(s, ConnectCheck(o))
            case Registering => Enabled(s, AddInterest(o))
            case Connected => Enabled(s, StartCheck(o))
            case Enqueuing => SameHandle(s, s.ops[o].handle) ==> Enabled(s, Push(o))
            case Running => forall result :: Enabled(s, Complete(o, result))
            case Ready(w) => w in s.waiters && s.waiters[w].Draining? && o in s.waiters[w].ready
            case _ => true
  {
    Reachable(r, k);
    assert OpWired(r.states[k], r.states[k].ops[o]);
  }

  /** The same for a wait: it can begin at any time, takes any answer that `poll`
      may give and any socket errors, and drains until its ready queue is empty
      and the completion it runs has returned. */
  lemma WaitGoesOn(r: Run, k: nat, w: WaiterId)
    requires r.Valid() && k < |r.states| && r.states[k].fault.NoFault?
    ensures var s := r.states[k];
            if w !in s.waiters then forall t :: Enabled(s, Snapshot(w, t))
            else
              match s.waiters[w]
              case Polling(t, l) =>
                forall revents :: |revents| == |l| && (t < 0 && l != [] ==> Answered(revents) != {}) ==>
                  Enabled(s, PollReturn(w, revents))
              case Reported(_, events) =>
                forall errors :: |errors| == |events| ==> Enabled(s, DispatchEvents(w, errors))
              case Draining(_, _, ready, None) => Enabled(s, if ready == [] then Finish(w) else Pop(w))
              case Draining(_, _, _, Some(o)) => HasPhase(s, o, Running) || Enabled(s, Return(w))
  {
    Reachable(r, k);
    if w in r.states[k].waiters && r.states[k].waiters[w].Polling? { PollGoesOn(r.states[k], w); }
  }

  lemma PollGoesOn(s: State, w: WaiterId)
    requires s.fault.NoFault? && w in s.waiters && s.waiters[w].Polling?
    ensures forall revents ::
              && |revents| == |s.waiters[w].snapshot|
              && (s.waiters[w].timeout < 0 && s.waiters[w].snapshot != [] ==> Answered(revents) != {}) ==>
              Enabled(s, PollReturn(w, revents))
  {
    forall revents | |revents| == |s.waiters[w].snapshot| && Answered(revents) != {}
      ensures exists i :: 0 <= i < |revents| && revents[i] != {}
    {
      var i :| i in Answered(revents);
    }
  }

  // --- What error a handle carries ---

  /** The step stores this error on the handle: the errno of a failed attempt or
      of a failed connect, the error read for a failure that is dispatched to
      the handle, or what another part of the program stores. */
  ghost predicate StoresValue(s: State, step: Step, h: Handle, e: int) {
    match step
    case Create(_, kind, h', r) =>
      h' == h && r == Failure(e) &&
      ((kind.Transfer? && kind.eager && (s.counter + 1) % 256 != 0) ||
       (kind.Dial? && e != EINPROGRESS && e != EAGAIN && e != EALREADY && e != EISCONN))
    case DispatchEvents(w, so) =>
      w in s.waiters && s.waiters[w].Reported? && exists x :: StoresAt(s.mux, s.waiters[w].events, so, x, h, e)
    case SetError(h', e') => h' == h && e' == e
    case _ => false
  }

  /** The event is a failure on a descriptor whose socket pointer is the handle. */
  ghost predicate StoresAt(m: Mux<OpId, Handle>, evs: seq<PollFd>, so: seq<int>, x: int, h: Handle, e: int) {
    && 0 <= x < |evs| == |so| && (Err in evs[x].revents || Nval in evs[x].revents) && so[x] == e
    && 0 <= evs[x].fd < |m.demux| && m.demux[evs[x].fd].socket == Some(h)
  }

  lemma FatalFlags(f: set<Flag>)
    ensures Fatal(f) <==> Err in f || Nval in f
  {
    assert Err in f ==> Err in f * {Err, Nval};
    assert Nval in f ==> Nval in f * {Err, Nval};
  }

  /** A step stores some error on a handle exactly when it stores one of these. */
  lemma StoresSome(s: State, step: Step, h: Handle)
    requires Enabled(s, step)
    ensures Stores(s, step, h) <==> exists e :: StoresValue(s, step, h, e)
  {
    match step
    case Create(_, kind, h', r) =>
      if Stores(s, step, h) { assert StoresValue(s, step, h, r.errno); }
    case SetError(h', e) =>
      if h' == h { assert StoresValue(s, step, h, e); }
    case DispatchEvents(w, so) => DispatchStoresSome(s, w, so, h);
    case _ =>
  }

  lemma DispatchStoresSome(s: State, w: WaiterId, so: seq<int>, h: Handle)
    requires Enabled(s, DispatchEvents(w, so))
    ensures Stores(s, DispatchEvents(w, so), h) <==> exists e :: StoresValue(s, DispatchEvents(w, so), h, e)
  {
    var evs := s.waiters[w].events;
    if Stores(s, DispatchEvents(w, so), h) {
      var x :| 0 <= x < |evs| && Fatal(evs[x].revents) && 0 <= evs[x].fd < |s.mux.demux| &&
        s.mux.demux[evs[x].fd].socket == Some(h);
      FatalFlags(evs[x].revents);
      assert StoresAt(s.mux, evs, so, x, h, so[x]);
      assert StoresValue(s, DispatchEvents(w, so), h, so[x]);
    }
    if e :| StoresValue(s, DispatchEvents(w, so), h, e) {
      var x :| StoresAt(s.mux, evs, so, x, h, e);
      FatalFlags(evs[x].revents);
    }
  }

  /** What is stored is what the handle then carries, unless the step faults. */
  lemma StoredIsRead(s: State, step: Step, h: Handle, e: int)
    requires Inv(s) && Enabled(s, step) && StoresValue(s, step, h, e) && Apply(s, step).fault.NoFault?
    ensures ErrorOf(Apply(s, step), h) == e
  {
    if step.DispatchEvents? {
      var evs := s.waiters[step.w].events;
      var x :| StoresAt(s.mux, evs, step.soErrors, x, h, e);
      FatalFlags(evs[x].revents);
      StoredAt(s.mux, s.errors, evs, step.soErrors, x, h);
    }
  }

  ghost predicate StoredLast(r: Run, j: int, k: int, h: Handle, e: int)
    requires r.Valid() && k <= |r.steps|
  {
    0 <= j < k && StoresValue(r.states[j], r.steps[j], h, e) && NoStores(r, j + 1, k, h)
  }

  /** In every run the error a handle carries is the one stored on it last, and
      none if nothing has been stored. */
  lemma {:induction false} ErrorExactly(r: Run, k: nat, h: Handle, e: int)
    requires r.Valid() && k < |r.states| && r.states[k].fault.NoFault?
    ensures ErrorOf(r.states[k], h) == e <==>
            (exists j :: StoredLast(r, j, k, h, e)) || (e == 0 && NoStores(r, 0, k, h))
  {
    if k > 0 {
      assert r.StepAt(k - 1);
      var s, step := r.states[k - 1], r.steps[k - 1];
      StoresSome(s, step, h);
      if Stores(s, step, h) {
        ErrorFromLast(r, k, h, e);
      } else {
        ErrorExactly(r, k - 1, h, e);
        ErrorStays(s, step, h);
        NoStoresExtend(r, k - 1, k, h, e);
      }
    }
  }

  lemma ErrorFromLast(r: Run, k: nat, h: Handle, e: int)
    requires r.Valid() && 0 < k < |r.states| && r.states[k].fault.NoFault? && Stores(r.states[k - 1], r.steps[k - 1], h)
    ensures !NoStores(r, 0, k, h)
    ensures ErrorOf(r.states[k], h) == e <==> exists j :: StoredLast(r, j, k, h, e)
  {
    assert r.StepAt(k - 1);
    Reachable(r, k - 1);
    var s, step := r.states[k - 1], r.steps[k - 1];
    StoresSome(s, step, h);
    var e' :| StoresValue(s, step, h, e');
    StoredIsRead(s, step, h, e');
    assert StoredLast(r, k - 1, k, h, e');
    if j :| StoredLast(r, j, k, h, e) {
      if j == k - 1 { StoredIsRead(s, step, h, e); }
    }
  }

  lemma NoStoresExtend(r: Run, k': nat, k: nat, h: Handle, e: int)
    requires r.Valid() && k == k' + 1 < |r.states| && !Stores(r.states[k'], r.steps[k'], h)
    requires forall x :: !StoresValue(r.states[k'], r.steps[k'], h, x)
    ensures NoStores(r, 0, k, h) <==> NoStores(r, 0, k', h)
    ensures (exists j :: StoredLast(r, j, k, h, e)) <==> exists j :: StoredLast(r, j, k', h, e)
  {
    if j :| StoredLast(r, j, k, h, e) { assert StoredLast(r, j, k', h, e); }
    if j :| StoredLast(r, j, k', h, e) { assert StoredLast(r, j, k, h, e); }
  }
}
