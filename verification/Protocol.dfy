/** The multiplexer as a transition system. A step is one atomic region of the
    source: a critical section of the mutex, one read or write of a handle's
    error, one creation of an operation, one completion. Steps of any number of
    threads and waiters interleave freely; the kernel is an oracle. */
module Protocol {
  import opened Poll
  import opened InterestList
  import opened Demultiplexing

  type OpId = nat
  type WaiterId = nat

  const EAGAIN := 11
  const EISCONN := 106
  const EALREADY := 114
  const EINPROGRESS := 115

  /** An error that makes an operation complete without running its function. */
  predicate Failing(error: int) {
    error != 0 && error != EAGAIN
  }

  datatype Trigger = On(d: Direction) | Eager

  /** accept/recvmsg (reading) and sendmsg (writing), with or without the eager
      attempt configured; connect; or a caller's own function. */
  datatype Kind = Transfer(d: Direction, eager: bool) | Dial | Custom(trigger: Trigger)

  /** The stored functor: a captured result, a function still to run, or empty. */
  datatype Func = Const(v: int) | Deferred | Empty

  /** The program counter of an operation. */
  datatype Phase =
    | Attempted          // eager attempt failed, error stored, not yet read back
    | Made               // the sender exists
    | Registering        // connect saw no error, lock not yet taken
    | Connected          // the operation state exists
    | Enqueuing          // start saw no error, lock not yet taken
    | Queued
    | Ready(w: WaiterId)
    | Running            // popped or started inline, completion not yet signalled
    | Done
    | Thrown             // connect threw

  datatype Op = Op(kind: Kind, handle: Handle, trigger: Trigger, func: Func, demux: Option<nat>, phase: Phase)

  datatype SysResult = Success(v: int) | Failure(errno: int)

  datatype Outcome = Value(v: int) | Error(errno: int)

  datatype Signal = Signal(op: OpId, outcome: Outcome)

  /** A successful run of an operation's function or eager system call. */
  datatype Effect = Effect(op: OpId, v: int)

  datatype Waiter =
    | Polling(timeout: int, snapshot: seq<PollFd>)
    | Reported(timeout: int, events: seq<PollFd>)
    | Draining(timeout: int, count: nat, ready: seq<OpId>, current: Option<OpId>)

  /** Undefined behaviour reached by the source; nothing happens after it. */
  datatype Fault = NoFault | NullDemux(op: OpId) | NullSocket | DanglingSocket | EmptyFunctor(op: OpId)

  datatype State = State(
    ops: map<OpId, Op>,
    mux: Mux<OpId, Handle>,
    errors: map<Handle, int>,
    waiters: map<WaiterId, Waiter>,
    running: set<OpId>,
    signals: seq<Signal>,
    effects: seq<Effect>,
    counter: nat,
    released: set<Handle>,
    fault: Fault)

  datatype Step =
    | Create(o: OpId, kind: Kind, h: Handle, result: SysResult)
    | Classify(o: OpId)
    | ConnectCheck(o: OpId)
    | AddInterest(o: OpId)
    | StartCheck(o: OpId)
    | Push(o: OpId)
    | Snapshot(w: WaiterId, timeout: int)
    | PollReturn(w: WaiterId, revents: seq<set<Flag>>)
    | PollThrow(w: WaiterId)
    | DispatchEvents(w: WaiterId, soErrors: seq<int>)
    | Pop(w: WaiterId)
    | Complete(o: OpId, result: SysResult)
    | Return(w: WaiterId)
    | Finish(w: WaiterId)
    | SetError(h: Handle, error: int)
    | Release(h: Handle)

  const Init: State := State(map[], Mux([], []), map[], map[], {}, [], [], 0, {}, NoFault)

  function ErrorOf(s: State, h: Handle): int {
    if h in s.errors then s.errors[h] else 0
  }

  function InPhase(s: State, o: OpId, phase: Phase): State
    requires o in s.ops
  {
    s.(ops := s.ops[o := s.ops[o].(phase := phase)])
  }

  // --- Creation: accept, recvmsg, sendmsg, connect, set ---

  function NextCounter(c: nat): nat { (c + 1) % 256 }

  /** A creation whose eager attempt is made, given the counter it increments. */
  predicate Attempts(kind: Kind, counter: nat) {
    kind.Transfer? && kind.eager && NextCounter(counter) != 0
  }

  /** A failed connect whose error is stored on the handle. */
  predicate DialFails(kind: Kind, r: SysResult) {
    kind.Dial? && r.Failure? && r.errno !in {EINPROGRESS, EAGAIN, EALREADY, EISCONN}
  }

  function TriggerOf(kind: Kind): Trigger {
    match kind
    case Transfer(d, _) => On(d)
    case Dial => On(Write)
    case Custom(t) => t
  }

  function ApplyCreate(s: State, o: OpId, kind: Kind, h: Handle, r: SysResult): State {
    var op := Op(kind, h, TriggerOf(kind), if kind.Dial? then Const(0) else Deferred, None, Made);
    var s := if kind.Transfer? && kind.eager then s.(counter := NextCounter(s.counter)) else s;
    if kind.Transfer? && kind.eager && s.counter != 0 then
      match r
      case Success(v) =>
        s.(ops := s.ops[o := op.(trigger := Eager, func := Const(v))], effects := s.effects + [Effect(o, v)])
      case Failure(e) =>
        s.(ops := s.ops[o := op.(phase := Attempted)], errors := s.errors[h := e])
    else if DialFails(kind, r) then
      s.(ops := s.ops[o := op], errors := s.errors[h := r.errno])
    else
      s.(ops := s.ops[o := op])
  }

  /** Reads the error back after a failed attempt: give up, or wait for readiness. */
  function ApplyClassify(s: State, o: OpId): State
    requires o in s.ops
  {
    var op := s.ops[o].(phase := Made);
    s.(ops := s.ops[o := if Failing(ErrorOf(s, op.handle)) then op.(trigger := Eager, func := Empty) else op])
  }

  // --- sender::connect and state::start ---

  function ApplyConnectCheck(s: State, o: OpId): State
    requires o in s.ops
  {
    var op := s.ops[o];
    InPhase(s, o, if !Failing(ErrorOf(s, op.handle)) && op.trigger.On? then Registering else Connected)
  }

  function ApplyAddInterest(s: State, o: OpId): State
    requires o in s.ops && s.ops[o].trigger.On?
  {
    var op := s.ops[o];
    if op.handle.fd < 0 then InPhase(s, o, Thrown)   // `at` throws std::out_of_range
    else s.(ops := s.ops[o := op.(demux := Some(op.handle.fd), phase := Connected)],
            mux := Register(s.mux, op.handle.fd, op.trigger.d))
  }

  function ApplyStartCheck(s: State, o: OpId): State
    requires o in s.ops
  {
    var op := s.ops[o];
    if op.trigger.Eager? || Failing(ErrorOf(s, op.handle)) then
      InPhase(s, o, Running).(running := s.running + {o})
    else
      InPhase(s, o, Enqueuing)
  }

  function ApplyPush(s: State, o: OpId): State
    requires o in s.ops && s.ops[o].trigger.On?
    requires s.ops[o].demux.Some? ==> s.ops[o].demux.value < |s.mux.demux|
  {
    var op := s.ops[o];
    if op.demux.None? then s.(fault := NullDemux(o))
    else InPhase(s, o, Queued).(mux := Enqueue(s.mux, op.demux.value, op.trigger.d, o, op.handle))
  }

  // --- wait_for ---

  function WithRevents(l: seq<PollFd>, revents: seq<set<Flag>>): (r: seq<PollFd>)
    requires |l| == |revents|
    ensures |r| == |l|
    ensures forall i :: 0 <= i < |l| ==> r[i] == l[i].(revents := revents[i])
  {
    if l == [] then [] else [l[0].(revents := revents[0])] + WithRevents(l[1..], revents[1..])
  }

  /** The entries `poll_` keeps. */
  function Reports(l: seq<PollFd>): seq<PollFd> {
    if l == [] then [] else (if l[0].revents != {} then [l[0]] else []) + Reports(l[1..])
  }

  function MakeReady(ops: map<OpId, Op>, ready: seq<OpId>, w: WaiterId): map<OpId, Op> {
    map o | o in ops :: if o in ready then ops[o].(phase := Ready(w)) else ops[o]
  }

  /** What storing the errors of a report does when a socket pointer is null, or
      points to a handle that no longer exists. */
  function DispatchFault(s: State, evs: seq<PollFd>): Fault
    requires forall i :: 0 <= i < |evs| ==> 0 <= evs[i].fd < |s.mux.demux|
  {
    if NullSocketHit(s.mux, evs) then NullSocket
    else if DanglingSocketHit(s.mux, evs, s.released) then DanglingSocket
    else NoFault
  }

  function ApplyDispatch(s: State, w: WaiterId, soErrors: seq<int>): State
    requires w in s.waiters && s.waiters[w].Reported?
    requires |soErrors| == |s.waiters[w].events|
    requires forall i :: 0 <= i < |s.waiters[w].events| ==> 0 <= s.waiters[w].events[i].fd < |s.mux.demux|
  {
    var Reported(timeout, evs) := s.waiters[w];
    if !DispatchFault(s, evs).NoFault? then s.(fault := DispatchFault(s, evs))
    else
      var mux, ready := Dispatched(s.mux, evs), MadeReady(s.mux, evs);
      s.(mux := mux,
         errors := StoredErrors(s.mux, s.errors, evs, soErrors),
         ops := MakeReady(s.ops, ready, w),
         waiters := s.waiters[w := Draining(timeout, |evs|, ready, None)])
  }

  function ApplyPop(s: State, w: WaiterId): State
    requires w in s.waiters && s.waiters[w].Draining? && s.waiters[w].ready != []
    requires s.waiters[w].ready[0] in s.ops
  {
    var x := s.waiters[w];
    var o := x.ready[0];
    InPhase(s, o, Running).(
      running := s.running + {o},
      waiters := s.waiters[w := x.(ready := x.ready[1..], current := Some(o))])
  }

  function SignalDone(s: State, o: OpId, out: Outcome): State
    requires o in s.ops
  {
    InPhase(s, o, Done).(running := s.running - {o}, signals := s.signals + [Signal(o, out)])
  }

  function ApplyComplete(s: State, o: OpId, r: SysResult): State
    requires o in s.ops
  {
    var op := s.ops[o];
    var error := ErrorOf(s, op.handle);
    if Failing(error) then SignalDone(s, o, Error(error))
    else match op.func
         case Const(v) => SignalDone(s, o, Value(v))
         case Deferred =>
           (match r
            case Success(v) => SignalDone(s.(effects := s.effects + [Effect(o, v)]), o, Value(v))
            case Failure(e) => SignalDone(s, o, Error(e)))
         case Empty => s.(fault := EmptyFunctor(o))
  }

  // --- The transition relation ---

  predicate HasPhase(s: State, o: OpId, phase: Phase) {
    o in s.ops && s.ops[o].phase == phase
  }

  /** The operation no longer shares ownership of its handle. */
  predicate Finished(phase: Phase) {
    phase == Done || phase == Thrown
  }

  /** No operation waiting on the descriptor holds another handle: a waiting
      operation keeps its handle alive, and one live handle owns a descriptor. */
  predicate SameHandle(s: State, h: Handle) {
    forall d :: forall i :: 0 <= i < |Q(s.mux, h.fd, d)| ==>
      Q(s.mux, h.fd, d)[i] in s.ops && s.ops[Q(s.mux, h.fd, d)[i]].handle == h
  }

  predicate Enabled(s: State, step: Step) {
    s.fault.NoFault? &&
    match step
    case Create(o, _, h, _) => o !in s.ops && h !in s.released
    case Classify(o) => HasPhase(s, o, Attempted)
    case ConnectCheck(o) => HasPhase(s, o, Made)
    case AddInterest(o) => HasPhase(s, o, Registering) && s.ops[o].trigger.On?
    case StartCheck(o) => HasPhase(s, o, Connected)
    case Push(o) =>
      HasPhase(s, o, Enqueuing) && s.ops[o].trigger.On? && SameHandle(s, s.ops[o].handle) &&
      (s.ops[o].demux.Some? ==> s.ops[o].demux.value < |s.mux.demux|)
    case Snapshot(w, _) => w !in s.waiters
    case PollReturn(w, revents) =>
      w in s.waiters && s.waiters[w].Polling? && |revents| == |s.waiters[w].snapshot| &&
      // `poll` with a negative timeout reports at least one descriptor
      (s.waiters[w].timeout < 0 && revents != [] ==> exists i :: 0 <= i < |revents| && revents[i] != {})
    case PollThrow(w) => w in s.waiters && s.waiters[w].Polling? && s.waiters[w].snapshot != []
    case DispatchEvents(w, soErrors) =>
      w in s.waiters && s.waiters[w].Reported? && |soErrors| == |s.waiters[w].events| &&
      (forall i :: 0 <= i < |s.waiters[w].events| ==> 0 <= s.waiters[w].events[i].fd < |s.mux.demux|)
    case Pop(w) =>
      w in s.waiters && s.waiters[w].Draining? && s.waiters[w].ready != [] && s.waiters[w].current.None? &&
      s.waiters[w].ready[0] in s.ops
    case Complete(o, _) => HasPhase(s, o, Running)
    case Return(w) =>
      w in s.waiters && s.waiters[w].Draining? && s.waiters[w].current.Some? &&
      HasPhase(s, s.waiters[w].current.value, Done)
    case Finish(w) =>
      w in s.waiters && s.waiters[w].Draining? && s.waiters[w].ready == [] && s.waiters[w].current.None?
    case SetError(h, _) => h !in s.released
    case Release(h) => h !in s.released && forall o :: o in s.ops && s.ops[o].handle == h ==> Finished(s.ops[o].phase)
  }

  function Apply(s: State, step: Step): State
    requires Enabled(s, step)
  {
    match step
    case Create(o, kind, h, r) => ApplyCreate(s, o, kind, h, r)
    case Classify(o) => ApplyClassify(s, o)
    case ConnectCheck(o) => ApplyConnectCheck(s, o)
    case AddInterest(o) => ApplyAddInterest(s, o)
    case StartCheck(o) => ApplyStartCheck(s, o)
    case Push(o) => ApplyPush(s, o)
    case Snapshot(w, timeout) => s.(waiters := s.waiters[w := Polling(timeout, Active(s.mux.list))])
    case PollReturn(w, revents) =>
      var x := s.waiters[w];
      s.(waiters := s.waiters[w := Reported(x.timeout, Reports(WithRevents(x.snapshot, revents)))])
    case PollThrow(w) => s.(waiters := s.waiters - {w})
    case DispatchEvents(w, soErrors) => ApplyDispatch(s, w, soErrors)
    case Pop(w) => ApplyPop(s, w)
    case Complete(o, r) => ApplyComplete(s, o, r)
    case Return(w) => s.(waiters := s.waiters[w := s.waiters[w].(current := None)])
    case Finish(w) => s.(waiters := s.waiters - {w})
    case SetError(h, e) => s.(errors := s.errors[h := e])
    case Release(h) => s.(released := s.released + {h})
  }

  const NoSteps: Run := Run([Init], [])

  lemma ThenValid(r: Run, step: Step)
    requires r.Valid() && Enabled(r.Last(), step)
    ensures r.Then(step).Valid()
    ensures r.Then(step).Last() == Apply(r.Last(), step)
    ensures r.states <= r.Then(step).states && r.steps <= r.Then(step).steps
  {
    var r' := r.Then(step);
    forall i | 0 <= i < |r'.steps| ensures r'.StepAt(i) {
      if i < |r.steps| { assert r.StepAt(i); }
    }
  }

  /** A finite run from the initial state. */
  datatype Run = Run(states: seq<State>, steps: seq<Step>) {
    ghost predicate Valid() {
      && |states| == |steps| + 1
      && states[0] == Init
      && (forall i :: 0 <= i < |steps| ==> StepAt(i))
    }

    function Last(): State
      requires states != []
    {
      states[|states| - 1]
    }

    /** The run with one more step. */
    function Then(step: Step): Run
      requires states != [] && Enabled(Last(), step)
    {
      Run(states + [Apply(Last(), step)], steps + [step])
    }

    ghost predicate StepAt(i: int)
      requires |states| == |steps| + 1
    {
      0 <= i < |steps| && Enabled(states[i], steps[i]) && states[i + 1] == Apply(states[i], steps[i])
    }
  }
}
