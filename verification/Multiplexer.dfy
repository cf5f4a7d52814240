/** The multiplexer as the source writes it: an object with a table of
    demultiplexers, an interest list and a mutex, whose methods update them
    step by step. Each method is proved against the value-level regions that
    the protocol is made of. A queue is here the sequence of its tasks, which
    module TaskQueue proves the linked queue to be. */
module Multiplexer {
  import opened Sequences
  import opened Poll
  import opened InterestList
  import opened Demultiplexing
  import opened Protocol
  import opened Conservation

  /** An operation that a completion connects and starts. */
  datatype Request = Request(o: OpId, handle: Handle, d: Direction)

  type Shared = Mux<OpId, Handle>

  /** Connect and start, one after the other; a connect that throws starts nothing. */
  function Submitted(m: Shared, r: Request): Shared {
    if r.handle.fd < 0 then m
    else Enqueue(Register(m, r.handle.fd, r.d), r.handle.fd, r.d, r.o, r.handle)
  }

  function SubmittedAll(m: Shared, rs: seq<Request>): Shared {
    if rs == [] then m else Submitted(SubmittedAll(m, rs[..|rs| - 1]), rs[|rs| - 1])
  }

  /** What the completions of a drain submit, completion by completion. */
  function Continued(m: Shared, scripts: seq<seq<Request>>): Shared {
    if scripts == [] then m else SubmittedAll(Continued(m, scripts[..|scripts| - 1]), scripts[|scripts| - 1])
  }

  /** Submitting only appends: what waits keeps its place in its queue. */
  lemma SubmittedExtends(m: Shared, r: Request, fd: int, d: Direction)
    requires Indexed(m.list, |m.demux|)
    ensures Q(Submitted(m, r), fd, d) == Q(m, fd, d) + if (fd, d) == (r.handle.fd, r.d) && fd >= 0 then [r.o] else []
    ensures Interested(Submitted(m, r), fd, d) <==> Interested(m, fd, d) || ((fd, d) == (r.handle.fd, r.d) && fd >= 0)
  {
    if r.handle.fd >= 0 {
      RegisterEffect(m, r.handle.fd, r.d, fd, d);
      EnqueueEffect(Register(m, r.handle.fd, r.d), r.handle.fd, r.d, r.o, r.handle);
    }
  }

  /** The operations that requests start on a descriptor and direction, in order. */
  function SentTo(rs: seq<Request>, fd: int, d: Direction): seq<OpId> {
    if rs == [] then []
    else
      var n := |rs| - 1;
      SentTo(rs[..n], fd, d) + if rs[n].handle.fd == fd && rs[n].d == d && fd >= 0 then [rs[n].o] else []
  }

  /** Some request names the descriptor and direction. */
  predicate Names(rs: seq<Request>, fd: int, d: Direction) {
    fd >= 0 && exists i :: 0 <= i < |rs| && rs[i].handle.fd == fd && rs[i].d == d
  }

  /** Every queue got its operations behind what it held, and interest is what
      it was and what the requests name. */
  ghost predicate Extends(m: Shared, m': Shared, rs: seq<Request>) {
    forall fd, d ::
      && Q(m', fd, d) == Q(m, fd, d) + SentTo(rs, fd, d)
      && (Interested(m', fd, d) <==> Interested(m, fd, d) || Names(rs, fd, d))
  }

  lemma {:induction false} SentToConcat(a: seq<Request>, b: seq<Request>, fd: int, d: Direction)
    ensures SentTo(a + b, fd, d) == SentTo(a, fd, d) + SentTo(b, fd, d)
    decreases |b|
  {
    if b == [] {
      assert a + b == a;
    } else {
      var n := |b| - 1;
      assert (a + b)[..|a| + n] == a + b[..n];
      SentToConcat(a, b[..n], fd, d);
    }
  }

  lemma SentToOne(r: Request, fd: int, d: Direction)
    ensures SentTo([r], fd, d) == if r.handle.fd == fd && r.d == d && fd >= 0 then [r.o] else []
  {
    assert [r][..0] == [];
  }

  lemma NamesConcat(a: seq<Request>, b: seq<Request>, fd: int, d: Direction)
    ensures Names(a + b, fd, d) <==> Names(a, fd, d) || Names(b, fd, d)
  {
    if Names(a, fd, d) {
      var i :| 0 <= i < |a| && a[i].handle.fd == fd && a[i].d == d;
      assert (a + b)[i] == a[i];
    }
    if Names(b, fd, d) {
      var i :| 0 <= i < |b| && b[i].handle.fd == fd && b[i].d == d;
      assert (a + b)[|a| + i] == b[i];
    }
  }

  lemma ExtendsTwice(m0: Shared, m1: Shared, m2: Shared, a: seq<Request>, b: seq<Request>)
    requires Extends(m0, m1, a) && Extends(m1, m2, b)
    ensures Extends(m0, m2, a + b)
  {
    forall fd, d
      ensures Q(m2, fd, d) == Q(m0, fd, d) + SentTo(a + b, fd, d)
      ensures Interested(m2, fd, d) <==> Interested(m0, fd, d) || Names(a + b, fd, d)
    {
      SentToConcat(a, b, fd, d);
      NamesConcat(a, b, fd, d);
      assert Q(m1, fd, d) == Q(m0, fd, d) + SentTo(a, fd, d);
      assert Interested(m1, fd, d) <==> Interested(m0, fd, d) || Names(a, fd, d);
    }
  }

  lemma SubmittedOne(m: Shared, r: Request)
    requires Indexed(m.list, |m.demux|)
    ensures Indexed(Submitted(m, r).list, |Submitted(m, r).demux|) && Extends(m, Submitted(m, r), [r])
  {
    if r.handle.fd >= 0 { RegisterEffect(m, r.handle.fd, r.d, 0, Read); }
    forall fd, d
      ensures Q(Submitted(m, r), fd, d) == Q(m, fd, d) + SentTo([r], fd, d)
      ensures Interested(Submitted(m, r), fd, d) <==> Interested(m, fd, d) || Names([r], fd, d)
    {
      SubmittedExtends(m, r, fd, d);
      SentToOne(r, fd, d);
      assert Names([r], fd, d) <==> fd >= 0 && [r][0].handle.fd == fd && [r][0].d == d;
    }
  }

  lemma ExtendsNone(m: Shared)
    ensures Extends(m, m, [])
  {
  }

  /** What a script submits, on every queue and interest bit. */
  lemma {:induction false} ScriptExtends(m: Shared, rs: seq<Request>)
    requires Indexed(m.list, |m.demux|)
    ensures var m' := SubmittedAll(m, rs); Indexed(m'.list, |m'.demux|) && Extends(m, m', rs)
  {
    if rs == [] {
      ExtendsNone(m);
    } else {
      var n := |rs| - 1;
      ScriptExtends(m, rs[..n]);
      SubmittedOne(SubmittedAll(m, rs[..n]), rs[n]);
      ExtendsTwice(m, SubmittedAll(m, rs[..n]), SubmittedAll(m, rs), rs[..n], [rs[n]]);
      assert rs[..n] + [rs[n]] == rs;
    }
  }

  /** What the completions of a drain submit, likewise. */
  lemma {:induction false} DrainExtends(m: Shared, scripts: seq<seq<Request>>)
    requires Indexed(m.list, |m.demux|)
    ensures var m' := Continued(m, scripts); Indexed(m'.list, |m'.demux|) && Extends(m, m', Joined(scripts))
  {
    if scripts == [] {
      ExtendsNone(m);
    } else {
      var n := |scripts| - 1;
      var m1 := Continued(m, scripts[..n]);
      DrainExtends(m, scripts[..n]);
      ScriptExtends(m1, scripts[n]);
      ExtendsTwice(m, m1, Continued(m, scripts), Joined(scripts[..n]), scripts[n]);
    }
  }

  /** The same after the dispatch of a report: what it selected is gone from the
      queues, what it cleared is gone from the interest. */
  ghost predicate AfterWait(m: Shared, m': Shared, evs: seq<PollFd>, rs: seq<Request>) {
    forall fd, d ::
      && Q(m', fd, d) == (if Selected(evs, fd, d) then [] else Q(m, fd, d)) + SentTo(rs, fd, d)
      && (Interested(m', fd, d) <==> (Interested(m, fd, d) && !IsCleared(evs, fd, d)) || Names(rs, fd, d))
  }

  lemma WaitExtends(m: Shared, evs: seq<PollFd>, scripts: seq<seq<Request>>)
    requires Indexed(m.list, |m.demux|) && InTable(m, evs)
    ensures AfterWait(m, Continued(Dispatched(m, evs), scripts), evs, Joined(scripts))
  {
    var m1, m2 := Dispatched(m, evs), Continued(Dispatched(m, evs), scripts);
    DispatchInterest(m, evs, 0, Read);
    DrainExtends(m1, scripts);
    forall fd, d
      ensures Q(m2, fd, d) == (if Selected(evs, fd, d) then [] else Q(m, fd, d)) + SentTo(Joined(scripts), fd, d)
      ensures Interested(m2, fd, d) <==>
              (Interested(m, fd, d) && !IsCleared(evs, fd, d)) || Names(Joined(scripts), fd, d)
    {
      DispatchQueues(m, evs, fd, d);
      DispatchInterest(m, evs, fd, d);
      assert Q(m2, fd, d) == Q(m1, fd, d) + SentTo(Joined(scripts), fd, d);
      assert Interested(m2, fd, d) <==> Interested(m1, fd, d) || Names(Joined(scripts), fd, d);
    }
  }

  /** What a wait reports, given the flags the kernel sets for each polled entry. */
  function ReportOf(m: Shared, revents: seq<set<Flag>>): seq<PollFd>
    requires |revents| == |Active(m.list)|
  {
    Reports(WithRevents(Active(m.list), revents))
  }

  lemma WaitReportIndexed(m: Shared, revents: seq<set<Flag>>)
    requires |revents| == |Active(m.list)| && Indexed(m.list, |m.demux|)
    ensures Indexed(ReportOf(m, revents), |m.demux|)
  {
    ActiveIndexed(m.list, |m.demux|);
    ReportsIndexed(WithRevents(Active(m.list), revents), |m.demux|);
  }

  /** One socket error per reported event, one script per completion, and no
      failure reported for a descriptor on which nothing was ever started. */
  ghost predicate WaitInputs(m: Shared, revents: seq<set<Flag>>, soErrors: seq<int>, scripts: seq<seq<Request>>)
    requires |revents| == |Active(m.list)| && Indexed(m.list, |m.demux|)
  {
    WaitReportIndexed(m, revents);
    var evs := ReportOf(m, revents);
    !NullSocketHit(m, evs) && |soErrors| == |evs| && |scripts| == |ReadyOf(m, evs)|
  }

  /** What a wait reports and leaves, given the kernel's flags and what the
      completions submit. */
  lemma WaitEffects(m: Shared, revents: seq<set<Flag>>, scripts: seq<seq<Request>>)
    requires |revents| == |Active(m.list)| && Indexed(m.list, |m.demux|)
    ensures var evs := ReportOf(m, revents);
            && Indexed(evs, |m.demux|) && |evs| == |Answered(revents)| && MadeReady(m, evs) == ReadyOf(m, evs)
            && AfterWait(m, Continued(Dispatched(m, evs), scripts), evs, Joined(scripts))
  {
    WaitReportIndexed(m, revents);
    ReportsCount(Active(m.list), revents);
    DispatchReady(m, ReportOf(m, revents));
    WaitExtends(m, ReportOf(m, revents), scripts);
  }

  class PollMultiplexer {
    var demux: seq<Demux<OpId, Handle>>
    const list: List
    var errors: map<Handle, int>
    var held: bool
    var log: seq<OpId>

    ghost predicate Valid()
      reads this, list
    {
      list.Valid() && Indexed(list.entries, |demux|)
    }

    ghost function Value(): Shared
      reads this, list
    {
      Mux(demux, list.entries)
    }

    constructor ()
      ensures Valid() && !held && Value() == Mux([], []) && log == [] && errors == map[] && fresh(list)
    {
      demux := [];
      list := new List();
      errors := map[];
      held := false;
      log := [];
    }

    /** `demux->resize`: one default demultiplexer after another. */
    method Resize(size: nat)
      modifies this`demux
      ensures demux == Grown(old(demux), size)
    {
      while |demux| < size
        invariant |demux| <= size || demux == old(demux)
        invariant demux == Grown(old(demux), |demux|)
      {
        GrownOne(old(demux), |demux|);
        demux := demux + [Demux([], [], None)];
      }
    }

    /** The locked region of `sender::connect`. A descriptor of -1 makes `at`
        throw: nothing changes, and the lock is released. */
    method Connect(handle: Handle, d: Direction) returns (connected: bool)
      requires Valid() && !held
      modifies this`demux, this`held, list
      ensures Valid() && !held
      ensures connected <==> handle.fd >= 0
      ensures Value() == if connected then Register(old(Value()), handle.fd, d) else old(Value())
    {
      held := true;
      connected := handle.fd >= 0;
      if connected {
        RegisterEffect(Value(), handle.fd, d, 0, Read);
        Resize(handle.fd + 1);
        var pos := list.UpdateOrInsert(PollFd(handle.fd, {DirFlag(d)}, {}));
      }
      held := false;
    }

    /** The locked region of `state::start`, for an operation its connect registered. */
    method Start(o: OpId, handle: Handle, d: Direction)
      requires Valid() && !held && 0 <= handle.fd < |demux|
      modifies this`demux, this`held
      ensures Valid() && !held
      ensures Value() == Enqueue(old(Value()), handle.fd, d, o, handle)
    {
      held := true;
      var x := demux[handle.fd];
      if d == Write {
        x := x.(write := x.write + [o]);
      }
      if d == Read {
        x := x.(read := x.read + [o]);
      }
      demux := demux[handle.fd := x.(socket := Some(handle))];
      held := false;
    }

    method Submit(r: Request)
      requires Valid() && !held
      modifies this`demux, this`held, list
      ensures Valid() && !held && Value() == Submitted(old(Value()), r)
    {
      var connected := Connect(r.handle, r.d);
      if connected {
        Start(r.o, r.handle, r.d);
      }
    }

    /** `poll_` after the system call: drops the entries without events. */
    method KeepReported(l: seq<PollFd>) returns (reported: seq<PollFd>)
      ensures reported == Reports(l)
    {
      reported := [];
      for i := 0 to |l|
        invariant reported == Reports(l[..i])
      {
        assert l[..i + 1] == l[..i] + [l[i]];
        ReportsAppend(l[..i], l[i]);
        if l[i].revents != {} {
          reported := reported + [l[i]];
        }
      }
      assert l[..|l|] == l;
    }

    /** `prepare_handles`: store the error, then move the writers, then the readers. */
    method PrepareHandles(ev: PollFd, soError: int, ready: seq<OpId>) returns (ready': seq<OpId>)
      requires 0 <= ev.fd < |demux| && (Fatal(ev.revents) ==> demux[ev.fd].socket.Some?)
      modifies this`demux, this`errors
      ensures ready' == ready + Moved(old(demux)[ev.fd], ev.revents)
      ensures demux == old(demux)[ev.fd := Drained(old(demux)[ev.fd], ev.revents)]
      ensures errors ==
                if Fatal(ev.revents) then old(errors)[old(demux)[ev.fd].socket.value := soError] else old(errors)
    {
      var x := demux[ev.fd];
      ready' := ready;
      if Fatal(ev.revents) {
        errors := errors[x.socket.value := soError];
      }
      if Selects(ev.revents, Write) {
        ready', x := ready' + x.write, x.(write := []);
      }
      if Selects(ev.revents, Read) {
        ready', x := ready' + x.read, x.(read := []);
      }
      demux := demux[ev.fd := x];
    }

    /** The loop body of the second locked region of `wait_for`. */
    method HandleEvent(ev: PollFd, soError: int, ready: seq<OpId>) returns (ready': seq<OpId>)
      requires Valid() && 0 <= ev.fd < |demux| && (Fatal(ev.revents) ==> demux[ev.fd].socket.Some?)
      modifies this`demux, this`errors, list
      ensures Valid() && Value() == DispatchOne(old(Value()), ev)
      ensures ready' == ready + Moved(old(demux)[ev.fd], ev.revents)
      ensures errors ==
                if Fatal(ev.revents) then old(errors)[old(demux)[ev.fd].socket.value := soError] else old(errors)
    {
      ClearedView(list.entries, ev);
      list.ClearEvent(ev);
      ready' := PrepareHandles(ev, soError, ready);
    }

    /** The second locked region of `wait_for`. */
    method DispatchAll(evs: seq<PollFd>, soErrors: seq<int>) returns (ready: seq<OpId>)
      requires Valid() && !held && |evs| == |soErrors| && Indexed(evs, |demux|)
      requires !NullSocketHit(Value(), evs)
      modifies this`demux, this`errors, this`held, list
      ensures Valid() && !held
      ensures Value() == Dispatched(old(Value()), evs) && ready == MadeReady(old(Value()), evs)
      ensures errors == StoredErrors(old(Value()), old(errors), evs, soErrors)
    {
      held := true;
      ready := [];
      ghost var m0 := Value();
      for i := 0 to |evs|
        invariant Valid() && |demux| == |m0.demux|
        invariant Value() == Dispatched(m0, evs[..i]) && ready == MadeReady(m0, evs[..i])
        invariant errors == StoredErrors(m0, old(errors), evs[..i], soErrors[..i])
      {
        DispatchPrefix(m0, old(errors), evs, soErrors, i);
        ready := HandleEvent(evs[i], soErrors[i], ready);
      }
      assert evs[..|evs|] == evs && soErrors[..|evs|] == soErrors;
      held := false;
    }

    /** One completion, outside the lock; its continuation may submit operations. */
    method Execute(o: OpId, script: seq<Request>)
      requires Valid() && !held
      modifies this`demux, this`held, this`log, list
      ensures Valid() && !held
      ensures log == old(log) + [o] && Value() == SubmittedAll(old(Value()), script)
      ensures Extends(old(Value()), Value(), script)
    {
      ScriptExtends(Value(), script);
      log := log + [o];
      for i := 0 to |script|
        invariant Valid() && !held && log == old(log) + [o]
        invariant Value() == SubmittedAll(old(Value()), script[..i])
      {
        assert script[..i + 1][..i] == script[..i];
        Submit(script[i]);
      }
      assert script[..|script|] == script;
    }

    /** `run_queue`: pops and executes until the queue is empty, while the
        completions submit what they like. */
    method RunQueue(queue: seq<OpId>, scripts: seq<seq<Request>>)
      requires Valid() && !held && |scripts| == |queue|
      modifies this`demux, this`held, this`log, list
      ensures Valid() && !held
      ensures log == old(log) + queue
      ensures Value() == Continued(old(Value()), scripts)
      ensures Extends(old(Value()), Value(), Joined(scripts))
    {
      DrainExtends(Value(), scripts);
      var rest := queue;
      ghost var n := 0;
      while rest != []
        invariant Valid() && !held && n <= |queue| && rest == queue[n..]
        invariant log == old(log) + queue[..n]
        invariant Value() == Continued(old(Value()), scripts[..n])
        decreases |rest|
      {
        var task := rest[0];
        rest := rest[1..];
        assert scripts[..n + 1][..n] == scripts[..n];
        Execute(task, scripts[|queue| - |rest| - 1]);
        n := n + 1;
      }
      assert scripts[..|queue|] == scripts && queue[..|queue|] == queue;
    }

    /** The first locked region of `wait_for`. */
    method TakeSnapshot() returns (snapshot: seq<PollFd>)
      requires Valid() && !held
      modifies this`held
      ensures Valid() && !held && snapshot == Active(list.entries)
    {
      held := true;
      snapshot := list.CopyActive();
      held := false;
    }

    /** `wait_for` on one thread, with what the kernel answers as parameters:
        the flags per polled entry and the socket errors per reported event. It
        executes, in order, exactly the tasks waiting on the reported
        descriptors, and its completions submit what they like. */
    method WaitFor(revents: seq<set<Flag>>, soErrors: seq<int>, scripts: seq<seq<Request>>) returns (count: nat)
      requires Valid() && !held && |revents| == |Active(list.entries)|
      requires WaitInputs(Value(), revents, soErrors, scripts)
      modifies this, list
      ensures Valid() && !held
      ensures Indexed(ReportOf(old(Value()), revents), |old(demux)|)
      ensures count == |Answered(revents)|
      ensures log == old(log) + ReadyOf(old(Value()), ReportOf(old(Value()), revents))
      ensures errors == StoredErrors(old(Value()), old(errors), ReportOf(old(Value()), revents), soErrors)
      ensures Value() == Continued(Dispatched(old(Value()), ReportOf(old(Value()), revents)), scripts)
      ensures AfterWait(old(Value()), Value(), ReportOf(old(Value()), revents), Joined(scripts))
    {
      WaitEffects(Value(), revents, scripts);
      var snapshot := TakeSnapshot();
      var reported := KeepReported(WithRevents(snapshot, revents));
      var ready := DispatchAll(reported, soErrors);
      RunQueue(ready, scripts);
      count := |reported|;
    }
  }

  /** One more event, at the end of the folds that a dispatch computes. */
  lemma DispatchPrefix(m: Shared, errors: map<Handle, int>, evs: seq<PollFd>, soErrors: seq<int>, i: nat)
    requires i < |evs| == |soErrors| && Indexed(evs, |m.demux|) && !NullSocketHit(m, evs)
    ensures var x := Dispatched(m, evs[..i]).demux[evs[i].fd];
            x.socket == m.demux[evs[i].fd].socket && (Fatal(evs[i].revents) ==> x.socket.Some?)
    ensures Dispatched(m, evs[..i + 1]) == DispatchOne(Dispatched(m, evs[..i]), evs[i])
    ensures MadeReady(m, evs[..i + 1]) ==
            MadeReady(m, evs[..i]) + Moved(Dispatched(m, evs[..i]).demux[evs[i].fd], evs[i].revents)
    ensures var errors' := StoredErrors(m, errors, evs[..i], soErrors[..i]);
            var socket := m.demux[evs[i].fd].socket;
            StoredErrors(m, errors, evs[..i + 1], soErrors[..i + 1]) ==
            if Fatal(evs[i].revents) && socket.Some? then errors'[socket.value := soErrors[i]] else errors'
  {
    PrefixSocket(m, evs, i);
    assert evs[..i + 1][..i] == evs[..i] && soErrors[..i + 1][..i] == soErrors[..i];
    PrefixFolds(m, evs[..i + 1], evs[..i], i);
    PrefixErrors(m, errors, evs[..i + 1], soErrors[..i + 1], i);
  }

  lemma PrefixSocket(m: Shared, evs: seq<PollFd>, i: nat)
    requires i < |evs| && InTable(m, evs) && !NullSocketHit(m, evs)
    ensures var x := Dispatched(m, evs[..i]).demux[evs[i].fd];
            x.socket == m.demux[evs[i].fd].socket && (Fatal(evs[i].revents) ==> x.socket.Some?)
  {
    DispatchQueues(m, evs[..i], 0, Read);
  }

  lemma PrefixFolds(m: Shared, more: seq<PollFd>, evs: seq<PollFd>, i: nat)
    requires InTable(m, more) && |more| == i + 1 && evs == more[..i]
    ensures Dispatched(m, more) == DispatchOne(Dispatched(m, evs), more[i])
    ensures MadeReady(m, more) == MadeReady(m, evs) + Moved(Dispatched(m, evs).demux[more[i].fd], more[i].revents)
  {
  }

  lemma PrefixErrors(m: Shared, errors: map<Handle, int>, more: seq<PollFd>, so: seq<int>, i: nat)
    requires |more| == |so| == i + 1 && InTable(m, more)
    ensures var errors' := StoredErrors(m, errors, more[..i], so[..i]);
            var socket := m.demux[more[i].fd].socket;
            StoredErrors(m, errors, more, so) ==
            if Fatal(more[i].revents) && socket.Some? then errors'[socket.value := so[i]] else errors'
  {
  }
}
