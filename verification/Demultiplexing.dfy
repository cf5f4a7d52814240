/** The multiplexer's shared state as a value, and the three lock-delimited
    regions that change it: registering interest, queueing a task, and
    dispatching a list of reported events. `T` stands for tasks and `H` for
    socket handles. */
module Demultiplexing {
  import opened Poll
  import opened InterestList

  datatype Demux<T, H> = Demux(read: seq<T>, write: seq<T>, socket: Option<H>)

  datatype Mux<T, H> = Mux(demux: seq<Demux<T, H>>, list: seq<PollFd>)

  /** The wait queue of a descriptor and direction. */
  function Q<T, H>(m: Mux<T, H>, fd: int, d: Direction): seq<T> {
    if !(0 <= fd < |m.demux|) then []
    else match d
         case Read => m.demux[fd].read
         case Write => m.demux[fd].write
  }

  /** Whether the interest list asks for the direction on the descriptor. */
  predicate Interested<T, H>(m: Mux<T, H>, fd: int, d: Direction) {
    DirFlag(d) in Bits(m.list, fd)
  }

  /** The list is sorted and every descriptor in it is an index into `demux`. */
  ghost predicate Indexed(list: seq<PollFd>, size: nat) {
    Sorted(list) && forall i :: 0 <= i < |list| ==> 0 <= list[i].fd < size
  }

  // --- Registering (sender::connect) ---

  function Grown<T, H>(demux: seq<Demux<T, H>>, size: nat): (r: seq<Demux<T, H>>)
    ensures |r| == if |demux| < size then size else |demux|
    ensures demux <= r
    ensures forall i :: |demux| <= i < |r| ==> r[i] == Demux([], [], None)
  {
    if |demux| < size then demux + seq(size - |demux|, _ => Demux([], [], None)) else demux
  }

  lemma GrownOne<T, H>(demux: seq<Demux<T, H>>, n: nat)
    requires |demux| <= n
    ensures Grown(demux, n + 1) == Grown(demux, n) + [Demux([], [], None)]
  {
  }

  lemma UpsertIndexed(l: seq<PollFd>, e: PollFd, size: nat)
    requires Indexed(l, size) && 0 <= e.fd < size
    ensures Indexed(Upsert(l, e), size)
  {
    UpsertSorted(l, e);
    var u := Upsert(l, e);
    forall i | 0 <= i < |u| ensures 0 <= u[i].fd < size {
      assert u[i] in u;
    }
  }

  function Register<T, H>(m: Mux<T, H>, fd: nat, d: Direction): Mux<T, H> {
    Mux(Grown(m.demux, fd + 1), Upsert(m.list, PollFd(fd, {DirFlag(d)}, {})))
  }

  lemma RegisterFlag(l: seq<PollFd>, fd: nat, d: Direction, fd': int, d': Direction)
    requires Sorted(l)
    ensures DirFlag(d') in Bits(Upsert(l, PollFd(fd, {DirFlag(d)}, {})), fd') <==>
            DirFlag(d') in Bits(l, fd') || (fd', d') == (fd, d)
  {
  }

  /** Registering turns on exactly one interest flag and touches no queue. */
  lemma RegisterEffect<T, H>(m: Mux<T, H>, fd: nat, d: Direction, fd': int, d': Direction)
    requires Indexed(m.list, |m.demux|)
    ensures var m' := Register(m, fd, d);
            && Indexed(m'.list, |m'.demux|)
            && Q(m', fd', d') == Q(m, fd', d')
            && (Interested(m', fd', d') <==> Interested(m, fd', d') || (fd', d') == (fd, d))
  {
    var size := |Register(m, fd, d).demux|;
    assert Indexed(m.list, size);
    UpsertIndexed(m.list, PollFd(fd, {DirFlag(d)}, {}), size);
    RegisterFlag(m.list, fd, d, fd', d');
  }

  // --- Queueing (state::start) ---

  function Enqueue<T, H>(m: Mux<T, H>, fd: nat, d: Direction, t: T, h: H): Mux<T, H>
    requires fd < |m.demux|
  {
    var x := m.demux[fd];
    var y := match d
             case Read => x.(read := x.read + [t], socket := Some(h))
             case Write => x.(write := x.write + [t], socket := Some(h));
    m.(demux := m.demux[fd := y])
  }

  lemma EnqueueEffect<T, H>(m: Mux<T, H>, fd: nat, d: Direction, t: T, h: H)
    requires fd < |m.demux|
    ensures var m' := Enqueue(m, fd, d, t, h);
            && m'.list == m.list && |m'.demux| == |m.demux|
            && m'.demux[fd].socket == Some(h)
            && (forall i :: 0 <= i < |m.demux| && i != fd ==> m'.demux[i] == m.demux[i])
            && (forall fd', d' :: Q(m', fd', d') == if (fd', d') == (fd, d) then Q(m, fd, d) + [t] else Q(m, fd', d'))
  {
  }

  // --- Dispatching (the second locked region of wait_for) ---

  /** What `prepare_handles` moves for one event: the writers, then the readers. */
  function Moved<T, H>(x: Demux<T, H>, revents: set<Flag>): seq<T> {
    (if Selects(revents, Write) then x.write else []) +
    (if Selects(revents, Read) then x.read else [])
  }

  function Drained<T, H>(x: Demux<T, H>, revents: set<Flag>): Demux<T, H> {
    Demux(if Selects(revents, Read) then [] else x.read,
          if Selects(revents, Write) then [] else x.write,
          x.socket)
  }

  function DispatchOne<T, H>(m: Mux<T, H>, ev: PollFd): Mux<T, H>
    requires 0 <= ev.fd < |m.demux|
  {
    Mux(m.demux[ev.fd := Drained(m.demux[ev.fd], ev.revents)], Cleared(m.list, ev))
  }

  /** Every event names a demultiplexer of the table. */
  ghost predicate InTable<T, H>(m: Mux<T, H>, evs: seq<PollFd>) {
    forall i :: 0 <= i < |evs| ==> 0 <= evs[i].fd < |m.demux|
  }

  /** The shared state after the events have been handled in order. */
  function Dispatched<T, H>(m: Mux<T, H>, evs: seq<PollFd>): (r: Mux<T, H>)
    requires forall i :: 0 <= i < |evs| ==> 0 <= evs[i].fd < |m.demux|
    ensures |r.demux| == |m.demux|
    decreases |evs|
  {
    if evs == [] then m
    else var n := |evs| - 1; DispatchOne(Dispatched(m, evs[..n]), evs[n])
  }

  /** The ready queue that handling the events builds. */
  function MadeReady<T, H>(m: Mux<T, H>, evs: seq<PollFd>): seq<T>
    requires forall i :: 0 <= i < |evs| ==> 0 <= evs[i].fd < |m.demux|
    decreases |evs|
  {
    if evs == [] then []
    else
      var n := |evs| - 1;
      MadeReady(m, evs[..n]) + Moved(Dispatched(m, evs[..n]).demux[evs[n].fd], evs[n].revents)
  }

  /** The errors stored while dispatching, in report order. */
  function StoredErrors<T, H>(m: Mux<T, H>, errors: map<H, int>, evs: seq<PollFd>, soErrors: seq<int>)
    : map<H, int>
    requires |evs| == |soErrors|
    requires forall i :: 0 <= i < |evs| ==> 0 <= evs[i].fd < |m.demux|
    decreases |evs|
  {
    if evs == [] then errors
    else
      var n := |evs| - 1;
      var socket := m.demux[evs[n].fd].socket;
      var before := StoredErrors(m, errors, evs[..n], soErrors[..n]);
      if Fatal(evs[n].revents) && socket.Some? then before[socket.value := soErrors[n]] else before
  }

  /** An event would store its error through a socket pointer that is still null. */
  predicate NullSocketHit<T, H>(m: Mux<T, H>, evs: seq<PollFd>)
    requires forall i :: 0 <= i < |evs| ==> 0 <= evs[i].fd < |m.demux|
  {
    exists i :: 0 <= i < |evs| && Fatal(evs[i].revents) && m.demux[evs[i].fd].socket.None?
  }

  /** An event would store its error through a pointer to a destroyed handle. */
  predicate DanglingSocketHit<T, H(==)>(m: Mux<T, H>, evs: seq<PollFd>, released: set<H>)
    requires forall i :: 0 <= i < |evs| ==> 0 <= evs[i].fd < |m.demux|
  {
    exists i :: 0 <= i < |evs| && Fatal(evs[i].revents) && m.demux[evs[i].fd].socket.Some? &&
                m.demux[evs[i].fd].socket.value in released
  }

  /** Some reported event releases the queue of this descriptor and direction. */
  ghost predicate Selected(evs: seq<PollFd>, fd: int, d: Direction) {
    exists i :: 0 <= i < |evs| && evs[i].fd == fd && Selects(evs[i].revents, d)
  }

  /** Some reported event removes the interest of this descriptor and direction. */
  ghost predicate IsCleared(evs: seq<PollFd>, fd: int, d: Direction) {
    exists i :: 0 <= i < |evs| && evs[i].fd == fd && Clears(evs[i].revents, d)
  }

  lemma SelectedLast(evs: seq<PollFd>, fd: int, d: Direction)
    requires evs != []
    ensures var n := |evs| - 1;
            && (Selected(evs, fd, d) <==> Selected(evs[..n], fd, d) || (evs[n].fd == fd && Selects(evs[n].revents, d)))
            && (IsCleared(evs, fd, d) <==> IsCleared(evs[..n], fd, d) || (evs[n].fd == fd && Clears(evs[n].revents, d)))
  {
  }

  /** A released queue becomes empty; every other queue and every socket
      pointer is unchanged. */
  lemma {:induction false} DispatchQueues<T, H>(m: Mux<T, H>, evs: seq<PollFd>, fd: int, d: Direction)
    requires InTable(m, evs)
    ensures var m' := Dispatched(m, evs);
            && (forall i :: 0 <= i < |m.demux| ==> m'.demux[i].socket == m.demux[i].socket)
            && Q(m', fd, d) == (if Selected(evs, fd, d) then [] else Q(m, fd, d))
    decreases |evs|
  {
    if evs != [] {
      DispatchQueues(m, evs[..|evs| - 1], fd, d);
      SelectedLast(evs, fd, d);
    }
  }

  /** The list stays sorted and valid, and a flag survives exactly when no
      event removed it. */
  lemma {:induction false} DispatchInterest<T, H>(m: Mux<T, H>, evs: seq<PollFd>, fd: int, d: Direction)
    requires Indexed(m.list, |m.demux|) && InTable(m, evs)
    ensures var m' := Dispatched(m, evs);
            && Indexed(m'.list, |m.demux|)
            && (Interested(m', fd, d) <==> Interested(m, fd, d) && !IsCleared(evs, fd, d))
    decreases |evs|
  {
    if evs != [] {
      var n := |evs| - 1;
      var l := Dispatched(m, evs[..n]).list;
      DispatchInterest(m, evs[..n], fd, d);
      ClearedView(l, evs[n]);
      ClearedFlag(l, evs[n], fd, d);
      SelectedLast(evs, fd, d);
    }
  }

  /** Removing interest in a direction always releases its queue. */
  lemma ClearedIsSelected(evs: seq<PollFd>, fd: int, d: Direction)
    requires IsCleared(evs, fd, d)
    ensures Selected(evs, fd, d)
  {
    var i :| 0 <= i < |evs| && evs[i].fd == fd && Clears(evs[i].revents, d);
    ClearsImpliesSelects(evs[i].revents, d);
  }

  /** Reference for the ready queue: per reported event, in the order of the
      report, the writers then the readers that wait when the dispatch begins. */
  function ReadyOf<T, H>(m: Mux<T, H>, evs: seq<PollFd>): seq<T>
    requires forall i :: 0 <= i < |evs| ==> 0 <= evs[i].fd < |m.demux|
  {
    if evs == [] then []
    else var n := |evs| - 1; ReadyOf(m, evs[..n]) + Moved(m.demux[evs[n].fd], evs[n].revents)
  }

  lemma {:induction false} DispatchUntouched<T, H>(m: Mux<T, H>, evs: seq<PollFd>, fd: nat)
    requires InTable(m, evs) && fd < |m.demux|
    requires forall i :: 0 <= i < |evs| ==> evs[i].fd != fd
    ensures Dispatched(m, evs).demux[fd] == m.demux[fd]
    decreases |evs|
  {
    if evs != [] { DispatchUntouched(m, evs[..|evs| - 1], fd); }
  }

  /** One dispatch of a report in strictly ascending descriptor order moves
      exactly the queues selected at its beginning, writers before readers. */
  lemma {:induction false} DispatchReady<T, H>(m: Mux<T, H>, evs: seq<PollFd>)
    requires InTable(m, evs) && Sorted(evs)
    ensures MadeReady(m, evs) == ReadyOf(m, evs)
    decreases |evs|
  {
    if evs != [] {
      var n := |evs| - 1;
      DispatchReady(m, evs[..n]);
      DispatchUntouched(m, evs[..n], evs[n].fd);
    }
  }

  ghost predicate Distinct<T>(s: seq<T>) {
    forall i, j :: 0 <= i < j < |s| ==> s[i] != s[j]
  }

  lemma DistinctConcat<T>(a: seq<T>, b: seq<T>)
    requires Distinct(a) && Distinct(b)
    requires forall i, j :: 0 <= i < |a| && 0 <= j < |b| ==> a[i] != b[j]
    ensures Distinct(a + b)
  {
  }

  // --- Which tasks move: tasks carry a key, the queue they wait in ---

  type Key = (int, Direction)

  /** Every waiting task waits in the queue its key names, and only once. */
  ghost predicate Keyed<T, H>(m: Mux<T, H>, key: map<T, Key>) {
    && (forall fd, d, i :: 0 <= i < |Q(m, fd, d)| ==> Q(m, fd, d)[i] in key && key[Q(m, fd, d)[i]] == (fd, d))
    && (forall fd, d :: Distinct(Q(m, fd, d)))
  }

  function Filter<T>(s: seq<T>, key: map<T, Key>, k: Key): seq<T> {
    if s == [] then []
    else (if s[0] in key && key[s[0]] == k then [s[0]] else []) + Filter(s[1..], key, k)
  }

  lemma {:induction false} FilterConcat<T>(a: seq<T>, b: seq<T>, key: map<T, Key>, k: Key)
    ensures Filter(a + b, key, k) == Filter(a, key, k) + Filter(b, key, k)
  {
    if a == [] {
      assert a + b == b;
    } else {
      assert (a + b)[1..] == a[1..] + b;
      FilterConcat(a[1..], b, key, k);
    }
  }

  lemma {:induction false} FilterUniform<T>(s: seq<T>, key: map<T, Key>, k: Key, k': Key)
    requires forall i :: 0 <= i < |s| ==> s[i] in key && key[s[i]] == k'
    ensures Filter(s, key, k) == if k == k' then s else []
  {
    if s != [] { FilterUniform(s[1..], key, k, k'); }
  }

  lemma {:induction false} FilterHas<T>(s: seq<T>, key: map<T, Key>, k: Key, t: T)
    ensures t in Filter(s, key, k) <==> t in s && t in key && key[t] == k
  {
    if s != [] { FilterHas(s[1..], key, k, t); }
  }

  lemma DispatchOneKeyed<T, H>(m: Mux<T, H>, ev: PollFd, key: map<T, Key>)
    requires 0 <= ev.fd < |m.demux| && Keyed(m, key)
    ensures Keyed(DispatchOne(m, ev), key)
  {
    var m1 := DispatchOne(m, ev);
    assert forall fd, d :: Q(m1, fd, d) == Q(m, fd, d) || Q(m1, fd, d) == [];
  }

  lemma QueueFilter<T, H>(m: Mux<T, H>, key: map<T, Key>, fd: int, d: Direction, k: Key)
    requires Keyed(m, key)
    ensures Filter(Q(m, fd, d), key, k) == if k == (fd, d) then Q(m, fd, d) else []
  {
    FilterUniform(Q(m, fd, d), key, k, (fd, d));
  }

  lemma FilterMoved<T, H>(x: Demux<T, H>, revents: set<Flag>, key: map<T, Key>, k: Key)
    ensures Filter(Moved(x, revents), key, k) ==
            (if Selects(revents, Write) then Filter(x.write, key, k) else []) +
            (if Selects(revents, Read) then Filter(x.read, key, k) else [])
  {
    FilterConcat(if Selects(revents, Write) then x.write else [],
                 if Selects(revents, Read) then x.read else [], key, k);
  }

  /** What one event moves, seen through one queue's key. */
  lemma MovedFilter<T, H>(m: Mux<T, H>, ev: PollFd, key: map<T, Key>, fd: int, d: Direction)
    requires 0 <= ev.fd < |m.demux| && Keyed(m, key)
    ensures Filter(Moved(m.demux[ev.fd], ev.revents), key, (fd, d)) ==
            if ev.fd == fd && Selects(ev.revents, d) then Q(m, fd, d) else []
  {
    QueueFilter(m, key, ev.fd, Write, (fd, d));
    QueueFilter(m, key, ev.fd, Read, (fd, d));
    FilterMoved(m.demux[ev.fd], ev.revents, key, (fd, d));
  }

  lemma {:induction false} DispatchKeyed<T, H>(m: Mux<T, H>, evs: seq<PollFd>, key: map<T, Key>)
    requires InTable(m, evs) && Keyed(m, key)
    ensures Keyed(Dispatched(m, evs), key)
    decreases |evs|
  {
    if evs != [] {
      var n := |evs| - 1;
      DispatchKeyed(m, evs[..n], key);
      DispatchOneKeyed(Dispatched(m, evs[..n]), evs[n], key);
    }
  }

  /** The tasks of one queue appear in the ready queue all together and in
      their own order, or not at all. */
  lemma {:induction false} DispatchFilter<T, H>(m: Mux<T, H>, evs: seq<PollFd>, key: map<T, Key>, fd: int, d: Direction)
    requires InTable(m, evs) && Keyed(m, key)
    ensures Filter(MadeReady(m, evs), key, (fd, d)) == if Selected(evs, fd, d) then Q(m, fd, d) else []
    decreases |evs|
  {
    if evs != [] {
      var n := |evs| - 1;
      var m' := Dispatched(m, evs[..n]);
      DispatchFilter(m, evs[..n], key, fd, d);
      DispatchKeyed(m, evs[..n], key);
      MovedFilter(m', evs[n], key, fd, d);
      FilterConcat(MadeReady(m, evs[..n]), Moved(m'.demux[evs[n].fd], evs[n].revents), key, (fd, d));
      DispatchQueues(m, evs[..n], fd, d);
      SelectedLast(evs, fd, d);
    }
  }

  /** Nothing of a queue is lost: what left it is in the ready queue, in order. */
  lemma DispatchConserves<T, H>(m: Mux<T, H>, evs: seq<PollFd>, key: map<T, Key>, fd: int, d: Direction)
    requires InTable(m, evs) && Keyed(m, key)
    ensures Filter(MadeReady(m, evs), key, (fd, d)) + Q(Dispatched(m, evs), fd, d) == Q(m, fd, d)
  {
    DispatchQueues(m, evs, fd, d);
    DispatchFilter(m, evs, key, fd, d);
  }

  /** What one event moves was waiting where its key says, and is moved once. */
  lemma MovedDistinct<T, H>(m: Mux<T, H>, ev: PollFd, key: map<T, Key>)
    requires 0 <= ev.fd < |m.demux| && Keyed(m, key)
    ensures var mv := Moved(m.demux[ev.fd], ev.revents);
            && Distinct(mv)
            && (forall i :: 0 <= i < |mv| ==> mv[i] in key && mv[i] in Q(m, key[mv[i]].0, key[mv[i]].1))
  {
    var w := if Selects(ev.revents, Write) then Q(m, ev.fd, Write) else [];
    var r := if Selects(ev.revents, Read) then Q(m, ev.fd, Read) else [];
    var mv := Moved(m.demux[ev.fd], ev.revents);
    assert mv == w + r;
    forall i | 0 <= i < |mv| ensures mv[i] in key && key[mv[i]] == (ev.fd, if i < |w| then Write else Read) {
      if i < |w| { assert mv[i] == Q(m, ev.fd, Write)[i]; } else { assert mv[i] == Q(m, ev.fd, Read)[i - |w|]; }
    }
    assert Distinct(Q(m, ev.fd, Write)) && Distinct(Q(m, ev.fd, Read));
    forall i, j | 0 <= i < |w| && 0 <= j < |r| ensures w[i] != r[j] {
      assert w[i] == mv[i] && r[j] == mv[|w| + j];
    }
    DistinctConcat(w, r);
  }

  /** Every task made ready has a key, and its queue is empty afterwards. */
  lemma {:induction false} ReadyLeft<T, H>(m: Mux<T, H>, evs: seq<PollFd>, key: map<T, Key>, t: T)
    requires InTable(m, evs) && Keyed(m, key) && t in MadeReady(m, evs)
    ensures t in key && Q(Dispatched(m, evs), key[t].0, key[t].1) == []
    decreases |evs|
  {
    if evs != [] {
      var n := |evs| - 1;
      var m' := Dispatched(m, evs[..n]);
      DispatchKeyed(m, evs[..n], key);
      MovedDistinct(m', evs[n], key);
      if t in MadeReady(m, evs[..n]) {
        ReadyLeft(m, evs[..n], key, t);
      }
      FilterHas(MadeReady(m, evs), key, key[t], t);
      DispatchFilter(m, evs, key, key[t].0, key[t].1);
      DispatchQueues(m, evs, key[t].0, key[t].1);
    }
  }

  /** No task is moved twice by one dispatch. */
  lemma {:induction false} DispatchDistinct<T, H>(m: Mux<T, H>, evs: seq<PollFd>, key: map<T, Key>)
    requires InTable(m, evs) && Keyed(m, key)
    ensures Distinct(MadeReady(m, evs))
    decreases |evs|
  {
    if evs != [] {
      var n := |evs| - 1;
      var m' := Dispatched(m, evs[..n]);
      var ready, mv := MadeReady(m, evs[..n]), Moved(m'.demux[evs[n].fd], evs[n].revents);
      DispatchDistinct(m, evs[..n], key);
      DispatchKeyed(m, evs[..n], key);
      MovedDistinct(m', evs[n], key);
      forall i, j | 0 <= i < |ready| && 0 <= j < |mv| ensures ready[i] != mv[j] {
        ReadyLeft(m, evs[..n], key, ready[i]);
      }
      DistinctConcat(ready, mv);
    }
  }
}
