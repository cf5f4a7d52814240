/** The dispatch on linked queues: the moves that the source makes for a report,
    played on a bank of queues, give the dispatch of the value model. */
module LinkedDispatch {
  import opened Poll
  import opened Demultiplexing
  import opened TaskQueue
  import opened TaskBank

  /** The queues of a table in a bank: the ready queue, then the queues of
      writers, then those of readers, each by descriptor. */
  function Slot<H>(demux: seq<Demux<Task<nat>, H>>, ready: seq<Task<nat>>, i: nat): seq<Task<nat>>
    requires i <= 2 * |demux|
  {
    if i == 0 then ready else if i <= |demux| then demux[i - 1].write else demux[i - 1 - |demux|].read
  }

  function ListsOf<H>(demux: seq<Demux<Task<nat>, H>>, ready: seq<Task<nat>>): (s: Lists)
    ensures |s| == 1 + 2 * |demux| && forall i :: 0 <= i < |s| ==> s[i] == Slot(demux, ready, i)
  {
    seq(1 + 2 * |demux|, i requires 0 <= i < 1 + 2 * |demux| => Slot(demux, ready, i))
  }

  function WriterMoves(ev: PollFd): seq<Action>
    requires 0 <= ev.fd
  {
    if Selects(ev.revents, Write) then [MoveAll(0, 1 + ev.fd)] else []
  }

  function ReaderMoves(n: nat, ev: PollFd): seq<Action>
    requires 0 <= ev.fd
  {
    if Selects(ev.revents, Read) then [MoveAll(0, 1 + n + ev.fd)] else []
  }

  /** What `prepare_handles` moves for one event: writers, then readers. */
  function EventProgram(n: nat, ev: PollFd): seq<Action>
    requires 0 <= ev.fd
  {
    WriterMoves(ev) + ReaderMoves(n, ev)
  }

  function DispatchProgram(n: nat, evs: seq<PollFd>): seq<Action>
    requires forall i :: 0 <= i < |evs| ==> 0 <= evs[i].fd
  {
    if evs == [] then []
    else var k := |evs| - 1; DispatchProgram(n, evs[..k]) + EventProgram(n, evs[k])
  }

  lemma {:induction false} PlayedConcat(s: Lists, p: seq<Action>, q: seq<Action>)
    requires Playable(s, p) && Playable(Played(s, p), q)
    ensures Playable(s, p + q) && Played(s, p + q) == Played(Played(s, p), q)
    decreases |p|
  {
    if p == [] {
      assert p + q == q;
    } else {
      assert (p + q)[0] == p[0] && (p + q)[1..] == p[1..] + q;
      PlayedConcat(Applied(s, p[0]), p[1..], q);
    }
  }

  lemma PlayedOne(s: Lists, a: Action)
    requires Applicable(s, a)
    ensures Playable(s, [a]) && Played(s, [a]) == Applied(s, a)
  {
    assert [a][1..] == [];
  }

  function WritersGone<H>(demux: seq<Demux<Task<nat>, H>>, ev: PollFd): seq<Demux<Task<nat>, H>>
    requires 0 <= ev.fd < |demux|
  {
    if Selects(ev.revents, Write) then demux[ev.fd := demux[ev.fd].(write := [])] else demux
  }

  function ReadersGone<H>(demux: seq<Demux<Task<nat>, H>>, ev: PollFd): seq<Demux<Task<nat>, H>>
    requires 0 <= ev.fd < |demux|
  {
    if Selects(ev.revents, Read) then demux[ev.fd := demux[ev.fd].(read := [])] else demux
  }

  lemma MovesWriters<H>(demux: seq<Demux<Task<nat>, H>>, ready: seq<Task<nat>>, fd: nat)
    requires fd < |demux|
    ensures Applied(ListsOf(demux, ready), MoveAll(0, 1 + fd)) ==
            ListsOf(demux[fd := demux[fd].(write := [])], ready + demux[fd].write)
  {
  }

  lemma MovesReaders<H>(demux: seq<Demux<Task<nat>, H>>, ready: seq<Task<nat>>, fd: nat)
    requires fd < |demux|
    ensures Applied(ListsOf(demux, ready), MoveAll(0, 1 + |demux| + fd)) ==
            ListsOf(demux[fd := demux[fd].(read := [])], ready + demux[fd].read)
  {
  }

  lemma WritersPlay<H>(demux: seq<Demux<Task<nat>, H>>, ready: seq<Task<nat>>, ev: PollFd)
    requires 0 <= ev.fd < |demux|
    ensures var s, p := ListsOf(demux, ready), WriterMoves(ev);
            && Playable(s, p)
            && Played(s, p) == ListsOf(WritersGone(demux, ev),
                                       ready + if Selects(ev.revents, Write) then demux[ev.fd].write else [])
  {
    if Selects(ev.revents, Write) {
      MovesWriters(demux, ready, ev.fd);
      PlayedOne(ListsOf(demux, ready), MoveAll(0, 1 + ev.fd));
    } else {
      assert ready + [] == ready;
    }
  }

  lemma ReadersPlay<H>(demux: seq<Demux<Task<nat>, H>>, ready: seq<Task<nat>>, ev: PollFd)
    requires 0 <= ev.fd < |demux|
    ensures var s, p := ListsOf(demux, ready), ReaderMoves(|demux|, ev);
            && Playable(s, p)
            && Played(s, p) == ListsOf(ReadersGone(demux, ev),
                                       ready + if Selects(ev.revents, Read) then demux[ev.fd].read else [])
  {
    if Selects(ev.revents, Read) {
      MovesReaders(demux, ready, ev.fd);
      PlayedOne(ListsOf(demux, ready), MoveAll(0, 1 + |demux| + ev.fd));
    } else {
      assert ready + [] == ready;
    }
  }

  lemma EventMoves<H>(m: Mux<Task<nat>, H>, ready: seq<Task<nat>>, ev: PollFd)
    requires 0 <= ev.fd < |m.demux|
    ensures DispatchOne(m, ev).demux == ReadersGone(WritersGone(m.demux, ev), ev)
    ensures WritersGone(m.demux, ev)[ev.fd].read == m.demux[ev.fd].read
    ensures ready + Moved(m.demux[ev.fd], ev.revents) ==
            (ready + if Selects(ev.revents, Write) then m.demux[ev.fd].write else []) +
            if Selects(ev.revents, Read) then m.demux[ev.fd].read else []
  {
  }

  /** The moves for one event are the dispatch of the event. */
  lemma EventPlays<H>(m: Mux<Task<nat>, H>, ready: seq<Task<nat>>, ev: PollFd)
    requires 0 <= ev.fd < |m.demux|
    ensures var s, p := ListsOf(m.demux, ready), EventProgram(|m.demux|, ev);
            Playable(s, p) && Played(s, p) ==
              ListsOf(DispatchOne(m, ev).demux, ready + Moved(m.demux[ev.fd], ev.revents))
  {
    var ready' := ready + if Selects(ev.revents, Write) then m.demux[ev.fd].write else [];
    WritersPlay(m.demux, ready, ev);
    ReadersPlay(WritersGone(m.demux, ev), ready', ev);
    PlayedConcat(ListsOf(m.demux, ready), WriterMoves(ev), ReaderMoves(|m.demux|, ev));
    EventMoves(m, ready, ev);
  }

  /** The moves for a report are its dispatch: the queues of the table and the
      ready queue are what the value model says. */
  lemma {:induction false} DispatchPlays<H>(m: Mux<Task<nat>, H>, evs: seq<PollFd>)
    requires InTable(m, evs)
    ensures var s, p := ListsOf(m.demux, []), DispatchProgram(|m.demux|, evs);
            Playable(s, p) && Played(s, p) == ListsOf(Dispatched(m, evs).demux, MadeReady(m, evs))
    decreases |evs|
  {
    if evs != [] {
      var k := |evs| - 1;
      DispatchPlays(m, evs[..k]);
      EventPlays(Dispatched(m, evs[..k]), MadeReady(m, evs[..k]), evs[k]);
      PlayedConcat(ListsOf(m.demux, []), DispatchProgram(|m.demux|, evs[..k]), EventProgram(|m.demux|, evs[k]));
    }
  }

  lemma {:induction false} OnlyMoves(n: nat, evs: seq<PollFd>)
    requires forall i :: 0 <= i < |evs| ==> 0 <= evs[i].fd
    ensures forall a :: a in DispatchProgram(n, evs) ==> a.MoveAll?
  {
    if evs != [] { OnlyMoves(n, evs[..|evs| - 1]); }
  }

  /** A program of moves on a bank. */
  method PlayMoves(bank: Bank, program: seq<Action>, ghost s: Lists, ghost t: Lists)
    requires bank.Valid() && bank.View() == s && Playable(s, program) && Played(s, program) == t
    requires forall a :: a in program ==> a.MoveAll?
    modifies bank.queues, bank.Heads(), bank.Tasks()
    ensures bank.Valid() && bank.View() == t
  {
    ghost var none: set<Task<nat>> := {};
    var taken := bank.Play(program, none);
  }

  /** The dispatch of a report on linked nodes: `size` is the size of the table. */
  method DispatchLinked<H>(bank: Bank, size: nat, evs: seq<PollFd>, ghost m: Mux<Task<nat>, H>)
    requires bank.Valid() && size == |m.demux| && InTable(m, evs) && bank.View() == ListsOf(m.demux, [])
    modifies bank.queues, bank.Heads(), bank.Tasks()
    ensures bank.Valid() && bank.View() == ListsOf(Dispatched(m, evs).demux, MadeReady(m, evs))
  {
    DispatchPlays(m, evs);
    OnlyMoves(size, evs);
    ghost var s, t := ListsOf(m.demux, []), ListsOf(Dispatched(m, evs).demux, MadeReady(m, evs));
    PlayMoves(bank, DispatchProgram(size, evs), s, t);
  }
}
