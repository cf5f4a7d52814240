/** The interest list: a vector of `pollfd` kept sorted by file descriptor and
    edited in place. Its meaning is the map `View` from descriptor to mask. */
module InterestList {
  import opened Sequences
  import opened Poll

  predicate Sorted(l: seq<PollFd>) {
    forall i, j :: 0 <= i < j < |l| ==> l[i].fd < l[j].fd
  }

  function View(l: seq<PollFd>): map<int, set<Flag>> {
    if l == [] then map[] else View(l[1..])[l[0].fd := l[0].events]
  }

  /** The mask of a descriptor; empty when the descriptor is not listed. */
  function Bits(l: seq<PollFd>, fd: int): set<Flag> {
    if fd in View(l) then View(l)[fd] else {}
  }

  /** Insertion into a sorted list, merging masks of an equal descriptor. */
  function Upsert(l: seq<PollFd>, e: PollFd): seq<PollFd> {
    if l == [] || e.fd < l[0].fd then [e] + l
    else if l[0].fd == e.fd then [l[0].(events := l[0].events + e.events)] + l[1..]
    else [l[0]] + Upsert(l[1..], e)
  }

  function Remaining(events: set<Flag>, revents: set<Flag>): set<Flag> {
    (if Fatal(revents) then {} else events) - revents
  }

  function Cleared(l: seq<PollFd>, ev: PollFd): seq<PollFd> {
    if l == [] then []
    else if l[0].fd == ev.fd then [l[0].(events := Remaining(l[0].events, ev.revents))] + l[1..]
    else [l[0]] + Cleared(l[1..], ev)
  }

  /** The entries with a non-empty mask, in order. */
  function Active(l: seq<PollFd>): seq<PollFd> {
    if l == [] then []
    else (if l[0].events != {} then [l[0]] else []) + Active(l[1..])
  }

  // --- View ---

  lemma {:induction false} ViewHas(l: seq<PollFd>, fd: int)
    ensures fd in View(l) <==> exists i :: 0 <= i < |l| && l[i].fd == fd
  {
    if l != [] {
      ViewHas(l[1..], fd);
      if fd in View(l) && fd != l[0].fd {
        var i :| 0 <= i < |l[1..]| && l[1..][i].fd == fd;
        assert l[i + 1].fd == fd;
      }
      if i :| 0 <= i < |l| && l[i].fd == fd {
        if i > 0 { assert l[1..][i - 1].fd == fd; }
      }
    }
  }

  lemma {:induction false} ViewAt(l: seq<PollFd>, i: nat)
    requires Sorted(l) && i < |l|
    ensures l[i].fd in View(l) && View(l)[l[i].fd] == l[i].events
  {
    if i > 0 {
      ViewAt(l[1..], i - 1);
      assert l[1..][i - 1] == l[i];
      assert l[0].fd < l[i].fd;
    }
  }

  lemma SmallerIsAbsent(l: seq<PollFd>, fd: int)
    requires Sorted(l) && (l == [] || fd < l[0].fd)
    ensures fd !in View(l)
  {
  }

  lemma {:induction false} UpsertSorted(l: seq<PollFd>, e: PollFd)
    requires Sorted(l)
    ensures Sorted(Upsert(l, e))
    ensures forall x :: x in Upsert(l, e) ==> x.fd == e.fd || x in l
  {
    if l != [] && l[0].fd < e.fd {
      UpsertSorted(l[1..], e);
      var t := Upsert(l[1..], e);
      forall i | 0 <= i < |t| ensures l[0].fd < t[i].fd {
        assert t[i] in t;
      }
    }
  }

  /** Merging is map update on the view. */
  lemma {:induction false} UpsertView(l: seq<PollFd>, e: PollFd)
    requires Sorted(l)
    ensures View(Upsert(l, e)) == View(l)[e.fd := Bits(l, e.fd) + e.events]
  {
    var u := Upsert(l, e);
    if l == [] || e.fd < l[0].fd {
      SmallerIsAbsent(l, e.fd);
      assert u[1..] == l;
      assert Bits(l, e.fd) + e.events == e.events;
    } else if l[0].fd == e.fd {
      assert u[1..] == l[1..];
    } else {
      UpsertView(l[1..], e);
      assert u[1..] == Upsert(l[1..], e);
    }
  }

  /** Clearing is map update on a listed descriptor and nothing on any other. */
  lemma {:induction false} ClearedView(l: seq<PollFd>, ev: PollFd)
    requires Sorted(l)
    ensures |Cleared(l, ev)| == |l|
    ensures forall i :: 0 <= i < |l| ==> Cleared(l, ev)[i].fd == l[i].fd
    ensures Sorted(Cleared(l, ev))
    ensures View(Cleared(l, ev)) ==
            if ev.fd in View(l) then View(l)[ev.fd := Remaining(View(l)[ev.fd], ev.revents)] else View(l)
  {
    if l == [] {
    } else if l[0].fd == ev.fd {
      assert Cleared(l, ev)[1..] == l[1..];
    } else {
      ClearedView(l[1..], ev);
      assert Cleared(l, ev)[1..] == Cleared(l[1..], ev);
      forall i | 0 <= i < |l| ensures Cleared(l, ev)[i].fd == l[i].fd {
        if i > 0 { assert Cleared(l, ev)[i] == Cleared(l[1..], ev)[i - 1] && l[i] == l[1..][i - 1]; }
      }
    }
  }

  /** What one clear does to one direction's flag. */
  lemma ClearedFlag(l: seq<PollFd>, ev: PollFd, fd: int, d: Direction)
    requires Sorted(l)
    ensures DirFlag(d) in Bits(Cleared(l, ev), fd) <==>
            DirFlag(d) in Bits(l, fd) && !(ev.fd == fd && Clears(ev.revents, d))
  {
    ClearedView(l, ev);
    assert Fatal(ev.revents) <==> Err in ev.revents || Nval in ev.revents by {
      assert Err in ev.revents ==> Err in ev.revents * {Err, Nval};
      assert Nval in ev.revents ==> Nval in ev.revents * {Err, Nval};
    }
  }

  // --- Active ---

  lemma {:induction false} ActiveMembers(l: seq<PollFd>, e: PollFd)
    ensures e in Active(l) <==> e in l && e.events != {}
  {
    if l != [] { ActiveMembers(l[1..], e); }
  }

  /** The snapshot holds exactly the entries with interest, still strictly sorted. */
  lemma {:induction false} ActiveSorted(l: seq<PollFd>)
    requires Sorted(l)
    ensures Sorted(Active(l))
  {
    if l != [] {
      ActiveSorted(l[1..]);
      var t := Active(l[1..]);
      forall i | 0 <= i < |t| ensures l[0].fd < t[i].fd {
        ActiveMembers(l[1..], t[i]);
        assert t[i] in l[1..];
      }
    }
  }

  /** The snapshot is empty exactly when no descriptor has any interest. */
  lemma ActiveEmpty(l: seq<PollFd>)
    requires Sorted(l)
    ensures Active(l) == [] <==> forall fd :: Bits(l, fd) == {}
  {
    if Active(l) == [] {
      forall fd ensures Bits(l, fd) == {} {
        ViewHas(l, fd);
        if fd in View(l) {
          var i :| 0 <= i < |l| && l[i].fd == fd;
          ViewAt(l, i);
          ActiveMembers(l, l[i]);
        }
      }
    } else {
      var e := Active(l)[0];
      ActiveMembers(l, e);
      var i :| 0 <= i < |l| && l[i] == e;
      ViewAt(l, i);
      assert Bits(l, e.fd) != {};
    }
  }

  lemma {:induction false} ActiveAppend(a: seq<PollFd>, e: PollFd)
    ensures Active(a + [e]) == Active(a) + if e.events != {} then [e] else []
  {
    if a == [] {
      assert [e][1..] == [];
    } else {
      var h, t := if a[0].events != {} then [a[0]] else [], if e.events != {} then [e] else [];
      assert (a + [e])[0] == a[0] && (a + [e])[1..] == a[1..] + [e];
      ActiveAppend(a[1..], e);
      assert h + (Active(a[1..]) + t) == (h + Active(a[1..])) + t;
    }
  }

  // --- Lower bound ---

  ghost predicate IsLowerBound(l: seq<PollFd>, fd: int, k: int) {
    0 <= k <= |l| &&
    (forall i :: 0 <= i < k ==> l[i].fd < fd) &&
    (forall i :: k <= i < |l| ==> fd <= l[i].fd)
  }

  /** Editing at the lower bound is the same as the recursive definition. */
  lemma {:induction false} UpsertAt(l: seq<PollFd>, e: PollFd, k: nat)
    requires Sorted(l) && IsLowerBound(l, e.fd, k)
    ensures Upsert(l, e) ==
            if k < |l| && l[k].fd == e.fd then l[k := l[k].(events := l[k].events + e.events)]
            else l[..k] + [e] + l[k..]
  {
    if k > 0 {
      UpsertAt(l[1..], e, k - 1);
      assert l[0].fd < e.fd;
      if k < |l| && l[k].fd == e.fd {
        assert l[1..][k - 1] == l[k];
        UpdateTail(l, k, l[k].(events := l[k].events + e.events));
      } else {
        InsertTail(l, k, e);
      }
    }
  }

  lemma {:induction false} ClearedAt(l: seq<PollFd>, ev: PollFd, k: nat)
    requires Sorted(l) && IsLowerBound(l, ev.fd, k)
    ensures Cleared(l, ev) ==
            if k < |l| && l[k].fd == ev.fd then l[k := l[k].(events := Remaining(l[k].events, ev.revents))]
            else l
  {
    if l == [] {
    } else if k > 0 {
      ClearedAt(l[1..], ev, k - 1);
      assert l[0].fd < ev.fd;
      assert k < |l| ==> l[1..][k - 1] == l[k];
    } else if l[0].fd != ev.fd {
      ClearedAt(l[1..], ev, 0);
    }
  }

  class List {
    var entries: seq<PollFd>

    ghost predicate Valid()
      reads this
    {
      Sorted(entries)
    }

    constructor ()
      ensures Valid() && entries == []
    {
      entries := [];
    }

    /** Binary search for the first entry whose descriptor is at least `fd`. */
    method LowerBound(fd: int) returns (first: nat)
      requires Valid()
      ensures IsLowerBound(entries, fd, first)
    {
      first := 0;
      var len := |entries|;
      while len > 0
        invariant 0 <= first <= first + len <= |entries|
        invariant forall i :: 0 <= i < first ==> entries[i].fd < fd
        invariant forall i :: first + len <= i < |entries| ==> fd <= entries[i].fd
      {
        var half := len / 2;
        var mid := first + half;
        if entries[mid].fd < fd {
          first := mid + 1;
          len := len - half - 1;
        } else {
          len := half;
        }
      }
    }

    /** Adds interest; `pos` is where the entry of the descriptor now is. */
    method UpdateOrInsert(event: PollFd) returns (pos: nat)
      requires Valid()
      modifies this
      ensures Valid()
      ensures entries == Upsert(old(entries), event)
      ensures View(entries) == old(View(entries)[event.fd := Bits(entries, event.fd) + event.events])
      ensures pos < |entries| && entries[pos].fd == event.fd
    {
      pos := LowerBound(event.fd);
      UpsertAt(entries, event, pos);
      UpsertView(entries, event);
      UpsertSorted(entries, event);
      if pos < |entries| && entries[pos].fd == event.fd {
        entries := entries[pos := entries[pos].(events := entries[pos].events + event.events)];
      } else {
        entries := entries[..pos] + [event] + entries[pos..];
      }
    }

    /** Removes the interest that a reported event consumes. */
    method ClearEvent(event: PollFd)
      requires Valid()
      modifies this
      ensures Valid()
      ensures entries == Cleared(old(entries), event)
    {
      var pos := LowerBound(event.fd);
      ClearedAt(entries, event, pos);
      ClearedView(entries, event);
      if pos < |entries| && entries[pos].fd == event.fd {
        var events := entries[pos].events;
        if Fatal(event.revents) {
          events := {};
        }
        events := events - event.revents;
        entries := entries[pos := entries[pos].(events := events)];
      }
    }

    /** Copies the entries with interest; the list itself is left as it is. */
    method CopyActive() returns (tmp: seq<PollFd>)
      requires Valid()
      ensures tmp == Active(entries)
      ensures Sorted(tmp)
      ensures forall e :: e in tmp <==> e in entries && e.events != {}
    {
      tmp := [];
      for i := 0 to |entries|
        invariant tmp == Active(entries[..i])
      {
        assert entries[..i + 1] == entries[..i] + [entries[i]];
        ActiveAppend(entries[..i], entries[i]);
        if entries[i].events != {} {
          tmp := tmp + [entries[i]];
        }
      }
      assert entries[..|entries|] == entries;
      ActiveSorted(entries);
      forall e ensures e in tmp <==> e in entries && e.events != {} {
        ActiveMembers(entries, e);
      }
    }
  }
}
