/** Socket handles: exclusive owners of descriptors that threads may swap
    concurrently. First the handle object on one thread, then every
    interleaving of the atomic accesses that `swap` consists of. */
module SocketHandles {
  import opened Poll

  const INVALID := -1

  class Kernel {
    var closed: seq<int>

    constructor ()
      ensures closed == []
    {
      closed := [];
    }
  }

  class SocketHandle {
    var socket: int
    var error: int

    constructor ()
      ensures socket == INVALID && error == 0
    {
      socket, error := INVALID, 0;
    }

    /** Move construction: the new handle takes over, the other becomes invalid. */
    constructor Move(other: SocketHandle)
      modifies other
      ensures socket == old(other.socket) && error == old(other.error)
      ensures other.socket == INVALID && other.error == 0
    {
      socket, error := INVALID, 0;
      new;
      Swap(this, other);
    }

    static method Swap(lhs: SocketHandle, rhs: SocketHandle)
      modifies lhs, rhs
      ensures (lhs.socket, lhs.error) == old((rhs.socket, rhs.error))
      ensures (rhs.socket, rhs.error) == old((lhs.socket, lhs.error))
    {
      if lhs == rhs {
        return;
      }
      var tmp := lhs.socket;
      lhs.socket := rhs.socket;
      rhs.socket := tmp;
      tmp := lhs.error;
      lhs.error := rhs.error;
      rhs.error := tmp;
    }

    /** Move assignment. It is documented to leave `other` invalid; it is a swap,
        so it does if and only if this handle was invalid before. */
    method MoveAssign(other: SocketHandle)
      modifies this, other
      ensures socket == old(other.socket) && error == old(other.error)
      ensures other.socket == old(socket) && other.error == old(error)
      ensures other.socket == INVALID <==> old(socket) == INVALID
    {
      Swap(this, other);
    }

    /** Closes at most once: the descriptor is taken out before it is closed. */
    method Close(kernel: Kernel)
      modifies this`socket, kernel
      ensures socket == INVALID
      ensures kernel.closed == old(kernel.closed) + if old(socket) == INVALID then [] else [old(socket)]
    {
      var handle := socket;
      socket := INVALID;
      if handle != INVALID {
        kernel.closed := kernel.closed + [handle];
      }
    }
  }

  // --- Concurrent swaps ---

  type Id = nat

  /** A swap that holds both locks: it has loaded the right socket and, when
      `previous` is set, has exchanged it into the left handle. */
  datatype Swap = Swap(rhs: Id, loaded: int, previous: Option<int>)

  /** The rest of a swap, which still holds both locks: the same for the error. */
  datatype ErrorSwap = ErrorSwap(rhs: Id, loaded: Option<int>, previous: Option<int>)

  datatype State = State(
    fds: map<Id, int>,
    errors: map<Id, int>,
    swaps: map<Id, Swap>,
    errorSwaps: map<Id, ErrorSwap>,
    open: set<int>,
    issued: seq<int>,
    closed: seq<int>)

  /** The accesses of a swap, in order: `Load` to `Store` for the socket, then
      `LoadError` to `StoreError` for the error. An error is set without a lock. */
  datatype Step =
    | Make(h: Id)
    | Open(h: Id, fd: int)
    | Load(l: Id, r: Id)
    | Exchange(l: Id)
    | Store(l: Id)
    | LoadError(l: Id)
    | ExchangeError(l: Id)
    | StoreError(l: Id)
    | SetError(h: Id, error: int)
    | Destroy(h: Id)

  const Init: State := State(map[], map[], map[], map[], {}, [], [])

  /** The handle's mutex is held by a swap. */
  predicate Locked(s: State, h: Id) {
    h in s.swaps || h in s.errorSwaps ||
    (exists l :: l in s.swaps && s.swaps[l].rhs == h) || (exists l :: l in s.errorSwaps && s.errorSwaps[l].rhs == h)
  }

  predicate Enabled(s: State, step: Step) {
    match step
    case Make(h) => h !in s.fds
    case Open(h, fd) => h !in s.fds && fd >= 0 && fd !in s.open   // the kernel hands out a free descriptor
    case Load(l, r) => l in s.fds && r in s.fds && l != r && !Locked(s, l) && !Locked(s, r)
    case Exchange(l) => l in s.swaps && l in s.fds && s.swaps[l].previous.None?
    case Store(l) => l in s.swaps && s.swaps[l].previous.Some?
    case LoadError(l) => l in s.errorSwaps && s.errorSwaps[l].loaded.None? && s.errorSwaps[l].rhs in s.errors
    case ExchangeError(l) =>
      l in s.errorSwaps && s.errorSwaps[l].loaded.Some? && s.errorSwaps[l].previous.None? && l in s.errors
    case StoreError(l) => l in s.errorSwaps && s.errorSwaps[l].previous.Some?
    case SetError(h, _) => h in s.errors
    case Destroy(h) => h in s.fds && !Locked(s, h)   // nobody uses a handle that is destroyed
  }

  function Apply(s: State, step: Step): State
    requires Enabled(s, step)
  {
    match step
    case Make(h) => s.(fds := s.fds[h := INVALID], errors := s.errors[h := 0])
    case Open(h, fd) =>
      s.(fds := s.fds[h := fd], errors := s.errors[h := 0], open := s.open + {fd}, issued := s.issued + [fd])
    case Load(l, r) => s.(swaps := s.swaps[l := Swap(r, s.fds[r], None)])
    case Exchange(l) =>
      s.(fds := s.fds[l := s.swaps[l].loaded], swaps := s.swaps[l := s.swaps[l].(previous := Some(s.fds[l]))])
    case Store(l) =>
      s.(fds := s.fds[s.swaps[l].rhs := s.swaps[l].previous.value],
         swaps := s.swaps - {l},
         errorSwaps := s.errorSwaps[l := ErrorSwap(s.swaps[l].rhs, None, None)])
    case LoadError(l) =>
      var x := s.errorSwaps[l];
      s.(errorSwaps := s.errorSwaps[l := x.(loaded := Some(s.errors[x.rhs]))])
    case ExchangeError(l) =>
      var x := s.errorSwaps[l];
      s.(errors := s.errors[l := x.loaded.value],
         errorSwaps := s.errorSwaps[l := x.(previous := Some(s.errors[l]))])
    case StoreError(l) =>
      var x := s.errorSwaps[l];
      s.(errors := s.errors[x.rhs := x.previous.value], errorSwaps := s.errorSwaps - {l})
    case SetError(h, e) => s.(errors := s.errors[h := e])
    case Destroy(h) =>
      var fd := s.fds[h];
      var s' := s.(fds := s.fds - {h}, errors := s.errors - {h});
      if fd == INVALID then s' else s'.(open := s.open - {fd}, closed := s.closed + [fd])
  }

  /** The step touches no descriptor. */
  predicate ErrorStep(step: Step) {
    step.LoadError? || step.ExchangeError? || step.StoreError? || step.SetError?
  }

  datatype Run = Run(states: seq<State>, steps: seq<Step>) {
    ghost predicate Valid() {
      |states| == |steps| + 1 && states[0] == Init && forall i :: 0 <= i < |steps| ==> StepAt(i)
    }

    ghost predicate StepAt(i: int)
      requires |states| == |steps| + 1
    {
      0 <= i < |steps| && Enabled(states[i], steps[i]) && states[i + 1] == Apply(states[i], steps[i])
    }
  }

  // --- Who owns a descriptor ---

  /** A handle, or the temporary of the swap on a left handle. */
  datatype Holder = Own(h: Id) | Temp(l: Id)

  /** The handle's socket was exchanged away and will be overwritten. */
  ghost predicate Vacated(s: State, h: Id) {
    exists l :: l in s.swaps && s.swaps[l].rhs == h && s.swaps[l].previous.Some?
  }

  ghost predicate Holds(s: State, x: Holder, fd: int) {
    match x
    case Own(h) => h in s.fds && s.fds[h] == fd && !Vacated(s, h)
    case Temp(l) => l in s.swaps && s.swaps[l].previous == Some(fd)
  }

  ghost predicate SwapsHold(s: State) {
    && (forall l :: l in s.swaps ==>
          && l in s.fds && s.swaps[l].rhs in s.fds && l != s.swaps[l].rhs
          && s.fds[s.swaps[l].rhs] == s.swaps[l].loaded
          && (s.swaps[l].previous.Some? ==> s.fds[l] == s.swaps[l].loaded))
    && (forall l, l' :: l in s.swaps && l' in s.swaps && l != l' ==>
        s.swaps[l].rhs != s.swaps[l'].rhs && s.swaps[l].rhs != l')
  }

  /** Every open descriptor has exactly one holder, and nothing else is held. */
  ghost predicate Owned(s: State) {
    && (forall x, fd :: Holds(s, x, fd) ==> fd == INVALID || fd in s.open)
    && (forall fd :: fd in s.open ==> fd >= 0 && exists x :: Holds(s, x, fd))
    && (forall x, y, fd :: Holds(s, x, fd) && Holds(s, y, fd) && fd in s.open ==> x == y)
  }

  ghost predicate Inv(s: State) { SwapsHold(s) && Owned(s) }

  lemma SwapsStep(s: State, step: Step)
    requires SwapsHold(s) && Enabled(s, step)
    ensures SwapsHold(Apply(s, step))
  {
    if step.Load? {
      SwapsLoad(s, step.l, step.r);
    } else if step.Exchange? || step.Store? {
      SwapsMove(s, step);
    } else if !ErrorStep(step) {
      SwapsLife(s, step);
    }
  }

  lemma SwapsLoad(s: State, l: Id, r: Id)
    requires SwapsHold(s) && Enabled(s, Load(l, r))
    ensures SwapsHold(Apply(s, Load(l, r)))
  {
  }

  lemma SwapsMove(s: State, step: Step)
    requires SwapsHold(s) && Enabled(s, step) && (step.Exchange? || step.Store?)
    ensures SwapsHold(Apply(s, step))
  {
  }

  lemma SwapsLife(s: State, step: Step)
    requires SwapsHold(s) && Enabled(s, step) && (step.Make? || step.Open? || step.Destroy?)
    ensures SwapsHold(Apply(s, step))
  {
  }

  /** Where a holder's descriptor is after a step. */
  function MovesTo(s: State, step: Step, x: Holder): Holder {
    match step
    case Exchange(l) => if x == Own(l) then Temp(l) else if l in s.swaps && x == Own(s.swaps[l].rhs) then Own(l) else x
    case Store(l) => if x == Temp(l) && l in s.swaps then Own(s.swaps[l].rhs) else x
    case _ => x
  }

  lemma VacatedStep(s: State, step: Step, h: Id)
    requires SwapsHold(s) && Enabled(s, step)
    ensures Vacated(Apply(s, step), h) <==>
            (Vacated(s, h) && !(step.Store? && s.swaps[step.l].rhs == h)) ||
              (step.Exchange? && s.swaps[step.l].rhs == h)
  {
    var s' := Apply(s, step);
    if l :| l in s.swaps && s.swaps[l].rhs == h && s.swaps[l].previous.Some? && !(step == Store(l)) {
      assert l in s'.swaps && s'.swaps[l] == s.swaps[l];
    }
    if step.Exchange? { assert s'.swaps[step.l].previous.Some?; }
  }

  /** The steps of a swap move descriptors between holders, one to one. */
  lemma SwapMoves(s: State, step: Step, x: Holder, fd: int)
    requires SwapsHold(s) && Enabled(s, step) && (step.Load? || step.Exchange? || step.Store?)
    ensures Holds(s, x, fd) ==> Holds(Apply(s, step), MovesTo(s, step, x), fd)
    ensures Holds(Apply(s, step), x, fd) ==> exists y :: Holds(s, y, fd) && MovesTo(s, step, y) == x
  {
    if x.Own? { VacatedStep(s, step, x.h); }
    if Holds(s, x, fd) && MovesTo(s, step, x).Own? { VacatedStep(s, step, MovesTo(s, step, x).h); }
    if Holds(Apply(s, step), x, fd) {
      var y := match step
               case Exchange(l) => if x == Temp(l) then Own(l) else if x == Own(l) then Own(s.swaps[l].rhs) else x
               case Store(l) => if x == Own(s.swaps[l].rhs) then Temp(l) else x
               case _ => x;
      assert Holds(s, y, fd) && MovesTo(s, step, y) == x;
    }
  }

  lemma SwapStepOwned(s: State, step: Step)
    requires Inv(s) && Enabled(s, step) && (step.Load? || step.Exchange? || step.Store?)
    ensures Owned(Apply(s, step))
  {
    var s' := Apply(s, step);
    forall x, fd | Holds(s', x, fd) ensures exists y :: Holds(s, y, fd) && MovesTo(s, step, y) == x {
      SwapMoves(s, step, x, fd);
    }
    forall fd | fd in s'.open ensures fd >= 0 && exists x :: Holds(s', x, fd) {
      var y :| Holds(s, y, fd);
      SwapMoves(s, step, y, fd);
    }
  }

  /** What the other steps add to or take from the holders. */
  lemma LifeHolds(s: State, step: Step, x: Holder, fd: int)
    requires SwapsHold(s) && Enabled(s, step) && (step.Make? || step.Open? || step.Destroy?)
    ensures Holds(Apply(s, step), x, fd) <==>
            if x == Own(step.h) then (step.Open? && fd == step.fd) || (step.Make? && fd == INVALID) else Holds(s, x, fd)
  {
  }

  lemma LifeStepOwned(s: State, step: Step)
    requires Inv(s) && Enabled(s, step) && (step.Make? || step.Open? || step.Destroy?)
    ensures Owned(Apply(s, step))
  {
    var s' := Apply(s, step);
    forall x, fd
      ensures Holds(s', x, fd) <==>
              if x == Own(step.h) then (step.Open? && fd == step.fd) || (step.Make? && fd == INVALID)
                else Holds(s, x, fd)
    {
      LifeHolds(s, step, x, fd);
    }
    if step.Destroy? { assert Holds(s, Own(step.h), s.fds[step.h]); }
    forall fd | fd in s'.open ensures fd >= 0 && exists x :: Holds(s', x, fd) {
      if step.Open? && fd == step.fd {
        assert Holds(s', Own(step.h), fd);
      } else {
        var y :| Holds(s, y, fd);
        assert Holds(s', y, fd);
      }
    }
  }

  lemma ErrorStepOwned(s: State, step: Step)
    requires Inv(s) && Enabled(s, step) && ErrorStep(step)
    ensures Owned(Apply(s, step))
  {
    var s' := Apply(s, step);
    assert forall x, fd :: Holds(s', x, fd) <==> Holds(s, x, fd);
  }

  lemma {:induction false} Reachable(r: Run, k: nat)
    requires r.Valid() && k < |r.states|
    ensures Inv(r.states[k])
  {
    if k > 0 {
      Reachable(r, k - 1);
      assert r.StepAt(k - 1);
      var s, step := r.states[k - 1], r.steps[k - 1];
      SwapsStep(s, step);
      if step.Load? || step.Exchange? || step.Store? {
        SwapStepOwned(s, step);
      } else if ErrorStep(step) {
        ErrorStepOwned(s, step);
      } else {
        LifeStepOwned(s, step);
      }
    }
  }

  function Count(s: seq<int>, fd: int): nat {
    if s == [] then 0 else Count(s[..|s| - 1], fd) + if s[|s| - 1] == fd then 1 else 0
  }

  lemma CountAppend(s: seq<int>, x: int, fd: int)
    ensures Count(s + [x], fd) == Count(s, fd) + if x == fd then 1 else 0
  {
  }

  /** Over every interleaving: a destroyed handle closes a descriptor that is
      open and that nobody else holds, and a descriptor has been closed as often
      as it was opened, but for the one time it is still open. */
  lemma {:induction false} ClosedOnce(r: Run, k: nat, fd: int)
    requires r.Valid() && k < |r.states|
    ensures Count(r.states[k].issued, fd) == Count(r.states[k].closed, fd) + if fd in r.states[k].open then 1 else 0
    ensures k < |r.steps| && r.steps[k].Destroy? && Holds(r.states[k], Own(r.steps[k].h), fd) && fd != INVALID ==>
              fd in r.states[k].open && forall x :: Holds(r.states[k], x, fd) ==> x == Own(r.steps[k].h)
  {
    Reachable(r, k);
    if k > 0 {
      Reachable(r, k - 1);
      assert r.StepAt(k - 1);
      ClosedOnce(r, k - 1, fd);
      CountStep(r.states[k - 1], r.steps[k - 1], fd);
    }
  }

  /** Opening and closing keep the balance of a descriptor. */
  lemma CountStep(s: State, step: Step, fd: int)
    requires Inv(s) && Enabled(s, step) && Balanced(s, fd)
    ensures Balanced(Apply(s, step), fd)
  {
    if step.Open? {
      CountAppend(s.issued, step.fd, fd);
    } else if step.Destroy? {
      DestroyedWasOpen(s, step.h);
      DestroyCounts(s, step.h, fd);
    }
  }

  ghost predicate Balanced(s: State, fd: int) {
    Count(s.issued, fd) == Count(s.closed, fd) + if fd in s.open then 1 else 0
  }

  lemma DestroyedWasOpen(s: State, h: Id)
    requires Inv(s) && Enabled(s, Destroy(h))
    ensures s.fds[h] == INVALID || s.fds[h] in s.open
  {
    assert Holds(s, Own(h), s.fds[h]);
  }

  lemma DestroyCounts(s: State, h: Id, fd: int)
    requires Enabled(s, Destroy(h)) && Balanced(s, fd) && (s.fds[h] == INVALID || s.fds[h] in s.open)
    ensures Balanced(Apply(s, Destroy(h)), fd)
  {
    CountAppend(s.closed, s.fds[h], fd);
  }

  /** When no handle is left, every descriptor that was opened has been closed. */
  lemma NoLeak(r: Run, k: nat, fd: int)
    requires r.Valid() && k < |r.states| && r.states[k].fds == map[]
    ensures r.states[k].open == {} && Count(r.states[k].issued, fd) == Count(r.states[k].closed, fd)
  {
    Reachable(r, k);
    var s := r.states[k];
    assert forall fd' :: fd' !in s.open;
    ClosedOnce(r, k, fd);
  }

  // --- A swap is atomic ---

  /** Only its own steps change a locked handle or its swap. */
  lemma LockedStays(s: State, step: Step, l: Id)
    requires SwapsHold(s) && Enabled(s, step) && l in s.swaps && step != Exchange(l) && step != Store(l)
    ensures var s' := Apply(s, step);
            && l in s'.swaps && s'.swaps[l] == s.swaps[l]
            && l in s'.fds && s'.fds[l] == s.fds[l]
            && s.swaps[l].rhs in s'.fds && s'.fds[s.swaps[l].rhs] == s.fds[s.swaps[l].rhs]
  {
  }

  /** From its load on, a swap remembers what both handles held. */
  ghost predicate Pending(s: State, l: Id, r: Id, a: int, b: int) {
    && l in s.swaps && s.swaps[l].rhs == r && s.swaps[l].loaded == b && l in s.fds
    && (if s.swaps[l].previous.None? then s.fds[l] == a else s.swaps[l].previous == Some(a) && s.fds[l] == b)
  }

  lemma {:induction false} PendingFrom(r: Run, i: nat, k: nat, l: Id, h: Id)
    requires r.Valid() && i < k < |r.states| && r.steps[i] == Load(l, h)
    requires forall m :: i < m < k ==> r.steps[m] != Store(l)
    ensures l in r.states[i].fds && h in r.states[i].fds
    ensures Pending(r.states[k], l, h, r.states[i].fds[l], r.states[i].fds[h])
    decreases k
  {
    assert r.StepAt(i);
    if i + 1 < k {
      PendingFrom(r, i, k - 1, l, h);
      Reachable(r, k - 1);
      assert r.StepAt(k - 1);
      if r.steps[k - 1] != Exchange(l) { LockedStays(r.states[k - 1], r.steps[k - 1], l); }
    }
  }

  /** Whatever other threads do between its first and its last access, a swap
      leaves each of its handles with what the other held when it began. */
  lemma SwapIsAtomic(r: Run, i: nat, k: nat, l: Id, h: Id)
    requires r.Valid() && i < k < |r.steps| && r.steps[i] == Load(l, h) && r.steps[k] == Store(l)
    requires forall m :: i < m < k ==> r.steps[m] != Store(l)
    ensures l in r.states[i].fds && h in r.states[i].fds && l in r.states[k + 1].fds && h in r.states[k + 1].fds
    ensures r.states[k + 1].fds[l] == r.states[i].fds[h] && r.states[k + 1].fds[h] == r.states[i].fds[l]
  {
    PendingFrom(r, i, k, l, h);
    Reachable(r, k);
    assert r.StepAt(k);
  }
}
