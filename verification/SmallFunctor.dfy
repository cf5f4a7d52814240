/** The type-erased functor with internal storage. Constructions and
    destructions of the stored callables are counted in a ledger, and the
    primitive operations demand what makes them defined: nothing is built over
    a live object, and only a live object of the right type is moved, copied or
    destroyed. */
module SmallFunctor {
  import opened Sequences
  import opened Poll

  datatype VTable = VTable(id: nat, copyable: bool)

  /** A callable: its type and the state it captured. */
  datatype Callable = Callable(vtable: VTable, state: int)

  /** Raw storage: no object, an object, or an object that was moved from. */
  datatype Cell = Dead | Live(callable: Callable) | MovedFrom(vtable: VTable)

  class Ledger {
    var built: nat
    var destroyed: nat

    constructor ()
      ensures built == 0 && destroyed == 0
    {
      built, destroyed := 0, 0;
    }
  }

  class Storage {
    var cell: Cell
    ghost var owner: Functor?

    constructor ()
      ensures cell == Dead && owner == null
    {
      cell := Dead;
      owner := null;
    }
  }

  /** Move construction of the object in `src` into `dst`. */
  method MoveObject(vtable: VTable, src: Storage, dst: Storage, ledger: Ledger)
    requires src != dst && src.cell.Live? && src.cell.callable.vtable == vtable && dst.cell == Dead
    modifies src`cell, dst`cell, ledger`built
    ensures dst.cell == old(src.cell) && src.cell == MovedFrom(vtable)
    ensures ledger.built == old(ledger.built) + 1
  {
    dst.cell := src.cell;
    src.cell := MovedFrom(vtable);
    ledger.built := ledger.built + 1;
  }

  method CopyObject(vtable: VTable, src: Storage, dst: Storage, ledger: Ledger)
    requires vtable.copyable && src != dst && src.cell.Live? && src.cell.callable.vtable == vtable && dst.cell == Dead
    modifies dst`cell, ledger`built
    ensures dst.cell == src.cell && ledger.built == old(ledger.built) + 1
  {
    dst.cell := src.cell;
    ledger.built := ledger.built + 1;
  }

  method DestroyObject(vtable: VTable, at: Storage, ledger: Ledger)
    requires at.cell == MovedFrom(vtable) || (at.cell.Live? && at.cell.callable.vtable == vtable)
    modifies at`cell, ledger`destroyed
    ensures at.cell == Dead && ledger.destroyed == old(ledger.destroyed) + 1
  {
    at.cell := Dead;
    ledger.destroyed := ledger.destroyed + 1;
  }

  function Copied(c: Option<Callable>): Option<Callable> {
    if c.Some? && c.value.vtable.copyable then c else None
  }

  function Occupancy(c: Option<Callable>): nat { if c.Some? then 1 else 0 }

  class Functor {
    const storage: Storage
    var vptr: Option<VTable>

    /** The table pointer is set exactly when the storage holds one live object of that type. */
    ghost predicate Valid()
      reads this, storage
    {
      && storage.owner == this
      && (vptr.None? ==> storage.cell == Dead)
      && (vptr.Some? ==> storage.cell.Live? && storage.cell.callable.vtable == vptr.value)
    }

    ghost function Content(): Option<Callable>
      requires Valid()
      reads this, storage
    {
      if vptr.None? then None else Some(storage.cell.callable)
    }

    constructor ()
      ensures Valid() && Content() == None && fresh(storage)
    {
      storage := new Storage();
      vptr := None;
      new;
      storage.owner := this;
    }

    constructor FromCallable(c: Callable, ledger: Ledger)
      modifies ledger`built
      ensures Valid() && Content() == Some(c) && fresh(storage)
      ensures ledger.built == old(ledger.built) + 1
    {
      storage := new Storage();
      vptr := Some(c.vtable);
      new;
      storage.owner := this;
      storage.cell := Live(c);
      ledger.built := ledger.built + 1;
    }

    /** Copying a callable that cannot be copied yields an empty functor. */
    constructor Copy(other: Functor, ledger: Ledger)
      requires other.Valid()
      modifies ledger`built
      ensures Valid() && other.Valid() && fresh(storage)
      ensures other.Content() == old(other.Content()) && Content() == Copied(other.Content())
      ensures ledger.built == old(ledger.built) + Occupancy(Content())
    {
      storage := new Storage();
      vptr := None;
      new;
      storage.owner := this;
      if other.vptr.Some? && other.vptr.value.copyable {
        CopyObject(other.vptr.value, other.storage, storage, ledger);
        vptr := other.vptr;
      }
    }

    constructor Move(other: Functor, ledger: Ledger)
      requires other.Valid()
      modifies other`vptr, other.storage`cell, ledger
      ensures Valid() && other.Valid() && fresh(storage)
      ensures Content() == old(other.Content()) && other.Content() == None
      ensures ledger.built - ledger.destroyed == old(ledger.built - ledger.destroyed)
    {
      storage := new Storage();
      vptr := None;
      new;
      storage.owner := this;
      Swap(this, other, ledger);
    }

    /** Exchange through a temporary storage; every move is followed by the
        destruction of what was moved from. */
    static method Swap(lhs: Functor, rhs: Functor, ledger: Ledger)
      requires lhs.Valid() && rhs.Valid()
      modifies lhs`vptr, lhs.storage`cell, rhs`vptr, rhs.storage`cell, ledger
      ensures lhs.Valid() && rhs.Valid()
      ensures lhs.Content() == old(rhs.Content()) && rhs.Content() == old(lhs.Content())
      ensures var moves := if lhs == rhs then 0 else 2 * Occupancy(old(lhs.Content())) + Occupancy(old(rhs.Content()));
              ledger.built == old(ledger.built) + moves && ledger.destroyed == old(ledger.destroyed) + moves
    {
      if lhs == rhs {
        return;
      }
      var temp := new Storage();
      if lhs.vptr.Some? {
        MoveObject(lhs.vptr.value, lhs.storage, temp, ledger);
        DestroyObject(lhs.vptr.value, lhs.storage, ledger);
      }
      if rhs.vptr.Some? {
        MoveObject(rhs.vptr.value, rhs.storage, lhs.storage, ledger);
        DestroyObject(rhs.vptr.value, rhs.storage, ledger);
      }
      if lhs.vptr.Some? {
        MoveObject(lhs.vptr.value, temp, rhs.storage, ledger);
        DestroyObject(lhs.vptr.value, temp, ledger);
      }
      lhs.vptr, rhs.vptr := rhs.vptr, lhs.vptr;
      assert temp.cell == Dead;
    }

    method CopyAssign(other: Functor, ledger: Ledger)
      requires Valid() && other.Valid()
      modifies this`vptr, storage`cell, ledger
      ensures Valid() && other.Valid()
      ensures other != this ==> other.Content() == old(other.Content())
      ensures Content() == if other == this then old(Content()) else Copied(old(other.Content()))
      ensures ledger.built - ledger.destroyed ==
              old(ledger.built - ledger.destroyed) + Occupancy(Content()) - old(Occupancy(Content()))
    {
      if this == other {
        return;
      }
      var tmp := new Functor.Copy(other, ledger);
      Swap(this, tmp, ledger);
      tmp.Destroy(ledger);
    }

    method MoveAssign(other: Functor, ledger: Ledger)
      requires Valid() && other.Valid()
      modifies this`vptr, storage`cell, other`vptr, other.storage`cell, ledger
      ensures Valid() && other.Valid()
      ensures Content() == old(other.Content()) && other.Content() == old(Content())
      ensures ledger.built - ledger.destroyed == old(ledger.built - ledger.destroyed)
    {
      Swap(this, other, ledger);
    }

    /** The destructor; the functor is not used afterwards. */
    method Destroy(ledger: Ledger)
      requires Valid()
      modifies storage`cell, ledger`destroyed
      ensures storage.cell == Dead
      ensures ledger.destroyed == old(ledger.destroyed) + old(Occupancy(Content()))
    {
      if vptr.Some? {
        DestroyObject(vptr.value, storage, ledger);
      }
    }
  }

  // --- Any program over any number of functors ---

  datatype Action =
    | MakeEmpty
    | Make(c: Callable)
    | CopyFrom(i: nat)
    | MoveFrom(i: nat)
    | AssignCopy(i: nat, j: nat)
    | AssignMove(i: nat, j: nat)
    | Exchange(i: nat, j: nat)
    | Drop(i: nat)

  type Contents = seq<Option<Callable>>

  predicate Applicable(n: nat, a: Action) {
    match a
    case MakeEmpty => true
    case Make(_) => true
    case CopyFrom(i) => i < n
    case MoveFrom(i) => i < n
    case AssignCopy(i, j) => i < n && j < n
    case AssignMove(i, j) => i < n && j < n
    case Exchange(i, j) => i < n && j < n
    case Drop(i) => i < n
  }

  /** The value semantics of the functor operations. */
  function Apply(s: Contents, a: Action): Contents
    requires Applicable(|s|, a)
  {
    match a
    case MakeEmpty => s + [None]
    case Make(c) => s + [Some(c)]
    case CopyFrom(i) => s + [Copied(s[i])]
    case MoveFrom(i) => s[i := None] + [s[i]]
    case AssignCopy(i, j) => if i == j then s else s[i := Copied(s[j])]
    case AssignMove(i, j) => s[i := s[j]][j := s[i]]
    case Exchange(i, j) => s[i := s[j]][j := s[i]]
    case Drop(i) => s[..i] + s[i + 1..]
  }

  /** What each functor holds after an action: what is new at the end, what the
      named functors hold, and that every other one holds what it held, one
      place further to the front behind a dropped one. */
  lemma AppliedContents(s: Contents, a: Action)
    requires Applicable(|s|, a)
    ensures var n, s' := |s|, Apply(s, a);
            match a
            case MakeEmpty => |s'| == n + 1 && s'[n] == None && Same(s, s', {})
            case Make(c) => |s'| == n + 1 && s'[n] == Some(c) && Same(s, s', {})
            case CopyFrom(i) =>
              |s'| == n + 1 && Same(s, s', {}) &&
              s'[n] == if s[i].Some? && s[i].value.vtable.copyable then s[i] else None
            case MoveFrom(i) => |s'| == n + 1 && s'[n] == s[i] && s'[i] == None && Same(s, s', {i})
            case AssignCopy(i, j) =>
              |s'| == n && Same(s, s', {i}) &&
              s'[i] == if i == j || (s[j].Some? && s[j].value.vtable.copyable) then s[j] else None
            case AssignMove(i, j) => |s'| == n && s'[i] == s[j] && s'[j] == s[i] && Same(s, s', {i, j})
            case Exchange(i, j) => |s'| == n && s'[i] == s[j] && s'[j] == s[i] && Same(s, s', {i, j})
            case Drop(i) => |s'| == n - 1 && forall k :: 0 <= k < n - 1 ==> s'[k] == s[if k < i then k else k + 1]
  {
    match a
    case MakeEmpty => NewContents(s, None);
    case Make(c) => NewContents(s, Some(c));
    case CopyFrom(i) => NewContents(s, Copied(s[i]));
    case MoveFrom(i) => ReplacedContents(s, i, None); NewContents(s[i := None], s[i]);
    case AssignCopy(i, j) => ReplacedContents(s, i, Copied(s[j]));
    case AssignMove(i, j) => ExchangedContents(s, i, j);
    case Exchange(i, j) => ExchangedContents(s, i, j);
    case Drop(i) => Without(s, i);
  }

  lemma NewContents(s: Contents, c: Option<Callable>)
    ensures |s + [c]| == |s| + 1 && (s + [c])[|s|] == c && Same(s, s + [c], {})
  {
  }

  lemma ReplacedContents(s: Contents, i: nat, c: Option<Callable>)
    requires i < |s|
    ensures |s[i := c]| == |s| && s[i := c][i] == c && Same(s, s[i := c], {i})
  {
  }

  lemma ExchangedContents(s: Contents, i: nat, j: nat)
    requires i < |s| && j < |s|
    ensures var s' := s[i := s[j]][j := s[i]];
            |s'| == |s| && s'[i] == s[j] && s'[j] == s[i] && Same(s, s', {i, j})
  {
  }

  /** The functors that were there and are not named hold what they held. */
  predicate Same(s: Contents, s': Contents, but: set<nat>) {
    |s| <= |s'| && forall k: nat :: k < |s| && k !in but ==> s'[k] == s[k]
  }

  /** How many functors hold an object. */
  function Occupied(s: Contents): nat {
    if s == [] then 0 else Occupancy(s[0]) + Occupied(s[1..])
  }

  lemma {:induction false} OccupiedConcat(a: Contents, b: Contents)
    ensures Occupied(a + b) == Occupied(a) + Occupied(b)
  {
    if a == [] {
      assert a + b == b;
    } else {
      assert (a + b)[1..] == a[1..] + b;
      OccupiedConcat(a[1..], b);
    }
  }

  lemma OccupiedOne(c: Option<Callable>)
    ensures Occupied([c]) == Occupancy(c)
  {
  }

  lemma OccupiedAt(s: Contents, i: nat)
    requires i < |s|
    ensures Occupied(s) == Occupied(s[..i]) + Occupancy(s[i]) + Occupied(s[i + 1..])
    ensures Occupied(s[..i] + s[i + 1..]) == Occupied(s) - Occupancy(s[i])
  {
    var a, x, b := s[..i], [s[i]], s[i + 1..];
    assert s == a + (x + b);
    OccupiedConcat(a, x + b);
    OccupiedConcat(x, b);
    OccupiedOne(s[i]);
    OccupiedConcat(a, b);
  }

  lemma OccupiedUpdate(s: Contents, i: nat, c: Option<Callable>)
    requires i < |s|
    ensures Occupied(s[i := c]) == Occupied(s) - Occupancy(s[i]) + Occupancy(c)
  {
    OccupiedAt(s, i);
    OccupiedAt(s[i := c], i);
    assert s[i := c][..i] == s[..i] && s[i := c][i + 1..] == s[i + 1..];
  }

  /** The number of stored objects before and after one action. */
  lemma OccupiedApply(s: Contents, a: Action)
    requires Applicable(|s|, a)
    ensures Occupied(Apply(s, a)) == Occupied(s) + Delta(s, a)
  {
    match a
    case MakeEmpty => OccupiedConcat(s, [None]); OccupiedOne(None);
    case Make(c) => OccupiedConcat(s, [Some(c)]); OccupiedOne(Some(c));
    case CopyFrom(i) => OccupiedConcat(s, [Copied(s[i])]); OccupiedOne(Copied(s[i]));
    case MoveFrom(i) =>
      OccupiedConcat(s[i := None], [s[i]]);
      OccupiedOne(s[i]);
      OccupiedUpdate(s, i, None);
    case AssignCopy(i, j) => OccupiedUpdate(s, i, Copied(s[j]));
    case AssignMove(i, j) => OccupiedExchange(s, i, j);
    case Exchange(i, j) => OccupiedExchange(s, i, j);
    case Drop(i) => OccupiedAt(s, i);
  }

  function Delta(s: Contents, a: Action): int
    requires Applicable(|s|, a)
  {
    match a
    case Make(_) => 1
    case CopyFrom(i) => Occupancy(Copied(s[i]))
    case AssignCopy(i, j) => if i == j then 0 else Occupancy(Copied(s[j])) - Occupancy(s[i])
    case Drop(i) => 0 - Occupancy(s[i])
    case _ => 0
  }

  lemma OccupiedExchange(s: Contents, i: nat, j: nat)
    requires i < |s| && j < |s|
    ensures Occupied(s[i := s[j]][j := s[i]]) == Occupied(s)
  {
    OccupiedUpdate(s, i, s[j]);
    OccupiedUpdate(s[i := s[j]], j, s[i]);
  }

  class Pool {
    const ledger: Ledger
    var functors: seq<Functor>

    /** Functors in use are distinct, and objects built minus objects destroyed
        is the number of functors that hold one. */
    ghost predicate Valid()
      reads this, ledger, functors, set f | f in functors :: f.storage
    {
      && (forall i :: 0 <= i < |functors| ==> functors[i].Valid())
      && (forall i, j :: 0 <= i < j < |functors| ==> functors[i] != functors[j])
      && ledger.built - ledger.destroyed == Occupied(View())
    }

    ghost function View(): (s: Contents)
      requires forall i :: 0 <= i < |functors| ==> functors[i].Valid()
      reads this, functors, set f | f in functors :: f.storage
      ensures |s| == |functors| && forall i :: 0 <= i < |s| ==> s[i] == functors[i].Content()
    {
      seq(|functors|, i requires 0 <= i < |functors| reads this, functors, set f | f in functors :: f.storage
                        requires functors[i].Valid() => functors[i].Content())
    }

    constructor ()
      ensures Valid() && functors == [] && fresh(ledger)
    {
      ledger := new Ledger();
      functors := [];
    }

    /** The functors added since the old state, and their storages, are new. */
    twostate predicate Grown()
      reads this, functors
    {
      forall f :: f in functors && f !in old(functors) ==> fresh(f) && fresh(f.storage)
    }

    ghost predicate Held()
      reads this, functors, set f | f in functors :: f.storage
    {
      && (forall i :: 0 <= i < |functors| ==> functors[i].Valid())
      && (forall i, j :: 0 <= i < j < |functors| ==> functors[i] != functors[j])
    }

    lemma Balanced(was: Contents, a: Action)
      requires Held() && Applicable(|was|, a) && View() == Apply(was, a)
      requires ledger.built - ledger.destroyed == Occupied(was) + Delta(was, a)
      ensures Valid()
    {
      OccupiedApply(was, a);
    }

    method Add(f: Functor)
      requires Held() && f !in functors && f.Valid()
      modifies this`functors
      ensures Held() && functors == old(functors) + [f] && View() == old(View()) + [f.Content()]
    {
      functors := functors + [f];
    }

    method Create(a: Action)
      requires Valid() && Applicable(|functors|, a) && (a.MakeEmpty? || a.Make? || a.CopyFrom?)
      modifies this`functors, ledger`built
      ensures Valid() && Grown() && View() == Apply(old(View()), a)
    {
      ghost var was := View();
      var f: Functor;
      if a.MakeEmpty? {
        f := new Functor();
      } else if a.Make? {
        f := new Functor.FromCallable(a.c, ledger);
      } else {
        f := new Functor.Copy(functors[a.i], ledger);
      }
      assert View() == was;
      Add(f);
      Balanced(was, a);
    }

    method MoveOut(i: nat)
      requires Valid() && i < |functors|
      modifies this`functors, ledger, {functors[i]}`vptr, functors[i].storage`cell
      ensures Valid() && Grown() && View() == Apply(old(View()), MoveFrom(i))
    {
      ghost var was := View();
      var f := new Functor.Move(functors[i], ledger);
      assert View() == was[i := None];
      Add(f);
      Balanced(was, MoveFrom(i));
    }

    method Assign(i: nat, j: nat)
      requires Valid() && i < |functors| && j < |functors|
      modifies ledger, {functors[i]}`vptr, functors[i].storage`cell
      ensures Valid() && View() == Apply(old(View()), AssignCopy(i, j))
    {
      ghost var was := View();
      functors[i].CopyAssign(functors[j], ledger);
      assert View() == Apply(was, AssignCopy(i, j));
      Balanced(was, AssignCopy(i, j));
    }

    method SwapAt(i: nat, j: nat, byMove: bool)
      requires Valid() && i < |functors| && j < |functors|
      modifies ledger, {functors[i]}`vptr, functors[i].storage`cell, {functors[j]}`vptr, functors[j].storage`cell
      ensures Valid() && View() == Apply(old(View()), Exchange(i, j))
    {
      ghost var was := View();
      if byMove {
        functors[i].MoveAssign(functors[j], ledger);
      } else {
        Functor.Swap(functors[i], functors[j], ledger);
      }
      assert View() == Apply(was, Exchange(i, j));
      Balanced(was, Exchange(i, j));
    }

    method DropAt(i: nat)
      requires Valid() && i < |functors|
      modifies this`functors, ledger`destroyed, functors[i].storage`cell
      ensures Valid() && functors == old(functors)[..i] + old(functors)[i + 1..]
      ensures View() == Apply(old(View()), Drop(i))
    {
      ghost var was := View();
      functors[i].Destroy(ledger);
      RemoveAt(i, was);
      Balanced(was, Drop(i));
    }

    /** Takes a destroyed functor out of the pool. */
    method RemoveAt(i: nat, ghost was: Contents)
      requires i < |functors| == |was|
      requires forall k :: 0 <= k < |functors| && k != i ==> functors[k].Valid() && functors[k].Content() == was[k]
      requires forall k, j :: 0 <= k < j < |functors| ==> functors[k] != functors[j]
      modifies this`functors
      ensures Held() && functors == old(functors)[..i] + old(functors)[i + 1..]
      ensures View() == Apply(was, Drop(i))
    {
      ghost var rest := was[..i] + was[i + 1..];
      var fs := functors[..i] + functors[i + 1..];
      Removed(functors, was, i, fs, rest);
      functors := fs;
    }

    static lemma Removed(all: seq<Functor>, was: Contents, i: nat, fs: seq<Functor>, rest: Contents)
      requires i < |all| == |was| && fs == all[..i] + all[i + 1..] && rest == was[..i] + was[i + 1..]
      requires forall k :: 0 <= k < |all| && k != i ==> all[k].Valid() && all[k].Content() == was[k]
      requires forall k, j :: 0 <= k < j < |all| ==> all[k] != all[j]
      ensures |fs| == |rest| && forall k :: 0 <= k < |fs| ==> fs[k].Valid() && fs[k].Content() == rest[k]
      ensures forall k, j :: 0 <= k < j < |fs| ==> fs[k] != fs[j]
    {
      Without(all, i);
      Without(was, i);
    }

    method PerformNew(a: Action)
      requires Valid() && Applicable(|functors|, a) && (a.MakeEmpty? || a.Make? || a.CopyFrom? || a.MoveFrom?)
      modifies this`functors, ledger, functors, set f | f in functors :: f.storage
      ensures Valid() && Grown() && View() == Apply(old(View()), a)
    {
      if a.MoveFrom? {
        MoveOut(a.i);
      } else {
        Create(a);
      }
    }

    method PerformOld(a: Action)
      requires Valid() && Applicable(|functors|, a) && (a.AssignCopy? || a.AssignMove? || a.Exchange? || a.Drop?)
      modifies this`functors, ledger, functors, set f | f in functors :: f.storage
      ensures Valid() && (forall f :: f in functors ==> f in old(functors)) && View() == Apply(old(View()), a)
    {
      match a
      case AssignCopy(i, j) => Assign(i, j);
      case AssignMove(i, j) => SwapAt(i, j, true);
      case Exchange(i, j) => SwapAt(i, j, false);
      case Drop(i) => DropAt(i);
    }

    /** One action of a program. */
    method Perform(a: Action)
      requires Valid() && Applicable(|functors|, a)
      modifies this`functors, ledger, functors, set f | f in functors :: f.storage
      ensures Valid() && Grown() && View() == Apply(old(View()), a)
    {
      if a.MakeEmpty? || a.Make? || a.CopyFrom? || a.MoveFrom? {
        PerformNew(a);
      } else {
        PerformOld(a);
      }
    }

    /** Any program: the functors behave as values throughout, and once all of
        them are gone every object that was built has been destroyed. */
    method Play(program: seq<Action>)
      requires Valid()
      requires Playable(View(), program)
      modifies this`functors, ledger, functors, set f | f in functors :: f.storage
      ensures Valid() && View() == Played(old(View()), program)
      ensures functors == [] ==> ledger.built == ledger.destroyed
    {
      for k := 0 to |program|
        invariant Valid() && Grown()
        invariant Playable(View(), program[k..])
        invariant Played(View(), program[k..]) == old(Played(View(), program))
      {
        assert program[k..][0] == program[k] && program[k..][1..] == program[k + 1..];
        Perform(program[k]);
      }
    }
  }

  ghost predicate Playable(s: Contents, program: seq<Action>)
    decreases |program|
  {
    program == [] || (Applicable(|s|, program[0]) && Playable(Apply(s, program[0]), program[1..]))
  }

  function Played(s: Contents, program: seq<Action>): Contents
    requires Playable(s, program)
    decreases |program|
  {
    if program == [] then s else Played(Apply(s, program[0]), program[1..])
  }
}
