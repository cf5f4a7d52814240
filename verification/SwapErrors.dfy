/** The error field under concurrent swaps. Errors are stored without the locks
    that a swap holds, so a store on the right handle can fall between the two
    accesses of its field and be overwritten. */
module SwapErrors {
  import opened Poll
  import opened SocketHandles

  // --- What every step keeps ---

  /** The two handles of a swap that holds their locks. */
  ghost predicate Pair(s: State, l: Id, h: Id) {
    (l in s.swaps && s.swaps[l].rhs == h) || (l in s.errorSwaps && s.errorSwaps[l].rhs == h)
  }

  /** Every handle has an error, and no two swaps share a handle. */
  ghost predicate PairsHold(s: State) {
    && s.errors.Keys == s.fds.Keys && s.swaps.Keys !! s.errorSwaps.Keys
    && (forall l, h :: Pair(s, l, h) ==> l in s.fds && h in s.fds && l != h)
    && (forall l, h, l', h' :: Pair(s, l, h) && Pair(s, l', h') && l != l' ==> h != h' && h != l')
  }

  /** What a step does to the pairs: a load adds one, the last store removes one. */
  lemma PairStep(s: State, step: Step, l: Id, h: Id)
    requires s.swaps.Keys !! s.errorSwaps.Keys && Enabled(s, step)
    ensures Pair(Apply(s, step), l, h) <==>
            (Pair(s, l, h) && !(step == StoreError(l))) || step == Load(l, h)
  {
    if step.Load? && step.l == l { assert !Locked(s, l); }
  }

  lemma KeysStep(s: State, step: Step)
    requires PairsHold(s) && Enabled(s, step)
    ensures var s' := Apply(s, step); s'.errors.Keys == s'.fds.Keys && s'.swaps.Keys !! s'.errorSwaps.Keys
    ensures forall h :: h in s.fds && step != Destroy(h) ==> h in Apply(s, step).fds
  {
    if step.Exchange? || step.Store? {
      assert Pair(s, step.l, s.swaps[step.l].rhs);
    } else if step.LoadError? || step.ExchangeError? || step.StoreError? {
      assert Pair(s, step.l, s.errorSwaps[step.l].rhs);
    }
  }

  /** A handle of a pair is locked. */
  lemma PairLocked(s: State, l: Id, h: Id)
    requires Pair(s, l, h)
    ensures Locked(s, l) && Locked(s, h)
  {
  }

  lemma PairsStep(s: State, step: Step)
    requires PairsHold(s) && Enabled(s, step)
    ensures PairsHold(Apply(s, step))
  {
    var s' := Apply(s, step);
    KeysStep(s, step);
    forall l, h | Pair(s', l, h) ensures l in s'.fds && h in s'.fds && l != h && (Pair(s, l, h) || step == Load(l, h)) {
      PairStep(s, step, l, h);
      if Pair(s, l, h) { PairLocked(s, l, h); }
    }
    forall l, h, l', h' | Pair(s', l, h) && Pair(s', l', h') && l != l' ensures h != h' && h != l' {
      if Pair(s, l, h) { PairLocked(s, l, h); }
      if Pair(s, l', h') { PairLocked(s, l', h'); }
    }
  }

  lemma {:induction false} PairsReachable(r: Run, k: nat)
    requires r.Valid() && k < |r.states|
    ensures PairsHold(r.states[k])
  {
    if k > 0 {
      assert r.StepAt(k - 1);
      PairsReachable(r, k - 1);
      PairsStep(r.states[k - 1], r.steps[k - 1]);
    }
  }

  /** The handles of a swap exist when it accesses their errors. */
  lemma ErrorGuardsAreFree(r: Run, k: nat, l: Id)
    requires r.Valid() && k < |r.states| && l in r.states[k].errorSwaps
    ensures l in r.states[k].errors && r.states[k].errorSwaps[l].rhs in r.states[k].errors
  {
    PairsReachable(r, k);
    assert Pair(r.states[k], l, r.states[k].errorSwaps[l].rhs);
  }

  // --- What is stored on a handle ---

  /** The error stored last on the handle from step `a` up to step `b`, if any. */
  function Latest(r: Run, a: nat, b: nat, h: Id, default: int): int
    requires a <= b <= |r.steps|
    decreases b
  {
    if a == b then default
    else if r.steps[b - 1].SetError? && r.steps[b - 1].h == h then r.steps[b - 1].error
    else Latest(r, a, b - 1, h, default)
  }

  predicate StoredOn(r: Run, a: nat, b: nat, h: Id)
    requires b <= |r.steps|
  {
    exists m :: a <= m < b && r.steps[m].SetError? && r.steps[m].h == h
  }

  lemma {:induction false} LatestStored(r: Run, a: nat, b: nat, h: Id, x: int, y: int)
    requires a <= b <= |r.steps|
    ensures Latest(r, a, b, h, x) == (if StoredOn(r, a, b, h) then Latest(r, a, b, h, y) else x)
    decreases b
  {
    if a < b { LatestStored(r, a, b - 1, h, x, y); }
  }

  /** While a swap holds its locks, others change the errors of its handles only
      by storing on them. */
  lemma ErrorStays(s: State, step: Step, l: Id, h: Id, x: Id)
    requires PairsHold(s) && Enabled(s, step) && Pair(s, l, h) && (x == l || x == h)
    requires step != ExchangeError(l) && step != StoreError(l)
    ensures x in s.errors && x in Apply(s, step).errors
    ensures Apply(s, step).errors[x] == if step.SetError? && step.h == x then step.error else s.errors[x]
  {
    PairLocked(s, l, h);
    if step.ExchangeError? || step.StoreError? { assert Pair(s, step.l, s.errorSwaps[step.l].rhs); }
  }

  lemma ErrorSwapStays(s: State, step: Step, l: Id)
    requires PairsHold(s) && Enabled(s, step) && l in s.errorSwaps
    requires step != LoadError(l) && step != ExchangeError(l) && step != StoreError(l)
    ensures l in Apply(s, step).errorSwaps && Apply(s, step).errorSwaps[l] == s.errorSwaps[l]
  {
  }

  // --- The outcome of a swap of errors ---

  /** The three accesses of one swap to the errors of its handles. */
  ghost predicate ErrorPhases(r: Run, a: nat, x: nat, z: nat, l: Id)
    requires r.Valid()
  {
    && a < x < z < |r.steps|
    && r.steps[a] == LoadError(l) && r.steps[x] == ExchangeError(l) && r.steps[z] == StoreError(l)
    && (forall m :: a < m < z ==> r.steps[m] != StoreError(l))
    && (forall m :: a < m < x ==> r.steps[m] != ExchangeError(l))
  }

  lemma {:induction false} LoadedUntil(r: Run, a: nat, k: nat, l: Id)
    requires r.Valid() && a < k < |r.states| && r.steps[a] == LoadError(l)
    requires forall m :: a < m < k ==> r.steps[m] != StoreError(l) && r.steps[m] != ExchangeError(l)
    ensures l in r.states[a].errorSwaps && r.states[a].errorSwaps[l].rhs in r.states[a].errors
    ensures var h := r.states[a].errorSwaps[l].rhs;
            l in r.states[k].errorSwaps && r.states[k].errorSwaps[l] == ErrorSwap(h, Some(r.states[a].errors[h]), None)
    decreases k
  {
    assert r.StepAt(a) && r.StepAt(k - 1);
    if a + 1 == k {
      NotYetExchanged(r, a, l);
    } else {
      LoadedUntil(r, a, k - 1, l);
      PairsReachable(r, k - 1);
      ErrorSwapStays(r.states[k - 1], r.steps[k - 1], l);
    }
  }

  /** A swap that has not loaded has not exchanged. */
  lemma {:induction false} NotYetExchanged(r: Run, k: nat, l: Id)
    requires r.Valid() && k < |r.states| && l in r.states[k].errorSwaps && r.states[k].errorSwaps[l].loaded.None?
    ensures r.states[k].errorSwaps[l].previous.None?
  {
    if k > 0 {
      assert r.StepAt(k - 1);
      var s := r.states[k - 1];
      if l in s.errorSwaps && s.errorSwaps[l].loaded.None? { NotYetExchanged(r, k - 1, l); }
    }
  }

  /** What the swap knows after its exchange, and what its handles carry. */
  ghost predicate Exchanged(r: Run, x: nat, k: nat, l: Id, h: Id, loaded: int)
    requires r.Valid() && x < k < |r.states| && l in r.states[x].errors && h in r.states[x].errors
  {
    && l in r.states[k].errorSwaps
    && r.states[k].errorSwaps[l] == ErrorSwap(h, Some(loaded), Some(r.states[x].errors[l]))
    && l in r.states[k].errors && r.states[k].errors[l] == Latest(r, x + 1, k, l, loaded)
    && h in r.states[k].errors && r.states[k].errors[h] == Latest(r, x + 1, k, h, r.states[x].errors[h])
  }

  lemma ExchangedFirst(r: Run, a: nat, x: nat, z: nat, l: Id)
    requires r.Valid() && ErrorPhases(r, a, x, z, l)
    ensures l in r.states[a].errorSwaps && l in r.states[x].errors
    ensures var h := r.states[a].errorSwaps[l].rhs;
            h in r.states[a].errors && h in r.states[x].errors && h != l
            && Exchanged(r, x, x + 1, l, h, r.states[a].errors[h])
  {
    LoadedUntil(r, a, x, l);
    assert r.StepAt(x);
    PairsReachable(r, x);
    assert Pair(r.states[x], l, r.states[a].errorSwaps[l].rhs);
  }

  lemma {:induction false} ExchangedUntil(r: Run, a: nat, x: nat, z: nat, k: nat, l: Id)
    requires r.Valid() && ErrorPhases(r, a, x, z, l) && x < k <= z
    ensures l in r.states[a].errorSwaps && l in r.states[x].errors
    ensures var h := r.states[a].errorSwaps[l].rhs;
            h in r.states[a].errors && h in r.states[x].errors && h != l
            && Exchanged(r, x, k, l, h, r.states[a].errors[h])
    decreases k
  {
    ExchangedFirst(r, a, x, z, l);
    if x + 1 < k {
      ExchangedUntil(r, a, x, z, k - 1, l);
      assert r.StepAt(k - 1);
      var s, step, h := r.states[k - 1], r.steps[k - 1], r.states[a].errorSwaps[l].rhs;
      PairsReachable(r, k - 1);
      assert Pair(s, l, h);
      ErrorSwapStays(s, step, l);
      ErrorStays(s, step, l, h, l);
      ErrorStays(s, step, l, h, h);
    }
  }

  /** Whatever other threads do between the accesses: the right handle ends with
      the error the left one carried at the exchange, whatever was stored on the
      right one; the left handle ends with the error the right one carried at
      the load, or with what was stored on the left one after the exchange. */
  lemma ErrorSwapOutcome(r: Run, a: nat, x: nat, z: nat, l: Id)
    requires r.Valid() && ErrorPhases(r, a, x, z, l)
    ensures l in r.states[a].errorSwaps && l in r.states[x].errors
    ensures var h := r.states[a].errorSwaps[l].rhs;
            && h in r.states[a].errors && l in r.states[z + 1].errors && h in r.states[z + 1].errors
            && r.states[z + 1].errors[l] == Latest(r, x + 1, z + 1, l, r.states[a].errors[h])
            && r.states[z + 1].errors[h] == r.states[x].errors[l]
  {
    ExchangedUntil(r, a, x, z, z, l);
    assert r.StepAt(z);
  }

  /** The swap has the outcome of an exchange of both errors at one moment, its
      own exchange, followed by the stores that came after that moment. */
  ghost predicate AsIfAtOnce(r: Run, x: nat, z: nat, l: Id, h: Id)
    requires r.Valid() && x < z < |r.steps|
  {
    && l in r.states[x].errors && h in r.states[x].errors && l in r.states[z + 1].errors && h in r.states[z + 1].errors
    && r.states[z + 1].errors[l] == Latest(r, x + 1, z + 1, l, r.states[x].errors[h])
    && r.states[z + 1].errors[h] == Latest(r, x + 1, z + 1, h, r.states[x].errors[l])
  }

  /** That is so if and only if the right handle's error did not change between
      the load and the exchange, or was overwritten by a store on the left one,
      and what was stored on the right one after the exchange, if anything, is
      what the swap then stores there. */
  lemma ErrorSwapExactly(r: Run, a: nat, x: nat, z: nat, l: Id)
    requires r.Valid() && ErrorPhases(r, a, x, z, l)
    ensures l in r.states[a].errorSwaps && l in r.states[x].errors
    ensures var h := r.states[a].errorSwaps[l].rhs;
            && h in r.states[a].errors && h in r.states[x].errors && h in r.states[z].errors
            && (AsIfAtOnce(r, x, z, l, h) <==>
                && (r.states[x].errors[h] == r.states[a].errors[h] || StoredOn(r, x + 1, z, l))
                && (StoredOn(r, x + 1, z, h) ==> r.states[z].errors[h] == r.states[x].errors[l]))
  {
    ErrorSwapOutcome(r, a, x, z, l);
    ExchangedUntil(r, a, x, z, z, l);
    var h := r.states[a].errorSwaps[l].rhs;
    LatestStored(r, x + 1, z, l, r.states[a].errors[h], r.states[x].errors[h]);
    LatestStored(r, x + 1, z, h, r.states[x].errors[l], r.states[x].errors[h]);
    LatestStored(r, x + 1, z, l, r.states[x].errors[h], r.states[a].errors[h]);
  }

  /** In particular when nothing is stored on the right handle between the load
      and the store of its error. */
  lemma ErrorSwapUndisturbed(r: Run, a: nat, x: nat, z: nat, l: Id)
    requires r.Valid() && ErrorPhases(r, a, x, z, l) && l in r.states[a].errorSwaps
    requires !StoredOn(r, a + 1, z, r.states[a].errorSwaps[l].rhs)
    ensures AsIfAtOnce(r, x, z, l, r.states[a].errorSwaps[l].rhs)
  {
    var h := r.states[a].errorSwaps[l].rhs;
    ErrorSwapExactly(r, a, x, z, l);
    RightStays(r, a, x, l);
  }

  lemma {:induction false} RightStays(r: Run, a: nat, k: nat, l: Id)
    requires r.Valid() && a < k < |r.states| && r.steps[a] == LoadError(l) && l in r.states[a].errorSwaps
    requires forall m :: a < m < k ==> r.steps[m] != StoreError(l) && r.steps[m] != ExchangeError(l)
    requires !StoredOn(r, a + 1, k, r.states[a].errorSwaps[l].rhs)
    ensures var h := r.states[a].errorSwaps[l].rhs;
            h in r.states[a].errors && h in r.states[k].errors && r.states[k].errors[h] == r.states[a].errors[h]
    decreases k
  {
    assert r.StepAt(a) && r.StepAt(k - 1);
    var h := r.states[a].errorSwaps[l].rhs;
    if a + 1 < k {
      RightStays(r, a, k - 1, l);
      LoadedUntil(r, a, k - 1, l);
      PairsReachable(r, k - 1);
      assert Pair(r.states[k - 1], l, h);
      ErrorStays(r.states[k - 1], r.steps[k - 1], l, h, h);
    }
  }

  // --- A store is lost ---

  /** A run with one more step. */
  lemma Extend(r: Run, step: Step) returns (r': Run)
    requires r.Valid() && Enabled(r.states[|r.steps|], step)
    ensures r'.Valid() && r'.steps == r.steps + [step] && r.steps <= r'.steps
    ensures r'.states[|r'.steps|] == Apply(r.states[|r.steps|], step)
  {
    r' := Run(r.states + [Apply(r.states[|r.steps|], step)], r.steps + [step]);
    forall i | 0 <= i < |r'.steps| ensures r'.StepAt(i) {
      if i < |r.steps| { assert r.StepAt(i); }
    }
  }

  /** Two handles, and a swap that has exchanged their sockets. */
  lemma SocketsSwapped() returns (r: Run)
    ensures r.Valid()
    ensures r.states[|r.steps|] ==
            State(map[0 := INVALID, 1 := INVALID], map[0 := 0, 1 := 0], map[], map[0 := ErrorSwap(1, None, None)], {},
                  [], [])
  {
    r := Run([Init], []);
    r := Extend(r, Make(0));
    r := Extend(r, Make(1));
    r := Extend(r, Load(0, 1));
    r := Extend(r, Exchange(0));
    r := Extend(r, Store(0));
  }

  /** An error that is stored on the right handle between those accesses is on
      neither handle after the swap. */
  lemma LostErrorRun() returns (r: Run)
    ensures r.Valid() && |r.steps| >= 4 &&
            r.steps[|r.steps| - 4..] == [LoadError(0), SetError(1, 104), ExchangeError(0), StoreError(0)]
    ensures r.states[|r.steps|].errors == map[0 := 0, 1 := 0]
  {
    r := SocketsSwapped();
    r := Extend(r, LoadError(0));
    r := Extend(r, SetError(1, 104));
    r := Extend(r, ExchangeError(0));
    r := Extend(r, StoreError(0));
  }
}
