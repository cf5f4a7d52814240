/** The fairness counter: how often creations skip the eager attempt, and how
    long a chain of operations that complete inline can be. */
module Fairness {
  import opened Poll
  import opened Protocol
  import opened LoopExit

  predicate EagerCreate(step: Step) {
    step.Create? && step.kind.Transfer? && step.kind.eager
  }

  /** The creation increments the counter to zero and makes no attempt. */
  predicate Skips(s: State, step: Step) {
    EagerCreate(step) && !Attempts(step.kind, s.counter)
  }

  function Creations(r: Run, k: nat): nat
    requires k <= |r.steps|
  {
    if k == 0 then 0 else Creations(r, k - 1) + if EagerCreate(r.steps[k - 1]) then 1 else 0
  }

  function SkipCount(r: Run, a: nat, b: nat): nat
    requires a <= b <= |r.steps| < |r.states|
  {
    if a == b then 0 else SkipCount(r, a, b - 1) + if Skips(r.states[b - 1], r.steps[b - 1]) then 1 else 0
  }

  lemma CounterStep(s: State, step: Step)
    requires Enabled(s, step)
    ensures Apply(s, step).counter == if EagerCreate(step) then NextCounter(s.counter) else s.counter
  {
  }

  lemma {:induction false} CounterCounts(r: Run, k: nat)
    requires r.Valid() && k < |r.states|
    ensures r.states[k].counter == Creations(r, k) % 256
  {
    if k > 0 {
      CounterCounts(r, k - 1);
      assert r.StepAt(k - 1);
      CounterStep(r.states[k - 1], r.steps[k - 1]);
    }
  }

  lemma {:induction false} SkipsDivide(r: Run, a: nat, b: nat)
    requires r.Valid() && a <= b <= |r.steps|
    ensures SkipCount(r, a, b) == Creations(r, b) / 256 - Creations(r, a) / 256
    decreases b
  {
    if a < b {
      SkipsDivide(r, a, b - 1);
      CounterCounts(r, b - 1);
    }
  }

  /** Any stretch of a run that holds 256 eager creations holds exactly one
      that skips the attempt. */
  lemma FairnessExact(r: Run, a: nat, b: nat)
    requires r.Valid() && a <= b <= |r.steps| && Creations(r, b) == Creations(r, a) + 256
    ensures SkipCount(r, a, b) == 1
  {
    SkipsDivide(r, a, b);
  }

  /** A stretch in which every eager creation makes its attempt holds at most 255. */
  lemma AttemptsBound(r: Run, a: nat, b: nat)
    requires r.Valid() && a <= b <= |r.steps| && SkipCount(r, a, b) == 0
    ensures Creations(r, b) - Creations(r, a) <= 255
  {
    SkipsDivide(r, a, b);
  }

  // --- Chains of inline completions ---

  /** The eager creation at step `i` and the completion at step `c` of what it created. */
  ghost predicate Completes(r: Run, i: int, c: int) {
    0 <= i < c < |r.steps| && EagerCreate(r.steps[i]) && r.steps[c].Complete? && r.steps[c].o == r.steps[i].o
  }

  ghost predicate CompletedBefore(r: Run, i: int, k: int) {
    exists c :: Completes(r, i, c) && c < k
  }

  /** Creation steps of eager operations, each after the completion of the one
      before it: the completion of a link leads to the creation of the next. */
  ghost predicate Chain(r: Run, links: seq<nat>) {
    && (forall j :: 0 <= j < |links| ==> links[j] < |r.steps| && EagerCreate(r.steps[links[j]]))
    && (forall j :: 0 < j < |links| ==> CompletedBefore(r, links[j - 1], links[j]))
  }

  /** No link of the chain is cut off from completing inline. */
  ghost predicate NoLinkSkips(r: Run, links: seq<nat>)
    requires r.Valid() && Chain(r, links)
  {
    forall j :: 0 <= j < |links| ==> !Skips(r.states[links[j]], r.steps[links[j]])
  }

  /** No link of a chain skips its attempt if and only if no link is, among all
      eager creations of the run, one whose number is a multiple of 256. */
  lemma ChainExactly(r: Run, links: seq<nat>)
    requires r.Valid() && Chain(r, links)
    ensures NoLinkSkips(r, links) <==> forall j :: 0 <= j < |links| ==> Creations(r, links[j] + 1) % 256 != 0
  {
    forall j | 0 <= j < |links|
      ensures Skips(r.states[links[j]], r.steps[links[j]]) <==> Creations(r, links[j] + 1) % 256 == 0
    {
      CounterCounts(r, links[j]);
    }
  }

  lemma {:induction false} CreationsGrow(r: Run, a: nat, b: nat)
    requires a <= b <= |r.steps|
    ensures Creations(r, a) <= Creations(r, b)
    decreases b
  {
    if a < b { CreationsGrow(r, a, b - 1); }
  }

  lemma {:induction false} LinksCounted(r: Run, links: seq<nat>, j: nat)
    requires Chain(r, links) && j < |links|
    ensures links[0] <= links[j] && Creations(r, links[j] + 1) >= Creations(r, links[0]) + j + 1
    decreases j
  {
    if j > 0 {
      LinksCounted(r, links, j - 1);
      CreationsGrow(r, links[j - 1] + 1, links[j]);
    }
  }

  lemma {:induction false} NoSkips(r: Run, a: nat, b: nat)
    requires r.Valid() && a <= b <= |r.steps|
    requires forall i :: a <= i < b ==> !Skips(r.states[i], r.steps[i])
    ensures SkipCount(r, a, b) == 0
    decreases b
  {
    if a < b { NoSkips(r, a, b - 1); }
  }

  /** When nothing but the links is created eagerly along the chain, at most 255
      links in a row make their attempt. */
  lemma ChainBound(r: Run, links: seq<nat>)
    requires r.Valid() && Chain(r, links) && NoLinkSkips(r, links) && links != []
    requires forall i :: links[0] <= i <= links[|links| - 1] && EagerCreate(r.steps[i]) ==> i in links
    ensures |links| <= 255
  {
    LinksCounted(r, links, |links| - 1);
    OnlyLinks(r, links);
    AttemptsBound(r, links[0], links[|links| - 1] + 1);
  }

  lemma OnlyLinks(r: Run, links: seq<nat>)
    requires r.Valid() && Chain(r, links) && NoLinkSkips(r, links) && links != [] && links[0] <= links[|links| - 1]
    requires forall i :: links[0] <= i <= links[|links| - 1] && EagerCreate(r.steps[i]) ==> i in links
    ensures SkipCount(r, links[0], links[|links| - 1] + 1) == 0
  {
    forall i | links[0] <= i < links[|links| - 1] + 1 ensures !Skips(r.states[i], r.steps[i]) {
      if EagerCreate(r.steps[i]) { var j :| 0 <= j < |links| && links[j] == i; }
    }
    NoSkips(r, links[0], links[|links| - 1] + 1);
  }

  // --- The bound is lost when completions create other operations ---

  /** The steps of a link that succeeds at once: create, connect, start, complete. */
  ghost predicate InlineLink(r: Run, i: int) {
    && 0 <= i && i + 3 < |r.steps| && EagerCreate(r.steps[i])
    && r.steps[i + 1] == ConnectCheck(r.steps[i].o)
    && r.steps[i + 2] == StartCheck(r.steps[i].o)
    && r.steps[i + 3].Complete? && r.steps[i + 3].o == r.steps[i].o
  }

  /** Nothing pending, no error, `used` not yet taken. */
  ghost predicate Quiet(s: State, used: nat) {
    && s.fault.NoFault? && s.errors == map[] && s.released == {} && s.waiters == map[] && s.counter < 256
    && forall o :: o in s.ops ==> o < used && s.ops[o].phase != Attempted
  }

  /** The state between two links: besides, the counter is odd. */
  ghost predicate Between(s: State, used: nat) {
    Quiet(s, used) && s.counter % 2 == 1
  }

  const LINK := Op(Transfer(Read, true), Handle(0, 3), Eager, Const(0), None, Made)

  function EagerLink(o: OpId): Step {
    Create(o, Transfer(Read, true), Handle(0, 3), Success(0))
  }

  /** After a creation or a completion the thread may create. */
  ghost predicate AtCreation(r: Run) {
    r.steps != [] && (r.steps[|r.steps| - 1].Create? || r.steps[|r.steps| - 1].Complete?)
  }

  lemma EagerSuccess(s: State, o: OpId)
    requires Quiet(s, o)
    ensures Enabled(s, EagerLink(o))
    ensures var s' := Apply(s, EagerLink(o));
            && Quiet(s', o + 1) && s'.counter == NextCounter(s.counter) && s'.signals == s.signals
            && o in s'.ops && (s'.counter != 0 ==> s'.ops[o] == LINK)
  {
  }

  /** One eager creation that may skip its attempt. */
  lemma OneCreation(r: Run, used: nat) returns (r': Run)
    requires r.Valid() && Sequential(r) && Quiet(r.Last(), used) && AtCreation(r)
    ensures r'.Valid() && Sequential(r') && Quiet(r'.Last(), used + 1) && AtCreation(r')
    ensures r.states <= r'.states && r'.steps == r.steps + [EagerLink(used)]
    ensures r'.Last().counter == NextCounter(r.Last().counter) && r'.Last().signals == r.Last().signals
    ensures used in r'.Last().ops && (r'.Last().counter != 0 ==> r'.Last().ops[used] == LINK)
  {
    EagerSuccess(r.Last(), used);
    ThenSequential(r, EagerLink(used));
    r' := r.Then(EagerLink(used));
  }

  /** Two eager creations: the first takes the even count, the second succeeds. */
  lemma TwoCreations(r: Run, used: nat) returns (r': Run)
    requires r.Valid() && Sequential(r) && Between(r.Last(), used) && AtCreation(r)
    ensures r'.Valid() && Sequential(r') && Between(r'.Last(), used + 2)
    ensures r.states <= r'.states && r'.steps == r.steps + [EagerLink(used), EagerLink(used + 1)]
    ensures !Skips(r'.states[|r.steps| + 1], r'.steps[|r.steps| + 1])
    ensures used + 1 in r'.Last().ops && r'.Last().ops[used + 1] == LINK && r'.Last().signals == r.Last().signals
  {
    var r1 := OneCreation(r, used);
    r' := OneCreation(r1, used + 1);
    assert r'.states[|r.steps| + 1] == r1.Last();
  }

  /** The link connects, starts and completes with its value. */
  lemma RunInline(r: Run, c: OpId, used: nat) returns (r': Run)
    requires r.Valid() && Sequential(r) && Between(r.Last(), used) && c in r.Last().ops && r.Last().ops[c] == LINK
    requires r.steps != [] && r.steps[|r.steps| - 1].Create?
    ensures r'.Valid() && Sequential(r') && Between(r'.Last(), used) && AtCreation(r')
    ensures r.states <= r'.states && r'.steps == r.steps + [ConnectCheck(c), StartCheck(c), Complete(c, Success(0))]
    ensures r'.Last().signals == r.Last().signals + [Signal(c, Value(0))]
  {
    ThenSequential(r, ConnectCheck(c));
    var r1 := r.Then(ConnectCheck(c));
    ThenSequential(r1, StartCheck(c));
    var r2 := r1.Then(StartCheck(c));
    ThenSequential(r2, Complete(c, Success(0)));
    r' := r2.Then(Complete(c, Success(0)));
  }

  /** One more link, after the creation of one other eager operation. */
  lemma OneMoreLink(r: Run, used: nat) returns (r': Run)
    requires r.Valid() && Sequential(r) && Between(r.Last(), used) && AtCreation(r)
    ensures r'.Valid() && Sequential(r') && Between(r'.Last(), used + 2) && AtCreation(r')
    ensures r.states <= r'.states && r.steps <= r'.steps && |r'.steps| == |r.steps| + 5
    ensures InlineLink(r', |r.steps| + 1)
    ensures !Skips(r'.states[|r.steps| + 1], r'.steps[|r.steps| + 1])
    ensures r'.Last().signals == r.Last().signals + [Signal(used + 1, Value(0))]
  {
    var r1 := TwoCreations(r, used);
    r' := RunInline(r1, used + 1, used + 2);
  }

  /** On one thread, for every `n`: a chain of `n` operations that complete
      inline, one inside the completion of the other, none of which skips. Each
      completion first creates one other eager operation, and those absorb the
      skips. */
  lemma {:induction false} EndlessChain(n: nat) returns (r: Run, links: seq<nat>)
    ensures r.Valid() && Sequential(r) && |links| == n
    ensures Chain(r, links) && NoLinkSkips(r, links)
    ensures forall j :: 0 <= j < n ==> InlineLink(r, links[j])
    ensures |r.Last().signals| == n && forall j :: 0 <= j < n ==> r.Last().signals[j].outcome == Value(0)
  {
    var used: nat;
    r, links, used := ChainOf(n);
  }

  lemma {:induction false} ChainOf(n: nat) returns (r: Run, links: seq<nat>, used: nat)
    ensures r.Valid() && Sequential(r) && |links| == n && Between(r.Last(), used) && AtCreation(r)
    ensures Chain(r, links) && NoLinkSkips(r, links)
    ensures forall j :: 0 <= j < n ==> InlineLink(r, links[j])
    ensures |r.Last().signals| == n && forall j :: 0 <= j < n ==> r.Last().signals[j].outcome == Value(0)
  {
    if n == 0 {
      EagerSuccess(Init, 0);
      ThenSequential(NoSteps, EagerLink(0));
      r, links, used := NoSteps.Then(EagerLink(0)), [], 1;
    } else {
      var r0, links0, used0 := ChainOf(n - 1);
      r := OneMoreLink(r0, used0);
      links, used := links0 + [|r0.steps| + 1], used0 + 2;
      ExtendChain(r0, r, links0);
    }
  }

  lemma ExtendChain(r0: Run, r: Run, links0: seq<nat>)
    requires r0.Valid() && r.Valid() && Chain(r0, links0) && NoLinkSkips(r0, links0)
    requires forall j :: 0 <= j < |links0| ==> InlineLink(r0, links0[j])
    requires r0.states <= r.states && r0.steps <= r.steps && InlineLink(r, |r0.steps| + 1)
    requires !Skips(r.states[|r0.steps| + 1], r.steps[|r0.steps| + 1])
    ensures var links := links0 + [|r0.steps| + 1];
            Chain(r, links) && NoLinkSkips(r, links) && forall j :: 0 <= j < |links| ==> InlineLink(r, links[j])
  {
    var links := links0 + [|r0.steps| + 1];
    forall j | 0 < j < |links| ensures CompletedBefore(r, links[j - 1], links[j]) {
      if j < |links0| {
        assert CompletedBefore(r0, links0[j - 1], links0[j]);
        var c :| Completes(r0, links0[j - 1], c) && c < links0[j];
        assert Completes(r, links[j - 1], c);
      } else {
        assert InlineLink(r0, links0[j - 1]);
        assert Completes(r, links[j - 1], links0[j - 1] + 3);
      }
    }
    LinksExtend(r0, r, links0);
  }

  lemma LinksExtend(r0: Run, r: Run, links0: seq<nat>)
    requires r0.Valid() && r.Valid() && r0.states <= r.states && r0.steps <= r.steps
    requires forall j :: 0 <= j < |links0| ==> InlineLink(r0, links0[j])
    ensures forall j :: 0 <= j < |links0| ==> InlineLink(r, links0[j])
  {
    forall j | 0 <= j < |links0| ensures InlineLink(r, links0[j]) { assert InlineLink(r0, links0[j]); }
  }
}
