/** How often an operation takes effect, and whether its receiver learns of it. */
module Effects {
  import opened Poll
  import opened Protocol
  import opened Conservation
  import opened Wakeup
  import opened LoopExit

  ghost predicate HasEffect(s: State, o: OpId, v: int) {
    exists i :: 0 <= i < |s.effects| && s.effects[i] == Effect(o, v)
  }

  /** An operation's own record explains the effects it had. */
  ghost predicate Explained(s: State, e: Effect) {
    e.op in s.ops && var op := s.ops[e.op];
    (op.func == Const(e.v) && op.trigger.Eager?) || (op.func == Deferred && op.phase == Done)
  }

  ghost predicate EffectsHold(s: State) {
    && (forall i, j :: 0 <= i < j < |s.effects| ==> s.effects[i].op != s.effects[j].op)
    && (forall i :: 0 <= i < |s.effects| ==> Explained(s, s.effects[i]))
    && (forall o :: o in s.ops && s.ops[o].func.Const? && !s.ops[o].kind.Dial? ==> HasEffect(s, o, s.ops[o].func.v))
    && (forall i :: 0 <= i < |s.signals| && s.signals[i].outcome.Value? ==>
          s.signals[i].op in s.ops &&
          (s.ops[s.signals[i].op].kind.Dial? || HasEffect(s, s.signals[i].op, s.signals[i].outcome.v)))
    && (forall o :: HasPhase(s, o, Attempted) ==> s.ops[o].func == Deferred)
  }

  lemma HasEffectGrows(s: State, s': State, o: OpId, v: int)
    requires HasEffect(s, o, v) && s.effects <= s'.effects
    ensures HasEffect(s', o, v)
  {
  }

  /** Steps that have no effect of their own and signal nothing. */
  lemma EffectsFrame(s: State, s': State)
    requires EffectsHold(s) && s'.effects == s.effects && s'.signals == s.signals
    requires forall o :: o in s.ops ==> o in s'.ops && Later(s.ops[o], s'.ops[o])
    requires forall o :: o in s'.ops ==>
               (o in s.ops && (s.ops[o].func == s'.ops[o].func || s'.ops[o].func == Empty)) ||
               s'.ops[o].func == Deferred ||
               (s'.ops[o].func.Const? && s'.ops[o].kind.Dial?)
    requires forall o :: HasPhase(s', o, Attempted) ==> s'.ops[o].func == Deferred
    ensures EffectsHold(s')
  {
    forall i | 0 <= i < |s'.effects| ensures Explained(s', s'.effects[i]) {
      assert Explained(s, s.effects[i]);
    }
    forall o | o in s'.ops && s'.ops[o].func.Const? && !s'.ops[o].kind.Dial?
      ensures HasEffect(s', o, s'.ops[o].func.v)
    {
      assert HasEffect(s, o, s.ops[o].func.v);
      HasEffectGrows(s, s', o, s.ops[o].func.v);
    }
    forall i | 0 <= i < |s'.signals| && s'.signals[i].outcome.Value?
      ensures s'.signals[i].op in s'.ops
      ensures s'.ops[s'.signals[i].op].kind.Dial? || HasEffect(s', s'.signals[i].op, s'.signals[i].outcome.v)
    {
      if !s.ops[s.signals[i].op].kind.Dial? { HasEffectGrows(s, s', s.signals[i].op, s.signals[i].outcome.v); }
    }
  }

  /** Steps that record the effect of one operation that had none. */
  lemma EffectsAppend(s: State, s': State, o: OpId, v: int)
    requires EffectsHold(s) && s'.effects == s.effects + [Effect(o, v)]
    requires OnlyOp(s, s', o) && Explained(s', Effect(o, v)) && s'.ops[o].phase != Attempted
    requires o in s.ops ==> s.ops[o].func == Deferred && s.ops[o].phase != Done && s.ops[o].kind == s'.ops[o].kind
    requires s'.signals == s.signals || s'.signals == s.signals + [Signal(o, Value(v))]
    requires forall i :: 0 <= i < |s.signals| ==> s.signals[i].op in s.ops
    ensures EffectsHold(s')
  {
    var n := |s.effects|;
    assert s'.effects[n] == Effect(o, v);
    forall i | 0 <= i < n ensures s.effects[i].op != o && Explained(s', s'.effects[i]) {
      assert Explained(s, s.effects[i]);
    }
    forall x | x in s'.ops && s'.ops[x].func.Const? && !s'.ops[x].kind.Dial?
      ensures HasEffect(s', x, s'.ops[x].func.v)
    {
      if x != o {
        assert HasEffect(s, x, s.ops[x].func.v);
        HasEffectGrows(s, s', x, s.ops[x].func.v);
      }
    }
    forall i | 0 <= i < |s'.signals| && s'.signals[i].outcome.Value?
      ensures s'.signals[i].op in s'.ops
      ensures s'.ops[s'.signals[i].op].kind.Dial? || HasEffect(s', s'.signals[i].op, s'.signals[i].outcome.v)
    {
      if i < |s.signals| && !s.ops[s.signals[i].op].kind.Dial? {
        HasEffectGrows(s, s', s.signals[i].op, s.signals[i].outcome.v);
      }
    }
  }

  /** Completions that signal without a new effect. */
  lemma EffectsSignal(s: State, s': State, o: OpId, out: Outcome)
    requires EffectsHold(s) && s'.effects == s.effects && s'.signals == s.signals + [Signal(o, out)]
    requires o in s.ops && OnlyOp(s, s', o) && s'.ops[o] == s.ops[o].(phase := Done)
    requires out.Value? ==> s.ops[o].func == Const(out.v)
    ensures EffectsHold(s')
  {
  }

  lemma EffectsCreate(s: State, step: Step)
    requires EffectsHold(s) && SignalsHold(s) && Enabled(s, step) && step.Create?
    ensures EffectsHold(Apply(s, step))
  {
    var s', o := Apply(s, step), step.o;
    SignalledExist(s);
    if Attempts(step.kind, s.counter) && step.result.Success? {
      CreatedEffect(s, o, step.kind, step.h, step.result);
      EffectsAppend(s, s', o, step.result.v);
    } else {
      CreatedWithout(s, o, step.kind, step.h, step.result);
      EffectsFrame(s, s');
    }
  }

  lemma CreatedEffect(s: State, o: OpId, kind: Kind, h: Handle, r: SysResult)
    requires o !in s.ops && Attempts(kind, s.counter) && r.Success?
    ensures var s' := ApplyCreate(s, o, kind, h, r);
            && OnlyOp(s, s', o) && Explained(s', Effect(o, r.v)) && s'.ops[o].phase == Made
            && s'.effects == s.effects + [Effect(o, r.v)] && s'.signals == s.signals
  {
  }

  lemma CreatedWithout(s: State, o: OpId, kind: Kind, h: Handle, r: SysResult)
    requires o !in s.ops && !(Attempts(kind, s.counter) && r.Success?)
    ensures var s' := ApplyCreate(s, o, kind, h, r);
            && OnlyOp(s, s', o) && s'.effects == s.effects && s'.signals == s.signals
            && (s'.ops[o].func == Deferred ||
                (s'.ops[o].func.Const? && kind.Dial? && s'.ops[o].kind == kind && s'.ops[o].phase == Made))
  {
  }

  lemma SignalledExist(s: State)
    requires SignalsHold(s)
    ensures forall i :: 0 <= i < |s.signals| ==> s.signals[i].op in s.ops
  {
  }

  lemma EffectsComplete(s: State, step: Step)
    requires EffectsHold(s) && SignalsHold(s) && Enabled(s, step) && step.Complete? && Apply(s, step).fault.NoFault?
    ensures EffectsHold(Apply(s, step))
  {
    var s', o, op := Apply(s, step), step.o, s.ops[step.o];
    SignalledExist(s);
    if !Failing(ErrorOf(s, op.handle)) && op.func == Deferred && step.result.Success? {
      EffectsAppend(s, s', o, step.result.v);
    } else {
      var error := ErrorOf(s, op.handle);
      var out :=
        if Failing(error) then Error(error) else if op.func.Const? then Value(op.func.v) else Error(step.result.errno);
      EffectsSignal(s, s', o, out);
    }
  }

  /** The remaining steps change at most an operation's phase, trigger or pointer. */
  lemma FuncFrame(s: State, step: Step)
    requires Enabled(s, step) && !step.Create? && !step.Complete? && Apply(s, step).fault.NoFault?
    ensures var s' := Apply(s, step);
            && s'.effects == s.effects && s'.signals == s.signals && s'.ops.Keys == s.ops.Keys
            && (forall o :: o in s.ops ==> s.ops[o].func == s'.ops[o].func || s'.ops[o].func == Empty)
            && (forall o :: HasPhase(s', o, Attempted) ==> s'.ops[o] == s.ops[o])
  {
    LogsFrame(s, step);
    if step.DispatchEvents? {
      DispatchShape(s, step);
    } else {
      StepChangesOneOp(s, step);
      if OpOf(s, step).Some? { FuncFrameOp(s, step, OpOf(s, step).value); }
    }
  }

  lemma LogsFrame(s: State, step: Step)
    requires Enabled(s, step) && !step.Create? && !step.Complete?
    ensures Apply(s, step).effects == s.effects && Apply(s, step).signals == s.signals
  {
  }

  lemma FuncFrameOp(s: State, step: Step, o: OpId)
    requires Enabled(s, step) && OpOf(s, step) == Some(o) && !step.Create? && !step.Complete? &&
             Apply(s, step).fault.NoFault?
    ensures var s' := Apply(s, step);
            o in s.ops && o in s'.ops && s'.ops[o].phase != Attempted &&
            (s.ops[o].func == s'.ops[o].func || s'.ops[o].func == Empty)
  {
  }

  lemma EffectsStep(s: State, step: Step)
    requires Inv(s) && EffectsHold(s) && Enabled(s, step)
    ensures EffectsHold(Apply(s, step))
  {
    var s' := Apply(s, step);
    if !s'.fault.NoFault? {
      FaultChangesNothing(s, step);
      forall o | o in s.ops ensures Later(s.ops[o], s'.ops[o]) {}
      EffectsFrame(s, s');
    } else if step.Create? {
      EffectsCreate(s, step);
    } else if step.Complete? {
      EffectsComplete(s, step);
    } else {
      FuncFrame(s, step);
      forall o | o in s.ops ensures o in s'.ops && Later(s.ops[o], s'.ops[o]) {
        LaterStep(s, step, o);
      }
      EffectsFrame(s, s');
    }
  }

  lemma {:induction false} EffectsReachable(r: Run, k: nat)
    requires r.Valid() && k < |r.states|
    ensures EffectsHold(r.states[k])
  {
    if k > 0 {
      EffectsReachable(r, k - 1);
      assert r.StepAt(k - 1);
      Reachable(r, k - 1);
      EffectsStep(r.states[k - 1], r.steps[k - 1]);
    }
  }

  function EffectCount(effects: seq<Effect>, o: OpId): nat {
    if effects == [] then 0 else (if effects[0].op == o then 1 else 0) + EffectCount(effects[1..], o)
  }

  lemma {:induction false} EffectCountOne(effects: seq<Effect>, o: OpId)
    requires forall i, j :: 0 <= i < j < |effects| ==> effects[i].op != effects[j].op
    ensures EffectCount(effects, o) <= 1
    ensures EffectCount(effects, o) == 1 <==> exists i :: 0 <= i < |effects| && effects[i].op == o
  {
    if effects != [] {
      EffectCountOne(effects[1..], o);
      if i :| 0 <= i < |effects[1..]| && effects[1..][i].op == o {
        assert effects[i + 1].op == o;
      }
      if i :| 0 <= i < |effects| && effects[i].op == o {
        if i > 0 { assert effects[1..][i - 1].op == o; }
      }
    }
  }

  /** Over the whole life of an operation, eager attempt included, at most one
      system call succeeds on its behalf; and when the receiver of a transfer
      gets a value, exactly one did, and it returned that value. */
  lemma AtMostOneEffect(r: Run, k: nat, o: OpId, v: int)
    requires r.Valid() && k < |r.states|
    ensures EffectCount(r.states[k].effects, o) <= 1
    ensures o in r.states[k].ops && !r.states[k].ops[o].kind.Dial? && Signal(o, Value(v)) in r.states[k].signals ==>
              EffectCount(r.states[k].effects, o) == 1 && Effect(o, v) in r.states[k].effects
    ensures forall u :: Effect(o, v) in r.states[k].effects && Effect(o, u) in r.states[k].effects ==> u == v
  {
    var s := r.states[k];
    EffectsReachable(r, k);
    EffectCountOne(s.effects, o);
    if o in s.ops && !s.ops[o].kind.Dial? && Signal(o, Value(v)) in s.signals {
      var i :| 0 <= i < |s.signals| && s.signals[i] == Signal(o, Value(v));
      assert HasEffect(s, o, v);
    }
  }

  /** Whether the receiver learns of the effect: an operation that completes
      after a call succeeded on its behalf delivers its value if and only if the
      error it reads from its handle at that moment is not failing. */
  lemma EffectDelivered(r: Run, k: nat, o: OpId, v: int)
    requires r.Valid() && k < |r.steps| && r.steps[k].Complete? && r.steps[k].o == o
    requires Effect(o, v) in r.states[k + 1].effects
    ensures o in r.states[k].ops
    ensures var error := ErrorOf(r.states[k], r.states[k].ops[o].handle);
            r.states[k + 1].signals ==
              r.states[k].signals + [Signal(o, if Failing(error) then Error(error) else Value(v))]
  {
    assert r.StepAt(k);
    EffectsReachable(r, k);
    var s := r.states[k];
    if Effect(o, v) in s.effects {
      var i :| 0 <= i < |s.effects| && s.effects[i] == Effect(o, v);
      assert Explained(s, s.effects[i]);
    }
  }

  /** An effect can be lost, on one thread: a receive that succeeded at once
      reports the error that a send on the same handle stored before its start. */
  lemma LostEffectRun() returns (r: Run)
    ensures r.Valid() && Sequential(r) && Effect(0, 5) in r.Last().effects
    ensures r.Last().signals == [Signal(0, Error(104))]
  {
    var h := Handle(0, 3);
    var received, failed := Create(0, Transfer(Read, true), h, Success(5)),
                            Create(1, Transfer(Write, true), h, Failure(104));
    r := NoSteps;
    ThenSequential(r, received); r := r.Then(received);
    ThenSequential(r, failed); r := r.Then(failed);
    ThenSequential(r, Classify(1)); r := r.Then(Classify(1));
    assert r.Last().errors == map[h := 104] && r.Last().signals == [] && r.Last().effects == [Effect(0, 5)];
    assert r.Last().ops[0] == Op(Transfer(Read, true), h, Eager, Const(5), None, Made);
    r := LostEffect(r, h);
  }

  /** From there to the completion of the receive. */
  lemma LostEffect(r: Run, h: Handle) returns (r': Run)
    requires r.Valid() && Sequential(r) && r.Last().fault.NoFault? && r.steps != [] && r.steps[|r.steps| - 1].Classify?
    requires 0 in r.Last().ops && r.Last().ops[0].phase == Made && r.Last().ops[0].handle == h
    requires r.Last().errors == map[h := 104] && r.Last().signals == []
    ensures r'.Valid() && Sequential(r') && r'.Last().effects == r.Last().effects
    ensures r'.Last().signals == [Signal(0, Error(104))]
  {
    ThenSequential(r, ConnectCheck(0)); r' := r.Then(ConnectCheck(0));
    assert r'.Last() == InPhase(r.Last(), 0, Connected);
    ThenSequential(r', StartCheck(0)); r' := r'.Then(StartCheck(0));
    assert HasPhase(r'.Last(), 0, Running) && r'.Last().signals == [];
    ThenSequential(r', Complete(0, Success(0))); r' := r'.Then(Complete(0, Success(0)));
  }
}
