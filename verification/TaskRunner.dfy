/** Draining a linked queue while completions run. A completion may destroy its
    own operation and may queue new ones on any number of other queues; the
    drain still executes exactly the tasks it started with. */
module TaskRunner {
  import opened Sequences
  import opened TaskQueue
  import opened TaskBank

  /** What the tasks of each queue hold. */
  type Holdings = seq<seq<Tail<nat>>>

  /** A new operation and the queue it is started on. */
  datatype Spawn = Spawn(q: nat, op: nat)

  ghost predicate Runnable(s: seq<Task<nat>>)
    reads s
  {
    forall i :: 0 <= i < |s| ==> s[i].tail.Completion?
  }

  /** The completions assigned to tasks. */
  ghost function Completions(s: seq<Task<nat>>): (ops: seq<nat>)
    requires Runnable(s)
    reads s
    ensures |ops| == |s| && forall i :: 0 <= i < |s| ==> ops[i] == s[i].tail.op
  {
    seq(|s|, i requires 0 <= i < |s| && Runnable(s) reads s => s[i].tail.op)
  }

  lemma CompletionsFront(s: seq<Task<nat>>)
    requires Runnable(s) && s != []
    ensures Runnable(s[1..]) && [s[0].tail.op] + Completions(s[1..]) == Completions(s)
  {
    assert forall i :: 1 <= i < |s| ==> s[1..][i - 1] == s[i];
  }

  /** What the tasks of a queue hold, in order. */
  ghost function Held(s: seq<Task<nat>>): (r: seq<Tail<nat>>)
    reads s
    ensures |r| == |s| && forall i :: 0 <= i < |s| ==> r[i] == s[i].tail
  {
    seq(|s|, i requires 0 <= i < |s| reads s => s[i].tail)
  }

  /** The same for every queue. */
  ghost function AllHeld(s: Lists): (r: Holdings)
    reads *
    ensures |r| == |s| && forall k :: 0 <= k < |s| ==> r[k] == Held(s[k])
  {
    if s == [] then [] else AllHeld(s[..|s| - 1]) + [Held(s[|s| - 1])]
  }

  /** A queue has exactly these tasks, holding these values. */
  ghost predicate Matches(q: Queue<nat>, list: seq<Task<nat>>, held: seq<Tail<nat>>)
    reads q, list
  {
    q.contents == list && Held(list) == held
  }

  /** The operations of a script that are started on one queue, in order. */
  function SentTo(script: seq<Spawn>, q: nat): seq<Tail<nat>> {
    if script == [] then []
    else
      var n := |script| - 1;
      SentTo(script[..n], q) + if script[n].q == q then [Completion(script[n].op)] else []
  }

  lemma SentToOne(s: Spawn, q: nat)
    ensures SentTo([s], q) == if s.q == q then [Completion(s.op)] else []
  {
    assert [s][..0] == [];
  }

  lemma {:induction false} SentToConcat(a: seq<Spawn>, b: seq<Spawn>, q: nat)
    ensures SentTo(a + b, q) == SentTo(a, q) + SentTo(b, q)
    decreases |b|
  {
    if b == [] {
      assert a + b == a;
    } else {
      var n := |b| - 1;
      assert (a + b)[..|a| + n] == a + b[..n];
      SentToConcat(a, b[..n], q);
    }
  }

  lemma JoinedNext(scripts: seq<seq<Spawn>>, n: nat)
    requires n < |scripts|
    ensures Joined(scripts[..n + 1]) == Joined(scripts[..n]) + scripts[n]
  {
    assert scripts[..n + 1][..n] == scripts[..n];
  }

  ghost predicate Targets(script: seq<Spawn>, n: nat) {
    forall i :: 0 <= i < |script| ==> script[i].q < n
  }

  /** Each queue got the operations of a script behind what it held. */
  ghost predicate Grown(was: Holdings, now: Holdings, script: seq<Spawn>) {
    |was| == |now| && forall k :: 0 <= k < |was| ==> now[k] == was[k] + SentTo(script, k)
  }

  /** Tasks that were in a queue keep their places. */
  ghost predicate Kept(was: Lists, now: Lists) {
    |was| == |now| && forall k :: 0 <= k < |was| ==> was[k] <= now[k]
  }

  lemma GrownTwice(a: Holdings, b: Holdings, c: Holdings, first: seq<Spawn>, second: seq<Spawn>)
    requires Grown(a, b, first) && Grown(b, c, second)
    ensures Grown(a, c, first + second)
  {
    forall k | 0 <= k < |a| ensures c[k] == a[k] + SentTo(first + second, k) {
      SentToConcat(first, second, k);
    }
  }

  /** What queues hold: their tasks, what each task holds, and all nodes. */
  datatype Record = Record(lists: Lists, held: Holdings, tasks: set<Task<nat>>)

  /** One more operation on one queue. */
  function Added(r: Record, s: Spawn, t: Task<nat>): Record
    requires s.q < |r.lists| && s.q < |r.held|
  {
    Record(r.lists[s.q := r.lists[s.q] + [t]], r.held[s.q := r.held[s.q] + [Completion(s.op)]], r.tasks + {t})
  }

  ghost predicate Covered(bank: Bank, r: Record, k: nat)
    requires k < |bank.queues| && k < |r.lists|
  {
    bank.queues[k].head in r.tasks && forall t :: t in r.lists[k] ==> t in r.tasks
  }

  ghost predicate Recorded(bank: Bank, r: Record, k: nat)
    requires k < |bank.queues| && k < |r.lists| && k < |r.held|
    reads bank.queues, r.tasks
  {
    Covered(bank, r, k) && Matches(bank.queues[k], r.lists[k], r.held[k])
  }

  /** The first `n` queues are well formed, distinct and recorded. */
  ghost predicate Records(bank: Bank, r: Record, n: nat)
    requires n <= |bank.queues| && n <= |r.lists| && n <= |r.held|
    reads bank.queues, r.tasks
  {
    n == 0 || (
      && Records(bank, r, n - 1) && Recorded(bank, r, n - 1)
      && bank.queues[n - 1].Valid() && bank.queues[n - 1] !in bank.queues[..n - 1])
  }

  /** The record is that of the queues of a bank. */
  ghost predicate Fits(bank: Bank, r: Record)
    reads bank.queues, r.tasks
  {
    && |r.lists| == |r.held| == |bank.queues|
    && (forall t :: t in r.tasks ==> t.owner != null && t.owner in bank.queues)
    && Records(bank, r, |bank.queues|)
  }

  ghost function FirstRecord(bank: Bank): Record
    reads *
  {
    Record(bank.View(), AllHeld(bank.View()), bank.Tasks() + bank.Heads())
  }

  lemma FirstFits(bank: Bank)
    requires bank.Valid()
    ensures Fits(bank, FirstRecord(bank))
  {
    var r := FirstRecord(bank);
    forall k | 0 <= k < |bank.queues| ensures Recorded(bank, r, k) { assert bank.queues[k] in bank.queues; }
    RecordsAll(bank, r, |bank.queues|);
    forall t | t in r.tasks ensures t.owner != null && t.owner in bank.queues { bank.Owned(t); }
  }

  lemma {:induction false} RecordsAt(bank: Bank, r: Record, n: nat, k: nat)
    requires n <= |bank.queues| && n <= |r.lists| && n <= |r.held| && Records(bank, r, n) && k < n
    ensures Recorded(bank, r, k) && bank.queues[k].Valid() && bank.queues[k] !in bank.queues[..k]
  {
    if k < n - 1 { RecordsAt(bank, r, n - 1, k); }
  }

  lemma {:induction false} RecordsAll(bank: Bank, r: Record, n: nat)
    requires n <= |bank.queues| && n <= |r.lists| && n <= |r.held| && bank.Valid()
    requires forall k :: 0 <= k < n ==> Recorded(bank, r, k)
    ensures Records(bank, r, n)
  {
    if n > 0 { RecordsAll(bank, r, n - 1); }
  }

  /** What a record says is what the queues hold. */
  lemma FitsAt(bank: Bank, r: Record)
    requires Fits(bank, r)
    ensures bank.Valid() && forall k :: 0 <= k < |bank.queues| ==> Covered(bank, r, k)
    ensures forall k :: 0 <= k < |bank.queues| ==> Matches(bank.queues[k], r.lists[k], r.held[k])
  {
    forall k | 0 <= k < |bank.queues|
      ensures Recorded(bank, r, k) && bank.queues[k].Valid()
      ensures forall i :: 0 <= i < k ==> bank.queues[i] != bank.queues[k]
    {
      RecordsAt(bank, r, |bank.queues|, k);
    }
  }

  /** After a push the record with one more operation fits. */
  lemma AddedFits(bank: Bank, r: Record, s: Spawn, t: Task<nat>)
    requires bank.Valid() && |r.lists| == |r.held| == |bank.queues| && s.q < |bank.queues|
    requires forall x :: x in r.tasks + {t} ==> x.owner != null && x.owner in bank.queues
    requires forall k :: 0 <= k < |bank.queues| ==> Covered(bank, r, k)
    requires Matches(bank.queues[s.q], r.lists[s.q] + [t], r.held[s.q] + [Completion(s.op)])
    requires forall k :: 0 <= k < |bank.queues| && k != s.q ==> Matches(bank.queues[k], r.lists[k], r.held[k])
    ensures Fits(bank, Added(r, s, t))
  {
    AddedRecorded(bank, r, s, t);
    RecordsAll(bank, Added(r, s, t), |bank.queues|);
  }

  lemma AddedRecorded(bank: Bank, r: Record, s: Spawn, t: Task<nat>)
    requires |r.lists| == |r.held| == |bank.queues| && s.q < |bank.queues|
    requires forall k :: 0 <= k < |bank.queues| ==> Covered(bank, r, k)
    requires Matches(bank.queues[s.q], r.lists[s.q] + [t], r.held[s.q] + [Completion(s.op)])
    requires forall k :: 0 <= k < |bank.queues| && k != s.q ==> Matches(bank.queues[k], r.lists[k], r.held[k])
    ensures forall k :: 0 <= k < |bank.queues| ==> Recorded(bank, Added(r, s, t), k)
  {
    forall k | 0 <= k < |bank.queues| ensures Recorded(bank, Added(r, s, t), k) {
      assert Covered(bank, r, k);
    }
  }

  lemma AddedGrows(r: Record, s: Spawn, t: Task<nat>)
    requires s.q < |r.lists| == |r.held|
    ensures Kept(r.lists, Added(r, s, t).lists) && Grown(r.held, Added(r, s, t).held, [s])
  {
  }

  /** The queues in which operations wait, with the record of what they hold. */
  class Backlog {
    const bank: Bank
    ghost var record: Record

    ghost predicate Valid()
      reads this, bank.queues, record.tasks
    {
      Fits(bank, record)
    }

    /** What the record says is what the queues hold. */
    lemma Exact()
      requires Valid()
      ensures bank.Valid() && record.lists == bank.View() && record.held == AllHeld(bank.View())
    {
      FitsAt(bank, record);
    }

    /** Another queue shares no task with these. */
    lemma Apart(q: Queue<nat>)
      requires Valid() && q.Valid() && q !in bank.queues
      ensures q.head !in record.tasks && forall t :: t in q.contents ==> t !in record.tasks
    {
    }

    constructor (bank: Bank)
      requires bank.Valid()
      ensures Valid() && this.bank == bank && record == FirstRecord(bank)
    {
      FirstFits(bank);
      this.bank := bank;
      record := FirstRecord(bank);
    }

    /** A new operation with its completion. */
    static method Fresh(op: nat) returns (t: Task<nat>)
      ensures fresh(t) && t.owner == null && t.tail == Completion(op)
    {
      t := new Task<nat>();
      t.tail := Completion(op);
    }

    /** It goes behind those of one queue. */
    static method Submit(bank: Bank, s: Spawn, t: Task<nat>, ghost r: Record)
      requires bank.Valid() && s.q < |bank.queues| && |r.lists| == |r.held| == |bank.queues|
      requires t.owner == null && t.tail == Completion(s.op)
      requires forall k :: 0 <= k < |bank.queues| ==> Matches(bank.queues[k], r.lists[k], r.held[k])
      modifies {bank.queues[s.q]}`contents, bank.queues[s.q].head`next, bank.queues[s.q].head`tail, t`next, t`owner,
               (set x | x in bank.queues[s.q].contents)`next
      ensures bank.Valid() && t.owner == bank.queues[s.q]
      ensures Matches(bank.queues[s.q], r.lists[s.q] + [t], r.held[s.q] + [Completion(s.op)])
      ensures forall k :: 0 <= k < |bank.queues| && k != s.q ==> Matches(bank.queues[k], r.lists[k], r.held[k])
    {
      forall k | 0 <= k < |bank.queues| ensures bank.queues[s.q].head !in r.lists[k] {
        bank.HeadApart(s.q, k);
      }
      FreeTask(bank.queues[s.q], t);
      bank.PushAt(s.q, t);
    }

    /** The same, from one record to the next. */
    static method Place(bank: Bank, s: Spawn, t: Task<nat>, ghost r: Record)
      requires Fits(bank, r) && s.q < |bank.queues| && t.owner == null && t.tail == Completion(s.op)
      modifies bank.queues, r.tasks, t
      ensures Fits(bank, Added(r, s, t))
    {
      FitsAt(bank, r);
      assert Covered(bank, r, s.q);
      Submit(bank, s, t, r);
      AddedFits(bank, r, s, t);
    }

    /** One new operation starts waiting. Tasks already waiting keep their place
        and their completion. */
    method Start(s: Spawn)
      requires Valid() && s.q < |bank.queues|
      modifies this, bank.queues, record.tasks
      ensures Valid() && fresh(record.tasks - old(record.tasks))
      ensures Kept(old(record.lists), record.lists) && Grown(old(record.held), record.held, [s])
    {
      var t := Fresh(s.op);
      Place(bank, s, t, record);
      AddedGrows(record, s, t);
      record := Added(record, s, t);
    }

    /** The next operation of a script. */
    method StartNext(script: seq<Spawn>, n: nat, ghost was: Holdings)
      requires Valid() && Targets(script, |bank.queues|) && n < |script|
      requires Grown(was, record.held, script[..n])
      modifies this, bank.queues, record.tasks
      ensures Valid() && fresh(record.tasks - old(record.tasks))
      ensures Kept(old(record.lists), record.lists) && Grown(was, record.held, script[..n + 1])
    {
      assert script[..n + 1] == script[..n] + [script[n]];
      Start(script[n]);
      GrownTwice(was, old(record.held), record.held, script[..n], [script[n]]);
    }

    /** What a completion starts. */
    method StartAll(script: seq<Spawn>)
      requires Valid() && Targets(script, |bank.queues|)
      modifies this, bank.queues, record.tasks
      ensures Valid() && fresh(record.tasks - old(record.tasks))
      ensures Kept(old(record.lists), record.lists) && Grown(old(record.held), record.held, script)
    {
      for n := 0 to |script|
        invariant Valid() && fresh(record.tasks - old(record.tasks))
        invariant Kept(old(record.lists), record.lists) && Grown(old(record.held), record.held, script[..n])
      {
        StartNext(script, n, old(record.held));
      }
      assert script[..|script|] == script;
    }
  }

  class Runner {
    var log: seq<nat>

    constructor ()
      ensures log == []
    {
      log := [];
    }

    /** `task::execute` on a task that left its queue. The completion destroys
        the task, so that nothing can be read from it afterwards, and starts
        new operations on any of the queues. */
    method Execute(task: Task<nat>, garbage: Task<nat>, backlog: Backlog, script: seq<Spawn>)
      requires task.tail.Completion? && task.owner == null && backlog.Valid() && Targets(script, |backlog.bank.queues|)
      modifies this, task, backlog, backlog.bank.queues, backlog.record.tasks
      ensures log == old(log) + [old(task.tail.op)]
      ensures backlog.Valid() && fresh(backlog.record.tasks - old(backlog.record.tasks))
      ensures Kept(old(backlog.record.lists), backlog.record.lists) &&
              Grown(old(backlog.record.held), backlog.record.held, script)
    {
      log := log + [task.tail.op];
      task.next, task.tail := garbage, Last(garbage);
      backlog.StartAll(script);
    }

    /** A removal takes no completion from a task. */
    static method PopFront(ready: Queue<nat>) returns (task: Task<nat>)
      requires ready.Valid() && ready.contents != []
      modifies ready`contents, ready.head`next, ready.head`tail, (set t | t in ready.contents)`owner
      ensures ready.Valid() && ready.contents == old(ready.contents)[1..]
      ensures task == old(ready.contents)[0] && task.owner == null
      ensures forall i :: 0 <= i < |old(ready.contents)| ==> old(ready.contents)[i].tail == old(ready.contents[i].tail)
    {
      task := ready.Pop();
    }

    /** The front task with its completion, and the queue without it. */
    method PopRunnable(ready: Queue<nat>) returns (task: Task<nat>)
      requires ready.Valid() && Runnable(ready.contents) && ready.contents != []
      modifies ready`contents, ready.head`next, ready.head`tail, (set t | t in ready.contents)`owner
      ensures ready.Valid() && Runnable(ready.contents) && ready.contents == old(ready.contents)[1..]
      ensures task == old(ready.contents)[0] && task.owner == null && task.tail.Completion?
      ensures [task.tail.op] + Completions(ready.contents) == old(Completions(ready.contents))
    {
      ghost var was := ready.contents;
      task := PopFront(ready);
      CompletionsFront(was);
    }

    /** The other queues stay as they are. */
    method Take(ready: Queue<nat>, ghost backlog: Backlog) returns (task: Task<nat>)
      requires ready.Valid() && backlog.Valid() && ready !in backlog.bank.queues
      requires Runnable(ready.contents) && ready.contents != []
      modifies ready`contents, ready.head`next, ready.head`tail, (set t | t in ready.contents)`owner
      ensures ready.Valid() && Runnable(ready.contents) && |ready.contents| == |old(ready.contents)| - 1
      ensures ready.Nodes() <= old(ready.Nodes()) && task in old(ready.Nodes())
      ensures backlog.Valid() && task.owner == null && task.tail.Completion?
      ensures [task.tail.op] + Completions(ready.contents) == old(Completions(ready.contents))
    {
      backlog.Apart(ready);
      task := PopRunnable(ready);
    }

    /** The execution leaves the rest of the ready queue alone. */
    method RunOne(ghost ready: Queue<nat>, task: Task<nat>, garbage: Task<nat>, backlog: Backlog, script: seq<Spawn>)
      requires ready.Valid() && backlog.Valid() && ready !in backlog.bank.queues && Runnable(ready.contents)
      requires task.owner == null && task.tail.Completion? && Targets(script, |backlog.bank.queues|)
      modifies this, task, backlog, backlog.bank.queues, backlog.record.tasks
      ensures ready.Valid() && ready.contents == old(ready.contents) && Runnable(ready.contents)
      ensures Completions(ready.contents) == old(Completions(ready.contents))
      ensures log == old(log) + [old(task.tail.op)]
      ensures backlog.Valid() && fresh(backlog.record.tasks - old(backlog.record.tasks))
      ensures Kept(old(backlog.record.lists), backlog.record.lists) &&
              Grown(old(backlog.record.held), backlog.record.held, script)
    {
      FreeTask(ready, task);
      Execute(task, garbage, backlog, script);
    }

    /** One iteration: pop, then execute. What has been executed and what is
        still to be executed make up the same sequence before and after. */
    method Step(ready: Queue<nat>, garbage: Task<nat>, backlog: Backlog, script: seq<Spawn>, ghost all: seq<nat>)
      requires ready.Valid() && backlog.Valid() && ready !in backlog.bank.queues &&
               Targets(script, |backlog.bank.queues|)
      requires Runnable(ready.contents) && ready.contents != [] && log + Completions(ready.contents) == all
      modifies this, ready.Nodes(), backlog, backlog.bank.queues, backlog.record.tasks
      ensures ready.Valid() && Runnable(ready.contents)
      ensures |ready.contents| == |old(ready.contents)| - 1 && ready.Nodes() <= old(ready.Nodes())
      ensures log + Completions(ready.contents) == all
      ensures backlog.Valid() && fresh(backlog.record.tasks - old(backlog.record.tasks))
      ensures Kept(old(backlog.record.lists), backlog.record.lists) &&
              Grown(old(backlog.record.held), backlog.record.held, script)
    {
      var task := Take(ready, backlog);
      Rejoin(log, [task.tail.op], Completions(ready.contents), all);
      RunOne(ready, task, garbage, backlog, script);
    }

    /** The next iteration of a drain. */
    method Next(ready: Queue<nat>, garbage: Task<nat>, backlog: Backlog, scripts: seq<seq<Spawn>>, n: nat,
                ghost all: seq<nat>, ghost was: Holdings)
      requires ready.Valid() && backlog.Valid() && ready !in backlog.bank.queues
      requires n < |scripts| && Targets(scripts[n], |backlog.bank.queues|)
      requires Runnable(ready.contents) && ready.contents != [] && log + Completions(ready.contents) == all
      requires Grown(was, backlog.record.held, Joined(scripts[..n]))
      modifies this, ready.Nodes(), backlog, backlog.bank.queues, backlog.record.tasks
      ensures ready.Valid() && Runnable(ready.contents)
      ensures |ready.contents| == |old(ready.contents)| - 1 && ready.Nodes() <= old(ready.Nodes())
      ensures log + Completions(ready.contents) == all
      ensures backlog.Valid() && fresh(backlog.record.tasks - old(backlog.record.tasks))
      ensures Kept(old(backlog.record.lists), backlog.record.lists) &&
              Grown(was, backlog.record.held, Joined(scripts[..n + 1]))
    {
      JoinedNext(scripts, n);
      Step(ready, garbage, backlog, scripts[n], all);
      GrownTwice(was, old(backlog.record.held), backlog.record.held, Joined(scripts[..n]), scripts[n]);
    }

    /** The loop, with the record of the other queues. */
    method Drain(ready: Queue<nat>, garbage: Task<nat>, backlog: Backlog, scripts: seq<seq<Spawn>>)
      requires ready.Valid() && backlog.Valid() && ready !in backlog.bank.queues && Runnable(ready.contents)
      requires |scripts| == |ready.contents|
      requires forall i :: 0 <= i < |scripts| ==> Targets(scripts[i], |backlog.bank.queues|)
      modifies this, ready.Nodes(), backlog, backlog.bank.queues, backlog.record.tasks
      ensures ready.Valid() && backlog.Valid() && ready.contents == []
      ensures log == old(log) + old(Completions(ready.contents))
      ensures Kept(old(backlog.record.lists), backlog.record.lists) &&
              Grown(old(backlog.record.held), backlog.record.held, Joined(scripts))
    {
      ghost var all := log + Completions(ready.contents);
      var n := 0;
      while !ready.IsEmpty()
        invariant ready.Valid() && backlog.Valid() && Runnable(ready.contents)
        invariant 0 <= n && n + |ready.contents| == |scripts| && ready.Nodes() <= old(ready.Nodes())
        invariant fresh(backlog.record.tasks - old(backlog.record.tasks))
        invariant log + Completions(ready.contents) == all
        invariant Kept(old(backlog.record.lists), backlog.record.lists)
        invariant Grown(old(backlog.record.held), backlog.record.held, Joined(scripts[..n]))
        decreases |ready.contents|
      {
        Next(ready, garbage, backlog, scripts, n, all, old(backlog.record.held));
        n := n + 1;
      }
      assert scripts[..n] == scripts;
    }

    /** `run_queue`: terminates, and executes the tasks that were in the queue,
        in order, whatever the completions queue elsewhere; and what they queue
        is behind what was waiting, in order, on every other queue. */
    method RunQueue(ready: Queue<nat>, garbage: Task<nat>, bank: Bank, scripts: seq<seq<Spawn>>)
      requires ready.Valid() && bank.Valid() && ready !in bank.queues && Runnable(ready.contents)
      requires |scripts| == |ready.contents| && forall i :: 0 <= i < |scripts| ==> Targets(scripts[i], |bank.queues|)
      modifies this, ready.Nodes(), bank.queues, bank.Heads(), bank.Tasks()
      ensures ready.Valid() && bank.Valid() && ready.contents == []
      ensures log == old(log) + old(Completions(ready.contents))
      ensures Kept(old(bank.View()), bank.View())
      ensures Grown(old(AllHeld(bank.View())), AllHeld(bank.View()), Joined(scripts))
    {
      var backlog := new Backlog(bank);
      Drain(ready, garbage, backlog, scripts);
      backlog.Exact();
    }
  }
}
