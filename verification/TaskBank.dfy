/** Any number of linked queues under any program of pushes, pops and moves: at
    every moment each queue is the sequence that the value semantics gives it. */
module TaskBank {
  import opened Sequences
  import opened TaskQueue

  type Lists = seq<seq<Task<nat>>>

  datatype Action =
    | Append(q: nat, task: Task<nat>)
    | RemoveFront(q: nat)
    | MoveAll(to: nat, source: nat)

  /** A task is pushed only when no queue holds it. */
  ghost predicate Applicable(s: Lists, a: Action) {
    match a
    case Append(q, t) => q < |s| && forall i :: 0 <= i < |s| ==> t !in s[i]
    case RemoveFront(q) => q < |s|
    case MoveAll(to, source) => to < |s| && source < |s|
  }

  /** The value semantics of the queue operations. Moving a queue onto itself
      drops its tasks. */
  function Applied(s: Lists, a: Action): Lists
    requires Applicable(s, a)
  {
    match a
    case Append(q, t) => s[q := s[q] + [t]]
    case RemoveFront(q) => if s[q] == [] then s else s[q := s[q][1..]]
    case MoveAll(to, source) => if to == source then s[to := []] else s[to := s[to] + s[source]][source := []]
  }

  /** The task that an action takes from the front of a queue, if any. */
  function Taken(s: Lists, a: Action): seq<Task<nat>>
    requires Applicable(s, a)
  {
    if a.RemoveFront? && s[a.q] != [] then [s[a.q][0]] else []
  }

  /** What each queue holds after an action, and what the action takes. */
  lemma AppliedContents(s: Lists, a: Action)
    requires Applicable(s, a)
    ensures var s' := Applied(s, a);
            |s'| == |s| &&
            match a
            case Append(q, t) => s'[q] == s[q] + [t] && Same(s, s', {q}) && Taken(s, a) == []
            case RemoveFront(q) => Taken(s, a) + s'[q] == s[q] && Same(s, s', {q}) &&
                                   (s[q] != [] ==> |Taken(s, a)| == 1)
            case MoveAll(to, source) =>
              && s'[source] == [] && (to != source ==> s'[to] == s[to] + s[source])
              && Same(s, s', {to, source}) && Taken(s, a) == []
  {
  }

  predicate Same(s: Lists, s': Lists, but: set<nat>) {
    |s| == |s'| && forall k: nat :: k < |s| && k !in but ==> s'[k] == s[k]
  }

  ghost predicate Playable(s: Lists, program: seq<Action>)
    decreases |program|
  {
    program == [] || (Applicable(s, program[0]) && Playable(Applied(s, program[0]), program[1..]))
  }

  ghost function Played(s: Lists, program: seq<Action>): Lists
    requires Playable(s, program)
    decreases |program|
  {
    if program == [] then s else Played(Applied(s, program[0]), program[1..])
  }

  /** The tasks that a program pops, in order. */
  ghost function TakenBy(s: Lists, program: seq<Action>): seq<Task<nat>>
    requires Playable(s, program)
    decreases |program|
  {
    if program == [] then [] else Taken(s, program[0]) + TakenBy(Applied(s, program[0]), program[1..])
  }

  lemma MovedLists(s: Lists, s': Lists, i: nat, j: nat)
    requires |s| == |s'| && i < |s| && j < |s| && i != j
    requires s'[i] == s[i] + s[j] && s'[j] == [] && forall k :: 0 <= k < |s| && k != i && k != j ==> s'[k] == s[k]
    ensures s' == s[i := s[i] + s[j]][j := []]
  {
  }

  /** Some queue holds the task. */
  ghost predicate Listed(s: Lists, t: Task<nat>) {
    exists i :: 0 <= i < |s| && t in s[i]
  }

  ghost predicate ListedIn(s: Lists, bound: set<Task<nat>>) {
    forall i, t :: 0 <= i < |s| && t in s[i] ==> t in bound
  }

  /** Which tasks an action takes out of the queues, and which it puts in. */
  lemma AppliedListed(s: Lists, a: Action, t: Task<nat>)
    requires Applicable(s, a)
    ensures Listed(Applied(s, a), t) ==> Listed(s, t) || (a.Append? && t == a.task)
    ensures Listed(s, t) ==>
              || Listed(Applied(s, a), t)
              || (a.RemoveFront? && s[a.q] != [] && t == s[a.q][0])
              || (a.MoveAll? && a.to == a.source && t in s[a.to])
  {
    var s' := Applied(s, a);
    if i :| 0 <= i < |s'| && t in s'[i] {
      if a.MoveAll? && a.to != a.source && i == a.to && t !in s[i] { assert t in s[a.source]; }
      else if !(a.Append? && t == a.task) { assert t in s[i]; }
    }
    if i :| 0 <= i < |s| && t in s[i] {
      if a.MoveAll? && i == a.source && i != a.to { assert t in s'[a.to]; }
      else if !(a.RemoveFront? && i == a.q && t == s[i][0]) && !(a.MoveAll? && a.to == a.source && i == a.to) {
        assert t in s'[i];
      }
    }
  }

  class Bank {
    const queues: seq<Queue<nat>>

    /** Every task that is in a queue. */
    ghost function Tasks(): set<Task<nat>>
      reads queues
    {
      set q, t | q in queues && t in q.contents :: t
    }

    ghost function Heads(): set<Task<nat>> {
      set q | q in queues :: q.head
    }

    ghost predicate Valid()
      reads queues, Heads(), Tasks()
    {
      && (forall i :: 0 <= i < |queues| ==>
          (assert forall t :: t in queues[i].contents ==> t in Tasks(); queues[i].Valid()))
      && (forall i, j :: 0 <= i < j < |queues| ==> queues[i] != queues[j])
    }

    ghost function View(): (s: Lists)
      reads queues
      ensures |s| == |queues| && forall i :: 0 <= i < |s| ==> s[i] == queues[i].contents
    {
      seq(|queues|, i requires 0 <= i < |queues| reads queues => queues[i].contents)
    }

    /** Tasks that are in no queue are free. */
    ghost predicate Placed(tasks: set<Task<nat>>)
      reads queues, tasks
    {
      forall t :: t in tasks ==> t.owner == null || Listed(View(), t)
    }

    constructor (queues: seq<Queue<nat>>)
      requires forall i :: 0 <= i < |queues| ==> queues[i].Valid()
      requires forall i, j :: 0 <= i < j < |queues| ==> queues[i] != queues[j]
      ensures Valid() && this.queues == queues
    {
      this.queues := queues;
    }

    /** No task is a sentinel. */
    lemma HeadApart(i: nat, k: nat)
      requires Valid() && i < |queues| && k < |queues|
      ensures queues[i].head !in queues[k].contents
    {
      assert queues[i].Valid() && queues[k].Valid();
    }

    lemma Owned(t: Task<nat>)
      requires Valid() && t in Heads() + Tasks()
      ensures t.owner != null && t.owner in queues
    {
      var q :| q in queues && (t == q.head || t in q.contents);
      var i :| 0 <= i < |queues| && queues[i] == q;
      assert queues[i].Valid();
    }

    lemma FreeOfAll(t: Task<nat>)
      requires Valid() && t.owner == null
      ensures forall j :: 0 <= j < |queues| ==> t !in queues[j].Nodes()
    {
      forall j | 0 <= j < |queues| ensures t !in queues[j].Nodes() {
        FreeTask(queues[j], t);
      }
    }

    /** Appends to one queue; every other queue is left as it is. */
    method PushAt(i: nat, t: Task<nat>)
      requires Valid() && i < |queues| && t.owner == null
      modifies {queues[i]}`contents, queues[i].head`next, queues[i].head`tail, t`next, t`owner,
               (set x | x in queues[i].contents)`next
      ensures Valid() && queues[i].contents == old(queues[i].contents) + [t]
      ensures forall k :: 0 <= k < |queues| && k != i ==> queues[k].contents == old(queues[k].contents)
    {
      forall k | 0 <= k < |queues| && k != i ensures queues[k].Nodes() !! queues[i].Nodes() + {t} {
        QueuesApart(queues[k], queues[i]);
        FreeTask(queues[k], t);
      }
      queues[i].Push(t);
    }

    /** Removes the front of one queue; every other queue is left as it is. */
    method PopAt(i: nat) returns (t: Task<nat>)
      requires Valid() && i < |queues|
      modifies queues[i].Nodes()
      ensures Valid()
      ensures queues[i].contents == if old(queues[i].contents) == [] then [] else old(queues[i].contents)[1..]
      ensures old(queues[i].contents) != [] ==> t == old(queues[i].contents)[0] && t.owner == null
      ensures forall k :: 0 <= k < |queues| && k != i ==> queues[k].contents == old(queues[k].contents)
    {
      forall k | 0 <= k < |queues| && k != i ensures queues[k].Nodes() !! queues[i].Nodes() {
        QueuesApart(queues[k], queues[i]);
      }
      t := queues[i].Pop();
    }

    lemma PairApart(i: nat, j: nat, k: nat)
      requires Valid() && i < |queues| && j < |queues| && k < |queues| && k != i && k != j
      ensures queues[k].Nodes() !! queues[i].Nodes() + queues[j].Nodes()
    {
      QueuesApart(queues[k], queues[i]);
      QueuesApart(queues[k], queues[j]);
    }

    /** Moves one queue behind another; every third queue is left as it is. */
    method MoveOnto(i: nat, j: nat)
      requires Valid() && i < |queues| && j < |queues| && i != j
      modifies queues[i].Nodes(), queues[j].Nodes()
      ensures Valid()
      ensures queues[i].contents == old(queues[i].contents + queues[j].contents) && queues[j].contents == []
      ensures forall k :: 0 <= k < |queues| && k != i && k != j ==> queues[k].contents == old(queues[k].contents)
    {
      forall k | 0 <= k < |queues| && k != i && k != j
        ensures queues[k].Nodes() !! queues[i].Nodes() + queues[j].Nodes()
      {
        PairApart(i, j, k);
      }
      queues[i].MoveBack(queues[j]);
    }

    /** The same call with one queue: its tasks are dropped. */
    method MoveSelf(i: nat)
      requires Valid() && i < |queues|
      modifies queues[i].Nodes()
      ensures Valid() && queues[i].contents == []
      ensures forall t :: t in old(queues[i].contents) ==> t.owner == null
      ensures forall k :: 0 <= k < |queues| && k != i ==> queues[k].contents == old(queues[k].contents)
    {
      forall k | 0 <= k < |queues| && k != i ensures queues[k].Nodes() !! queues[i].Nodes() {
        QueuesApart(queues[k], queues[i]);
      }
      queues[i].MoveBack(queues[i]);
    }

    method PerformAppend(a: Action, ghost tasks: set<Task<nat>>)
      requires Valid() && Applicable(View(), a) && a.Append? && a.task in tasks && Placed(tasks)
      modifies queues, Heads(), Tasks(), tasks
      ensures Valid() && View() == Applied(old(View()), a) && Placed(tasks)
    {
      forall t | t in tasks { AppliedListed(View(), a, t); }
      PushAt(a.q, a.task);
    }

    method PerformRemove(a: Action, ghost tasks: set<Task<nat>>) returns (taken: seq<Task<nat>>)
      requires Valid() && Applicable(View(), a) && a.RemoveFront? && Placed(tasks)
      modifies queues, Heads(), Tasks(), tasks
      ensures Valid() && View() == Applied(old(View()), a) && Placed(tasks)
      ensures taken == Taken(old(View()), a)
    {
      ghost var before, next := View(), Applied(View(), a);
      forall t | t in tasks
        ensures Listed(before, t) ==> Listed(next, t) || (before[a.q] != [] && t == before[a.q][0])
      {
        AppliedListed(before, a, t);
      }
      forall t | t in tasks && t.owner == null ensures t !in queues[a.q].Nodes() { FreeOfAll(t); }
      var empty := queues[a.q].IsEmpty();
      var t := PopAt(a.q);
      taken := if empty then [] else [t];
      assert View() == next;
    }

    method PerformDrop(a: Action, ghost tasks: set<Task<nat>>)
      requires Valid() && Applicable(View(), a) && a.MoveAll? && a.to == a.source && Placed(tasks)
      modifies queues, Heads(), Tasks(), tasks
      ensures Valid() && View() == Applied(old(View()), a) && Placed(tasks)
    {
      forall t | t in tasks ensures Listed(View(), t) ==> Listed(Applied(View(), a), t) || t in queues[a.to].contents {
        AppliedListed(View(), a, t);
      }
      forall t | t in tasks && t.owner == null ensures t !in queues[a.to].Nodes() { FreeOfAll(t); }
      MoveSelf(a.to);
    }

    method PerformMove(a: Action, ghost tasks: set<Task<nat>>)
      requires Valid() && Applicable(View(), a) && a.MoveAll? && a.to != a.source && Placed(tasks)
      modifies queues, Heads(), Tasks(), tasks
      ensures Valid() && View() == Applied(old(View()), a) && Placed(tasks)
    {
      ghost var before, next := View(), Applied(View(), a);
      forall t | t in tasks ensures Listed(before, t) ==> Listed(next, t) { AppliedListed(before, a, t); }
      forall t | t in tasks && t.owner == null
        ensures t !in queues[a.to].Nodes() && t !in queues[a.source].Nodes()
      {
        FreeOfAll(t);
      }
      MoveOnto(a.to, a.source);
      MovedLists(before, View(), a.to, a.source);
    }

    /** One action of a program. `tasks` are the tasks it may push. */
    method Perform(a: Action, ghost tasks: set<Task<nat>>) returns (taken: seq<Task<nat>>)
      requires Valid() && Applicable(View(), a) && (a.Append? ==> a.task in tasks) && Placed(tasks)
      modifies queues, Heads(), Tasks(), tasks
      ensures Valid() && View() == Applied(old(View()), a) && Placed(tasks)
      ensures taken == Taken(old(View()), a)
    {
      taken := [];
      if a.Append? {
        PerformAppend(a, tasks);
      } else if a.RemoveFront? {
        taken := PerformRemove(a, tasks);
      } else if a.to == a.source {
        PerformDrop(a, tasks);
      } else {
        PerformMove(a, tasks);
      }
    }

    lemma TasksAreListed()
      ensures forall t :: t in Tasks() <==> Listed(View(), t)
    {
      forall t | t in Tasks() ensures Listed(View(), t) {
        var q :| q in queues && t in q.contents;
        var i :| 0 <= i < |queues| && queues[i] == q;
        assert t in View()[i];
      }
    }

    lemma WithinBound(a: Action, bound: set<Task<nat>>)
      requires Applicable(View(), a) && ListedIn(View(), bound) && (a.Append? ==> a.task in bound)
      ensures Tasks() <= bound && ListedIn(Applied(View(), a), bound)
    {
      TasksAreListed();
      forall i, t | 0 <= i < |View()| && t in Applied(View(), a)[i] ensures t in bound {
        assert Listed(Applied(View(), a), t);
        AppliedListed(View(), a, t);
      }
    }

    /** Any program over any number of queues: every queue is, throughout, the
        sequence that the value semantics gives it, and so is what is popped. */
    method Play(program: seq<Action>, ghost tasks: set<Task<nat>>) returns (taken: seq<Task<nat>>)
      requires Valid() && Playable(View(), program)
      requires forall a :: a in program && a.Append? ==> a.task in tasks
      requires Placed(tasks)
      modifies queues, Heads(), Tasks(), tasks
      ensures Valid() && View() == Played(old(View()), program)
      ensures taken == TakenBy(old(View()), program)
    {
      ghost var bound := Tasks() + tasks;
      TasksAreListed();
      taken := [];
      for k := 0 to |program|
        invariant Valid() && ListedIn(View(), bound) && Placed(tasks)
        invariant Playable(View(), program[k..])
        invariant Played(View(), program[k..]) == old(Played(View(), program))
        invariant taken + TakenBy(View(), program[k..]) == old(TakenBy(View(), program))
      {
        assert program[k..][0] == program[k] && program[k..][1..] == program[k + 1..];
        WithinBound(program[k], bound);
        ghost var rest := TakenBy(Applied(View(), program[k]), program[k + 1..]);
        var more := Perform(program[k], tasks);
        Rejoin(taken, more, rest, old(TakenBy(View(), program)));
        taken := taken + more;
      }
    }
  }
}
