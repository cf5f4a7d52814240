/** The intrusive circular task queue. Tasks are heap nodes linked through
    `next`; a sentinel closes the circle and holds the tail pointer. The ghost
    `owner` of a task is the one queue it is linked into, so that distinct
    queues share no node. */
module TaskQueue {

  /** Either the tail pointer of a queue's sentinel or the completion of a task. */
  datatype Tail<!T> = Last(task: Task?<T>) | Completion(op: T)

  class Task<!T> {
    var next: Task<T>
    var tail: Tail<T>
    ghost var owner: Queue?<T>

    constructor ()
      ensures next == this && tail == Last(null) && owner == null
    {
      next := this;
      tail := Last(null);
      owner := null;
    }
  }

  class Queue<!T> {
    const head: Task<T>
    ghost var contents: seq<Task<T>>

    ghost predicate Valid()
      reads this, head, contents
    {
      && head.owner == this
      && head !in contents
      && (forall i :: 0 <= i < |contents| ==> contents[i].owner == this)
      && (forall i, j :: 0 <= i < j < |contents| ==> contents[i] != contents[j])
      && Linked(contents)
    }

    /** The node at a position of `s`, with the sentinel before the front and after the back. */
    ghost function Node(s: seq<Task<T>>, i: int): Task<T> {
      if 0 <= i < |s| then s[i] else head
    }

    /** `next` follows `s` and returns to the sentinel; `tail` is the last node. */
    ghost predicate Linked(s: seq<Task<T>>)
      reads head, s
    {
      && head.tail == Last(Node(s, |s| - 1))
      && head.next == Node(s, 0)
      && (forall i :: 0 <= i < |s| ==> s[i].next == Node(s, i + 1))
    }

    /** The queue object, its sentinel and its tasks. */
    ghost function Nodes(): set<object>
      reads this
    {
      {this, head} + set t | t in contents
    }

    constructor ()
      ensures Valid() && contents == [] && fresh(head)
    {
      var h := new Task<T>();
      head := h;
      contents := [];
      new;
      h.owner := this;
      h.next := h;
      h.tail := Last(h);
    }

    predicate IsEmpty()
      requires Valid()
      reads this, head, contents
      ensures IsEmpty() <==> contents == []
    {
      head.tail.task == head
    }

    method Push(task: Task<T>)
      requires Valid() && task.owner == null
      modifies this`contents, head`next, head`tail, task`next, task`owner, (set t | t in contents)`next
      ensures Valid()
      ensures contents == old(contents) + [task]
    {
      task.next := head;
      var last := head.tail.task;
      last.next := task;
      head.tail := Last(task);
      task.owner := this;
      contents := contents + [task];
    }

    /** Removes the front task. On an empty queue it returns the sentinel and
        changes nothing. */
    method Pop() returns (task: Task<T>)
      requires Valid()
      modifies this`contents, head`next, head`tail, (set t | t in contents)`owner
      ensures Valid()
      ensures old(contents) == [] ==> task == head && contents == []
      ensures old(contents) != [] ==> task == old(contents)[0] && contents == old(contents)[1..] && task.owner == null
    {
      ghost var was := contents;
      assert was != [] ==> was[0].next == Node(was, 1);
      assert 1 < |was| ==> was[0] != was[|was| - 1];
      if head.tail.task == head.next {
        head.tail := Last(head);
      }
      task := head.next;
      head.next := head.next.next;
      if was != [] {
        task.owner := null;
        contents := was[1..];
        assert forall i :: 0 <= i < |contents| ==> contents[i] == was[i + 1];
      }
    }

    /** Moves every task of `other` behind the tasks of this queue. The source
        has no guard against `other` being this queue: that call drops all tasks. */
    method MoveBack(other: Queue<T>)
      requires Valid() && other.Valid()
      modifies Nodes(), other.Nodes()
      ensures Valid() && other.Valid()
      ensures other != this ==> contents == old(contents) + old(other.contents) && other.contents == []
      ensures other == this ==> contents == [] && forall t :: t in old(contents) ==> t.owner == null
      ensures forall t: Task<T> :: t in old(contents) || t in old(other.contents) ==> t.tail == old(t.tail)
    {
      if other != this {
        MoveBackOther(other);
      } else {
        MoveBackSelf();
      }
    }

    /** `move_back` on two queues. */
    method MoveBackOther(other: Queue<T>)
      requires Valid() && other.Valid() && other != this
      modifies this`contents, head`next, head`tail, (set t | t in contents)`next,
               other`contents, other.head`next, other.head`tail, (set t | t in other.contents)`next,
               (set t | t in other.contents)`owner
      ensures Valid() && other.Valid()
      ensures contents == old(contents) + old(other.contents) && other.contents == []
    {
      if !other.IsEmpty() {
        Splice(other);
        Adopt(other, contents, other.contents);
      }
    }

    /** The pointer writes: both circles become one, and the other is closed. */
    method Splice(other: Queue<T>)
      requires Valid() && other.Valid() && other != this && other.contents != []
      modifies head`next, head`tail, (set t | t in contents)`next,
               other.head`next, other.head`tail, (set t | t in other.contents)`next
      ensures Linked(contents + other.contents) && other.Linked([])
    {
      ghost var a, b := contents, other.contents;
      var last, otherLast := head.tail.task, other.head.tail.task;
      assert last == Node(a, |a| - 1) && last.next == head && last.owner == this;
      assert otherLast == b[|b| - 1] && otherLast.owner == other;
      otherLast.next := last.next;
      last.next := other.head.next;
      head.tail := other.head.tail;

      other.head.tail := Last(other.head);
      other.head.next := other.head;
      SplicedLinks(other, a, b);
    }

    /** The same statements when both queues are this one. */
    method MoveBackSelf()
      requires Valid()
      modifies this`contents, head`next, head`tail, (set t | t in contents)`next, (set t | t in contents)`owner
      ensures Valid() && contents == [] && forall t :: t in old(contents) ==> t.owner == null
    {
      if !IsEmpty() {
        head.tail.task.next := head.tail.task.next;
        head.tail.task.next := head.next;
        head.tail := head.tail;

        head.tail := Last(head);
        head.next := head;
        Drop();
      }
    }

    /** The pointer writes of `MoveBack` join the two circles into one. */
    lemma SplicedLinks(other: Queue<T>, a: seq<Task<T>>, b: seq<Task<T>>)
      requires b != []
      requires head.tail == Last(b[|b| - 1])
      requires head.next == if a == [] then b[0] else a[0]
      requires forall i :: 0 <= i < |a| ==> a[i].next == if i == |a| - 1 then b[0] else Node(a, i + 1)
      requires forall i :: 0 <= i < |b| ==> b[i].next == if i == |b| - 1 then head else other.Node(b, i + 1)
      ensures Linked(a + b)
    {
    }

    ghost method Adopt(other: Queue<T>, a: seq<Task<T>>, b: seq<Task<T>>)
      requires other != this && contents == a && other.contents == b
      requires head.owner == this && other.head.owner == other
      requires forall i :: 0 <= i < |a| ==> a[i].owner == this
      requires forall i :: 0 <= i < |b| ==> b[i].owner == other
      requires forall i, j :: 0 <= i < j < |a| ==> a[i] != a[j]
      requires forall i, j :: 0 <= i < j < |b| ==> b[i] != b[j]
      requires head !in a && other.head !in b
      requires Linked(a + b) && other.Linked([])
      modifies this`contents, other`contents, (set t | t in b)`owner
      ensures Valid() && other.Valid()
      ensures contents == a + b && other.contents == []
    {
      forall t | t in b {
        t.owner := this;
      }
      contents := a + b;
      other.contents := [];
    }

    ghost method Drop()
      requires head.owner == this && head !in contents
      requires Linked([])
      modifies this`contents, (set t | t in contents)`owner
      ensures Valid() && contents == [] && forall t :: t in old(contents) ==> t.owner == null
    {
      forall t | t in contents {
        t.owner := null;
      }
      contents := [];
    }
  }

  /** Distinct queues share no object. */
  lemma QueuesApart<T>(q: Queue<T>, other: Queue<T>)
    requires q.Valid() && other.Valid() && q != other
    ensures q.Nodes() !! other.Nodes()
  {
  }

  lemma FreeTask<T>(q: Queue<T>, t: Task<T>)
    requires q.Valid() && t.owner == null
    ensures t !in q.Nodes()
  {
  }
}
