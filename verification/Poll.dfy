/** Vocabulary of the `poll` system call as the multiplexer uses it. An event
    mask is the set of its flags: `|` is union, `& ~m` is difference, and
    `x & m` is non-zero when the intersection is not empty. */
module Poll {

  datatype Flag = In | Out | Err | Hup | Nval

  datatype Direction = Read | Write

  datatype PollFd = PollFd(fd: int, events: set<Flag>, revents: set<Flag>)

  /** A socket handle object; its descriptor does not change while it is in use. */
  datatype Handle = Handle(id: nat, fd: int)

  datatype Option<+T> = None | Some(value: T)

  /** The interest flag of a direction. */
  function DirFlag(d: Direction): Flag {
    match d
    case Read => In
    case Write => Out
  }

  /** Which wait queues a reported event releases. */
  predicate Selects(revents: set<Flag>, d: Direction) {
    match d
    case Write => revents * {Out, Err, Nval} != {}
    case Read => revents * {In, Hup, Err, Nval} != {}
  }

  /** Which interest flags a reported event removes. */
  predicate Clears(revents: set<Flag>, d: Direction) {
    DirFlag(d) in revents || Err in revents || Nval in revents
  }

  /** A reported event that stores an error on the socket. */
  predicate Fatal(revents: set<Flag>) {
    revents * {Err, Nval} != {}
  }

  /** An interest flag is never removed without releasing the queue it stands for. */
  lemma ClearsImpliesSelects(revents: set<Flag>, d: Direction)
    requires Clears(revents, d)
    ensures Selects(revents, d)
  {
    match d
    case Write =>
      var f := if Out in revents then Out else if Err in revents then Err else Nval;
      assert f in revents * {Out, Err, Nval};
    case Read =>
      var f := if In in revents then In else if Err in revents then Err else Nval;
      assert f in revents * {In, Hup, Err, Nval};
  }

  /** A queue is released while its interest flag stays in one case: readers,
      by a hang-up that is reported without input and without a failure. */
  lemma SelectsWithoutClears(revents: set<Flag>, d: Direction)
    ensures Selects(revents, d) && !Clears(revents, d) <==>
            d == Read && Hup in revents && In !in revents && Err !in revents && Nval !in revents
  {
    assert Hup in revents ==> Hup in revents * {In, Hup, Err, Nval};
    assert forall f :: f in revents * {In, Hup, Err, Nval} || f in revents * {Out, Err, Nval} ==> f in revents;
  }
}
