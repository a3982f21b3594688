/**
  * The accept loop and the handler threads of the two socket servers as a step machine. Both keep the
  * handler threads in a map under raw descriptors and join a thread only in a pass at the head of the
  * accept loop, when its handler has reported itself as finished. Assigning to an entry that has not been
  * joined ends the process. Connections are numbered; a descriptor is what the kernel hands out, and may
  * be handed out again as soon as it is closed.
  */
module Acceptor {
  import opened Common

  type Conn = nat

  /** How far a connection has come. */
  datatype Phase =
    | Accepted    // accept has returned its descriptor
    | Listed      // its descriptor is in the list of clients
    | Serving     // its handler runs
    | Closed      // its handler has closed the descriptor
    | Removed     // its handler has removed the descriptor from the list
    | Finished    // its handler has reported itself as finished
    | Abandoned   // its handler has closed the descriptor and returned without any of that
    | Joined      // the thread of its handler has been joined

  datatype Link = Link(fd: int, phase: Phase)

  /** Where the accept thread is. */
  datatype Place =
    | Sweeping                    // at the head of the loop
    | Joining(todo: set<int>)     // joining the threads that had been reported
    | Waiting                     // in accept
    | Registering(conn: Conn)
    | Spawning(conn: Conn)
    | Assigning(conn: Conn)       // the handler's thread has been started, but is not yet in the map
    | Left                        // accept has failed, and the loop was left
    | Terminated                  // the process has ended

  datatype State = State(
    conns: map<Conn, Link>,
    list: seq<int>,               // the descriptors that broadcasts go to
    threads: map<int, Conn>,      // the handler threads by descriptor
    finished: set<int>,           // the descriptors of handlers that have finished
    place: Place,
    stillListed: set<Conn>,       // connections given a descriptor that was still in the list
    unjoined: set<Conn>)          // connections given a descriptor that was still in the map

  datatype Step =
    | Sweep
    | Join(fd: int)
    | Wait
    | Accept(conn: Conn, fd: int)
    | AcceptFails
    | Register
    | Spawn
    | Assign
    | Close(conn: Conn)
    | Remove(conn: Conn)
    | Finish(conn: Conn)
    | Abandon(conn: Conn)

  const Init := State(map[], [], map[], {}, Sweeping, {}, {})

  predicate In(s: State, c: Conn, phase: Phase) {
    c in s.conns && s.conns[c].phase == phase
  }

  /** The kernel has an open socket under the descriptor of this connection. */
  predicate Open(s: State, c: Conn) {
    c in s.conns && (s.conns[c].phase.Accepted? || s.conns[c].phase.Listed? || s.conns[c].phase.Serving?)
  }

  /** Its descriptor has been entered, and its handler has not removed it. */
  predicate Registered(s: State, c: Conn) {
    c in s.conns && (s.conns[c].phase.Listed? || s.conns[c].phase.Serving? || s.conns[c].phase.Closed? || s.conns[c].phase.Abandoned?)
  }

  /** Its handler has been started and not joined. */
  predicate Spawned(s: State, c: Conn) {
    c in s.conns && !s.conns[c].phase.Accepted? && !s.conns[c].phase.Listed? && !s.conns[c].phase.Joined?
  }

  /** Joining waits for the thread; all the kernel promises of a new descriptor is that no open socket has it. */
  ghost predicate Enabled(s: State, step: Step) {
    !s.place.Terminated? &&
    match step
    case Sweep => s.place.Sweeping?
    case Join(fd) => s.place.Joining? && fd in s.place.todo && (fd in s.threads ==> In(s, s.threads[fd], Finished))
    case Wait => s.place == Joining({})
    case Accept(c, fd) => s.place.Waiting? && c !in s.conns && forall o :: Open(s, o) ==> s.conns[o].fd != fd
    case AcceptFails => s.place.Waiting?
    case Register => s.place.Registering? && s.place.conn in s.conns
    case Spawn => s.place.Spawning? && s.place.conn in s.conns
    case Assign => s.place.Assigning? && s.place.conn in s.conns
    case Close(c) => In(s, c, Serving)
    case Remove(c) => In(s, c, Closed)
    case Finish(c) => In(s, c, Removed)
    case Abandon(c) => In(s, c, Serving)
  }

  function Move(s: State, c: Conn, phase: Phase): map<Conn, Link>
    requires c in s.conns
  {
    s.conns[c := s.conns[c].(phase := phase)]
  }

  /** Joining an entry of the map and erasing it. */
  function Reap(s: State, fd: int): State
    requires s.place.Joining?
  {
    var place := Joining(s.place.todo - {fd});
    if fd in s.threads && s.threads[fd] in s.conns
    then s.(place := place, conns := Move(s, s.threads[fd], Joined), threads := s.threads - {fd})
    else s.(place := place)
  }

  function Admit(s: State, c: Conn, fd: int): State {
    s.(conns := s.conns[c := Link(fd, Accepted)], place := Registering(c),
       stillListed := s.stillListed + (if fd in s.list then {c} else {}),
       unjoined := s.unjoined + (if fd in s.threads then {c} else {}))
  }

  function Enter(s: State, c: Conn): State
    requires c in s.conns
  {
    s.(conns := Move(s, c, Listed), list := s.list + [s.conns[c].fd], place := Spawning(c))
  }

  /** The assignment to the map: over a thread that has not been joined it ends the process. */
  function Store(s: State, c: Conn): State
    requires c in s.conns
  {
    if s.conns[c].fd in s.threads then s.(place := Terminated)
    else s.(threads := s.threads[s.conns[c].fd := c], place := Sweeping)
  }

  function Depart(s: State, c: Conn): State
    requires c in s.conns
  {
    s.(conns := Move(s, c, Removed), list := Without(s.list, s.conns[c].fd))
  }

  function Report(s: State, c: Conn): State
    requires c in s.conns
  {
    s.(conns := Move(s, c, Finished), finished := s.finished + {s.conns[c].fd})
  }

  ghost function Next(s: State, step: Step): State
    requires Enabled(s, step)
  {
    match step
    case Sweep => s.(place := Joining(s.finished), finished := {})
    case Join(fd) => Reap(s, fd)
    case Wait => s.(place := Waiting)
    case Accept(c, fd) => Admit(s, c, fd)
    case AcceptFails => s.(place := Left)
    case Register => Enter(s, s.place.conn)
    case Spawn => s.(conns := Move(s, s.place.conn, Serving), place := Assigning(s.place.conn))
    case Assign => Store(s, s.place.conn)
    case Close(c) => s.(conns := Move(s, c, Closed))
    case Remove(c) => Depart(s, c)
    case Finish(c) => Report(s, c)
    case Abandon(c) => s.(conns := Move(s, c, Abandoned))
  }

  ghost predicate Possible(s: State, steps: seq<Step>)
    decreases |steps|
  {
    steps == [] || (Enabled(s, steps[0]) && Possible(Next(s, steps[0]), steps[1..]))
  }

  ghost function After(s: State, steps: seq<Step>): State
    requires Possible(s, steps)
    decreases |steps|
  {
    if steps == [] then s else After(Next(s, steps[0]), steps[1..])
  }

  // ---- invariants ----

  /** The accept thread has been given a connection whose handler it has not yet stored. */
  predicate Underway(s: State) {
    s.place.Registering? || s.place.Spawning? || s.place.Assigning?
  }

  predicate AtWork(s: State, c: Conn) {
    Underway(s) && s.place.conn == c
  }

  ghost predicate Kernel(s: State) {
    forall a, b :: Open(s, a) && Open(s, b) && s.conns[a].fd == s.conns[b].fd ==> a == b
  }

  /** Whom the accept thread is dealing with. */
  ghost predicate Desk(s: State) {
    && (Underway(s) ==> s.place.conn in s.conns && forall fd :: fd in s.threads ==> s.threads[fd] != s.place.conn)
    && (s.place.Assigning? ==> Spawned(s, s.place.conn))
    && (forall c :: In(s, c, Accepted) <==> s.place == Registering(c))
    && (forall c :: In(s, c, Listed) <==> s.place == Spawning(c))
  }

  ghost predicate Mapped(s: State, c: Conn)
    requires c in s.conns
  {
    s.conns[c].fd in s.threads && s.threads[s.conns[c].fd] == c
  }

  /** The map holds exactly the handlers that have been started and not joined. */
  ghost predicate Threads(s: State) {
    && (forall fd :: fd in s.threads ==> Spawned(s, s.threads[fd]) && s.conns[s.threads[fd]].fd == fd)
    && (forall c :: Spawned(s, c) ==> Mapped(s, c) || s.place == Assigning(c))
  }

  /** Every reported descriptor is that of a finished handler, and every finished handler has been reported. */
  ghost predicate Reports(s: State) {
    && (forall fd :: fd in s.finished ==> exists c :: In(s, c, Finished) && s.conns[c].fd == fd)
    && (s.place.Joining? ==> forall fd :: fd in s.place.todo ==> fd !in s.finished && fd in s.threads && In(s, s.threads[fd], Finished))
    && (forall c :: In(s, c, Finished) ==> s.conns[c].fd in s.finished || (s.place.Joining? && s.conns[c].fd in s.place.todo))
  }

  /** A descriptor given out too early is that of the connection the accept thread is dealing with. */
  ghost predicate Doom(s: State) {
    && s.stillListed <= s.unjoined
    && if s.unjoined == {} then AllMapped(s)
       else Underway(s) && s.unjoined == {s.place.conn} && s.place.conn in s.conns && s.conns[s.place.conn].fd in s.threads
  }

  ghost predicate AllMapped(s: State) {
    Underway(s) && s.place.conn in s.conns ==> s.conns[s.place.conn].fd !in s.threads
  }

  /** The entries of a connection in the list: one, which nobody shares, unless its descriptor was still listed. */
  ghost predicate Entry(s: State, c: Conn)
    requires c in s.conns
  {
    && (Registered(s, c) ==> Count(s.list, s.conns[c].fd) == 1)
    && (In(s, c, Accepted) ==> s.conns[c].fd !in s.list)
    && (forall o :: Registered(s, o) && o != c ==> s.conns[o].fd != s.conns[c].fd)
  }

  ghost predicate Entries(s: State) {
    && (forall c :: Open(s, c) && c !in s.stillListed ==> Entry(s, c))
    && (s.stillListed == {} ==> forall c :: Registered(s, c) ==> Entry(s, c))
    && (forall fd :: fd in s.list ==> exists c :: Registered(s, c) && s.conns[c].fd == fd)
  }

  ghost predicate Inv(s: State) {
    if s.place.Terminated? then s.unjoined != {} && s.stillListed <= s.unjoined
    else Kernel(s) && Desk(s) && Threads(s) && Reports(s) && Doom(s) && Entries(s)
  }

  // ---- every step keeps them ----

  lemma KernelKept(s: State, step: Step)
    requires Kernel(s) && Desk(s) && Enabled(s, step)
    ensures Kernel(Next(s, step))
  {
    hide Without;
    assert forall c :: Open(Next(s, step), c) ==> Open(s, c) || (step.Accept? && step.conn == c);
  }

  lemma DeskKept(s: State, step: Step)
    requires Desk(s) && Threads(s) && Enabled(s, step) && !Next(s, step).place.Terminated?
    ensures Desk(Next(s, step))
  {
    hide Without;
  }

  lemma ThreadsKept(s: State, step: Step)
    requires Desk(s) && Threads(s) && Enabled(s, step) && !Next(s, step).place.Terminated?
    ensures Threads(Next(s, step))
  {
    hide Without;
  }

  /** Outside its dealing with a new connection the accept thread sees only descriptors of the map in the list. */
  lemma ListedIsMapped(s: State, fd: int)
    requires Desk(s) && Threads(s) && Entries(s) && !Underway(s) && fd in s.list
    ensures fd in s.threads
  {
    hide Entry;
    var c :| Registered(s, c) && s.conns[c].fd == fd;
    assert !In(s, c, Listed);
    assert Spawned(s, c);
  }

  lemma DoomKept(s: State, step: Step)
    requires Desk(s) && Threads(s) && Entries(s) && Doom(s) && Enabled(s, step) && !Next(s, step).place.Terminated?
    ensures Doom(Next(s, step))
  {
    hide Entries, Without, Threads;
    if step.Accept? && step.fd in s.list {
      ListedIsMapped(s, step.fd);
    }
  }

  lemma FinishedStays(s: State, step: Step, c: Conn)
    requires Enabled(s, step) && In(s, c, Finished) && Desk(s)
    requires step.Join? ==> s.conns[c].fd != step.fd && (step.fd in s.threads ==> s.threads[step.fd] != c)
    ensures In(Next(s, step), c, Finished) && Next(s, step).conns[c].fd == s.conns[c].fd
  {
    hide Without;
  }

  lemma StillReported(s: State, step: Step, fd: int)
    requires Desk(s) && Threads(s) && Reports(s) && Enabled(s, step) && fd in s.finished
    ensures exists c :: In(Next(s, step), c, Finished) && Next(s, step).conns[c].fd == fd
  {
    var c :| In(s, c, Finished) && s.conns[c].fd == fd;
    assert Spawned(s, c);
    FinishedStays(s, step, c);
  }

  lemma ReportsKept(s: State, step: Step)
    requires Desk(s) && Threads(s) && Reports(s) && Enabled(s, step) && !Next(s, step).place.Terminated?
    ensures Reports(Next(s, step))
  {
    forall fd | fd in s.finished
      ensures exists c :: In(Next(s, step), c, Finished) && Next(s, step).conns[c].fd == fd
    {
      StillReported(s, step, fd);
    }
    hide Without, Count;
    if step.Finish? {
      assert In(Next(s, step), step.conn, Finished);
      assert Spawned(s, step.conn);
    } else if step.Sweep? {
      forall fd | fd in s.finished
        ensures fd in s.threads && In(s, s.threads[fd], Finished)
      {
        var c :| In(s, c, Finished) && s.conns[c].fd == fd;
        assert Spawned(s, c);
      }
      SweepKeepsReports(s);
    } else if step.Join? {
      JoinKeepsReports(s, step.fd);
    } else {
      OtherStepKeepsReports(s, step);
    }
  }

  lemma JoinKeepsReports(s: State, fd: int)
    requires Threads(s) && Reports(s) && Enabled(s, Join(fd))
    requires forall x :: x in s.finished ==> exists c :: In(Reap(s, fd), c, Finished) && Reap(s, fd).conns[c].fd == x
    ensures Reports(Reap(s, fd))
  {
    var s' := Reap(s, fd);
    var c := s.threads[fd];
    assert s'.conns == Move(s, c, Joined) && s'.threads == s.threads - {fd};
    assert s'.place.todo == s.place.todo - {fd};
    forall o | In(s', o, Finished)
      ensures s'.conns[o].fd in s'.finished || s'.conns[o].fd in s'.place.todo
    {
      assert In(s, o, Finished) && Spawned(s, o);
      assert Mapped(s, o);
    }
  }

  lemma OtherStepKeepsReports(s: State, step: Step)
    requires Desk(s) && Reports(s) && Enabled(s, step) && !Next(s, step).place.Terminated?
    requires !step.Finish? && !step.Sweep? && !step.Join?
    ensures Reports(Next(s, step))
  {
    hide Without, Count, Open, Registered, Threads, Reports;
    SameReports(s, Next(s, step));
  }

  lemma SameReports(s: State, s': State)
    requires Reports(s) && s'.finished == s.finished
    requires forall c :: In(s', c, Finished) <==> In(s, c, Finished)
    requires forall c :: In(s', c, Finished) && In(s, c, Finished) ==> s'.conns[c].fd == s.conns[c].fd
    requires s'.place.Joining? ==> s'.place == s.place && s'.threads == s.threads
    requires s.place.Joining? && !s'.place.Joining? ==> s.place.todo == {}
    ensures Reports(s')
  {
    forall fd | fd in s'.finished
      ensures exists c :: In(s', c, Finished) && s'.conns[c].fd == fd
    {
      var c :| In(s, c, Finished) && s.conns[c].fd == fd;
      assert In(s', c, Finished);
    }
  }

  lemma SweepKeepsReports(s: State)
    requires Reports(s) && Enabled(s, Sweep)
    requires forall fd :: fd in s.finished ==> fd in s.threads && In(s, s.threads[fd], Finished)
    ensures Reports(Next(s, Sweep))
  {
    var s' := Next(s, Sweep);
    assert forall c :: In(s', c, Finished) ==> In(s, c, Finished);
  }

  // ---- entries ----

  /** An entry does not change while the list and the other registered connections do not. */
  lemma SameEntry(s: State, s': State, c: Conn)
    requires c in s.conns && c in s'.conns && Entry(s, c) && s'.list == s.list && s'.conns[c].fd == s.conns[c].fd
    requires forall o :: Registered(s', o) ==> Registered(s, o) && s'.conns[o].fd == s.conns[o].fd
    requires In(s', c, Accepted) ==> In(s, c, Accepted)
    ensures Entry(s', c)
  {
    hide Count;
  }

  lemma NewEntry(s: State, c: Conn, fd: int)
    requires Entries(s) && s.stillListed == {} && fd !in s.list && c !in s.conns
    ensures Entry(Admit(s, c, fd), c)
  {
    var s' := Admit(s, c, fd);
    forall o | Registered(s', o) && o != c
      ensures s'.conns[o].fd != fd
    {
      assert Registered(s, o);
      assert Entry(s, o);
      CountMeansIn(s.list, s.conns[o].fd);
    }
    hide Count;
  }

  lemma StillHeld(s: State, s': State, fd: int)
    requires exists c :: Registered(s, c) && s.conns[c].fd == fd
    requires forall c :: Registered(s, c) ==> Registered(s', c) && s'.conns[c].fd == s.conns[c].fd
    ensures exists c :: Registered(s', c) && s'.conns[c].fd == fd
  {
    var c :| Registered(s, c) && s.conns[c].fd == fd;
    assert Registered(s', c);
  }

  lemma AdmitKeepsEntries(s: State, c: Conn, fd: int)
    requires Entries(s) && Doom(s) && Enabled(s, Accept(c, fd))
    ensures Entries(Admit(s, c, fd))
  {
    var s' := Admit(s, c, fd);
    assert s.stillListed == {};
    if fd !in s.list {
      NewEntry(s, c, fd);
    }
    hide Entry, Doom;
    assert forall o :: Registered(s', o) <==> Registered(s, o);
    assert forall o :: Open(s', o) ==> o == c || Open(s, o);
    forall o | o in s.conns && Entry(s, o)
      ensures Entry(s', o)
    {
      SameEntry(s, s', o);
    }
    forall x | x in s.list
      ensures exists o :: Registered(s', o) && s'.conns[o].fd == x
    {
      StillHeld(s, s', x);
    }
  }

  lemma EnterKeepsEntries(s: State, c: Conn)
    requires Kernel(s) && Desk(s) && Entries(s) && Enabled(s, Register) && c == s.place.conn
    ensures Entries(Enter(s, c))
  {
    var s', fd := Enter(s, c), s.conns[c].fd;
    assert Open(s, c) && In(s, c, Accepted);
    forall x
      ensures Count(s'.list, x) == Count(s.list, x) + if x == fd then 1 else 0
    {
      CountAppend(s.list, fd, x);
    }
    CountMeansIn(s.list, fd);
    hide Count;
    assert forall o :: Registered(s', o) <==> Registered(s, o) || o == c;
    forall x | x in s'.list
      ensures exists o :: Registered(s', o) && s'.conns[o].fd == x
    {
      if x in s.list {
        var o :| Registered(s, o) && s.conns[o].fd == x;
        assert Registered(s', o);
      } else {
        assert Registered(s', c);
      }
    }
  }

  lemma DepartKeepsEntries(s: State, c: Conn)
    requires Entries(s) && In(s, c, Closed)
    ensures Entries(Depart(s, c))
  {
    var s', fd := Depart(s, c), s.conns[c].fd;
    assert Registered(s, c);
    forall x | x != fd
      ensures Count(s'.list, x) == Count(s.list, x)
    {
      WithoutCounts(s.list, fd, x);
    }
    WithoutContents(s.list, fd);
    hide Count, Without;
    assert forall o :: Registered(s', o) <==> Registered(s, o) && o != c;
    forall x | x in s'.list
      ensures exists o :: Registered(s', o) && s'.conns[o].fd == x
    {
      var o :| Registered(s, o) && s.conns[o].fd == x;
      assert Registered(s', o);
    }
  }

  /** Steps that change neither the list nor who is registered. */
  lemma SameEntries(s: State, s': State)
    requires Entries(s) && s'.list == s.list && s'.stillListed == s.stillListed
    requires forall c :: Registered(s', c) <==> Registered(s, c)
    requires forall c :: Registered(s', c) && Registered(s, c) ==> s'.conns[c].fd == s.conns[c].fd
    requires forall c :: Open(s', c) ==> Open(s, c) && s'.conns[c].fd == s.conns[c].fd
    requires forall c :: In(s', c, Accepted) ==> In(s, c, Accepted)
    ensures Entries(s')
  {
    hide Count;
    forall x | x in s'.list
      ensures exists o :: Registered(s', o) && s'.conns[o].fd == x
    {
      var o :| Registered(s, o) && s.conns[o].fd == x;
      assert Registered(s', o);
    }
  }

  lemma EntriesKept(s: State, step: Step)
    requires Kernel(s) && Desk(s) && Threads(s) && Doom(s) && Entries(s) && Enabled(s, step)
    ensures Entries(Next(s, step))
  {
    hide Entries, Count, Without, Threads, Kernel, Doom;
    match step
    case Accept(c, fd) => AdmitKeepsEntries(s, c, fd);
    case Register => EnterKeepsEntries(s, s.place.conn);
    case Remove(c) => DepartKeepsEntries(s, c);
    case _ => OtherStepKeepsEntries(s, step);
  }

  lemma OtherStepKeepsEntries(s: State, step: Step)
    requires Desk(s) && Threads(s) && Entries(s) && Enabled(s, step) && !step.Accept? && !step.Register? && !step.Remove?
    ensures Entries(Next(s, step))
  {
    hide Entries, Count, Without, Reports;
    SameEntries(s, Next(s, step));
  }

  lemma InvKept(s: State, step: Step)
    requires Inv(s) && Enabled(s, step)
    ensures Inv(Next(s, step))
  {
    if Next(s, step).place.Terminated? {
      hide Kernel, Desk, Threads, Reports, Entries;
    } else {
      hide Kernel, Desk, Threads, Reports, Entries, Doom, Next, Enabled;
      KernelKept(s, step);
      DeskKept(s, step);
      ThreadsKept(s, step);
      ReportsKept(s, step);
      DoomKept(s, step);
      EntriesKept(s, step);
    }
  }

  lemma InvInitially()
    ensures Inv(Init)
  {
  }

  lemma {:induction false} InvReached(s: State, steps: seq<Step>)
    requires Inv(s) && Possible(s, steps)
    ensures Inv(After(s, steps))
    decreases |steps|
  {
    if steps != [] {
      hide Inv, Enabled, Next;
      InvKept(s, steps[0]);
      InvReached(Next(s, steps[0]), steps[1..]);
    }
  }

  // ---- theorems ----

  /** The handlers of all earlier connections with this descriptor have been joined. */
  ghost predicate AllJoined(s: State, fd: int) {
    forall c :: c in s.conns && s.conns[c].fd == fd ==> s.conns[c].phase.Joined?
  }

  /** A run in which accept returns a descriptor only after the handlers that had it have been joined. */
  ghost predicate Careful(s: State, steps: seq<Step>)
    requires Possible(s, steps)
    decreases |steps|
  {
    steps == [] || ((steps[0].Accept? ==> AllJoined(s, steps[0].fd)) && Careful(Next(s, steps[0]), steps[1..]))
  }

  /** A run in which accept returns no descriptor that is still in the list. */
  ghost predicate NoneListed(s: State, steps: seq<Step>)
    requires Possible(s, steps)
    decreases |steps|
  {
    steps == [] || ((steps[0].Accept? ==> steps[0].fd !in s.list) && NoneListed(Next(s, steps[0]), steps[1..]))
  }

  lemma {:induction false} NoneListedFrom(s: State, steps: seq<Step>)
    requires Possible(s, steps) && s.stillListed == {}
    ensures NoneListed(s, steps) <==> After(s, steps).stillListed == {}
    decreases |steps|
  {
    if steps != [] {
      hide Enabled;
      var s' := Next(s, steps[0]);
      if s'.stillListed == {} {
        NoneListedFrom(s', steps[1..]);
      } else {
        HistoryKept(s', steps[1..]);
      }
    }
  }

  lemma JoinedIsUnmapped(s: State, fd: int)
    requires Inv(s) && !Underway(s) && !s.place.Terminated?
    ensures AllJoined(s, fd) <==> fd !in s.threads
  {
    if fd in s.threads {
      assert Spawned(s, s.threads[fd]);
    } else {
      forall c | c in s.conns && s.conns[c].fd == fd
        ensures s.conns[c].phase.Joined?
      {
        assert !In(s, c, Accepted) && !In(s, c, Listed);
        assert !Spawned(s, c);
      }
    }
  }

  lemma CarefulStep(s: State, step: Step)
    requires Inv(s) && Enabled(s, step) && s.unjoined == {}
    ensures Next(s, step).unjoined == {} <==> (step.Accept? ==> AllJoined(s, step.fd))
  {
    hide Inv, Count, Without;
    if step.Accept? {
      JoinedIsUnmapped(s, step.fd);
    }
  }

  lemma HistoryGrows(s: State, step: Step)
    requires Enabled(s, step)
    ensures s.unjoined <= Next(s, step).unjoined && s.stillListed <= Next(s, step).stillListed
    ensures !step.Accept? ==> s.unjoined == Next(s, step).unjoined && s.stillListed == Next(s, step).stillListed
    ensures Next(s, step).conns.Keys == s.conns.Keys + if step.Accept? then {step.conn} else {}
    ensures forall c :: c in s.conns ==> Next(s, step).conns[c].fd == s.conns[c].fd
  {
    hide Count, Without, Open;
  }

  lemma {:induction false} HistoryKept(s: State, steps: seq<Step>)
    requires Possible(s, steps)
    ensures s.unjoined <= After(s, steps).unjoined && s.stillListed <= After(s, steps).stillListed
    decreases |steps|
  {
    if steps != [] {
      hide Enabled, Next;
      HistoryGrows(s, steps[0]);
      HistoryKept(Next(s, steps[0]), steps[1..]);
    }
  }

  lemma {:induction false} CarefulFrom(s: State, steps: seq<Step>)
    requires Inv(s) && Possible(s, steps) && s.unjoined == {}
    ensures Careful(s, steps) <==> After(s, steps).unjoined == {}
    decreases |steps|
  {
    if steps != [] {
      hide Inv, Enabled, Next, AllJoined;
      var s' := Next(s, steps[0]);
      InvKept(s, steps[0]);
      CarefulStep(s, steps[0]);
      if s'.unjoined == {} {
        CarefulFrom(s', steps[1..]);
      } else {
        HistoryKept(s', steps[1..]);
      }
    }
  }

  /**
    * Exactly when the process survives its reconnects. In every run: it has ended if and only if accept returned a
    * descriptor one of whose handlers had not been joined in a pass before, unless the accept thread is still on
    * its way to the assignment.
    */
  lemma AliveExactly(steps: seq<Step>)
    requires Possible(Init, steps)
    ensures var s := After(Init, steps);
            && (s.place.Terminated? <==> !Careful(Init, steps) && !Underway(s))
            && (s.unjoined == {} <==> Careful(Init, steps))
            && (Careful(Init, steps) ==> s.stillListed == {})
  {
    InvInitially();
    InvReached(Init, steps);
    CarefulFrom(Init, steps);
    hide Possible, After, Careful, Kernel, Desk, Threads, Reports, Entries;
  }

  lemma DoomedStep(s: State, step: Step)
    requires Inv(s) && s.unjoined != {} && Enabled(s, step)
    ensures var s' := Next(s, step);
            && s'.conns.Keys == s.conns.Keys && s'.unjoined == s.unjoined
            && (s'.place.Terminated? || (Underway(s') && Underway(s) && s'.place.conn == s.place.conn))
            && (step.Assign? ==> s'.place.Terminated?)
  {
    HistoryGrows(s, step);
    hide Kernel, Desk, Threads, Reports, Entries, Without, Open;
  }

  lemma DoomedNow(s: State)
    requires Inv(s) && s.unjoined != {}
    ensures s.place.Terminated? || Underway(s)
  {
    hide Kernel, Desk, Threads, Reports, Entries;
  }

  /** Once accept has returned such a descriptor no other connection is accepted, and all the accept thread can still do is end the process. */
  lemma {:induction false} DoomIsFinal(s: State, steps: seq<Step>)
    requires Inv(s) && s.unjoined != {} && Possible(s, steps)
    ensures var end := After(s, steps);
            && end.conns.Keys == s.conns.Keys
            && (end.place.Terminated? || (Underway(end) && Underway(s) && end.place.conn == s.place.conn))
            && (Assign in steps ==> end.place.Terminated?)
    decreases |steps|
  {
    hide Inv, Enabled, Next;
    if steps == [] {
      DoomedNow(s);
    } else {
      InvKept(s, steps[0]);
      DoomedStep(s, steps[0]);
      DoomIsFinal(Next(s, steps[0]), steps[1..]);
      if Next(s, steps[0]).place.Terminated? {
        NothingMore(Next(s, steps[0]), steps[1..]);
      }
      hide Possible, After, Underway;
      MembersOf(steps);
    }
  }

  lemma NothingMore(s: State, steps: seq<Step>)
    requires s.place.Terminated? && Possible(s, steps)
    ensures steps == []
  {
  }

  /**
    * Which descriptors are safe while accept waits: those all of whose handlers had reported themselves as finished
    * before the last pass. A handler that has finished since is not joined yet, and one that gave up setting up its
    * connection never will be.
    */
  lemma SafeDescriptors(steps: seq<Step>, fd: int)
    requires Possible(Init, steps) && After(Init, steps).place.Waiting?
    ensures var s := After(Init, steps);
            AllJoined(s, fd) <==>
              && fd !in s.finished
              && forall c :: c in s.conns && s.conns[c].fd == fd ==> s.conns[c].phase.Joined? || s.conns[c].phase.Finished?
  {
    InvInitially();
    InvReached(Init, steps);
    hide Possible, After, Kernel, Desk, Threads, Doom, Entries;
    var s := After(Init, steps);
    if fd in s.finished {
      var c :| In(s, c, Finished) && s.conns[c].fd == fd;
    }
    assert forall c :: In(s, c, Finished) ==> s.conns[c].fd in s.finished;
    forall c | c in s.conns && s.conns[c].fd == fd && s.conns[c].phase.Finished?
      ensures fd in s.finished
    {
      assert In(s, c, Finished);
    }
  }

  /** In every run that is still careful no two handlers that have not been joined share a descriptor, and joining never has to wait for a handler. */
  lemma OneHandlerPerDescriptor(steps: seq<Step>, a: Conn, b: Conn)
    requires Possible(Init, steps) && Careful(Init, steps)
    ensures var s := After(Init, steps);
            && (Spawned(s, a) && Spawned(s, b) && s.conns[a].fd == s.conns[b].fd ==> a == b)
            && (s.place.Joining? ==> forall fd :: fd in s.place.todo ==> Enabled(s, Join(fd)))
  {
    AliveExactly(steps);
    InvInitially();
    InvReached(Init, steps);
    hide Possible, After, Careful, Kernel, Entries, Without, Count;
    var s := After(Init, steps);
    if Spawned(s, a) && Spawned(s, b) && s.conns[a].fd == s.conns[b].fd {
      assert Mapped(s, a) || s.place == Assigning(a);
      assert Mapped(s, b) || s.place == Assigning(b);
    }
  }

  /** The way of a connection. */
  predicate Leads(from: Phase, to: Phase) {
    match from
    case Accepted => to == Listed
    case Listed => to == Serving
    case Serving => to == Closed || to == Abandoned
    case Closed => to == Removed
    case Removed => to == Finished
    case Finished => to == Joined
    case Abandoned => false
    case Joined => false
  }

  /** Every handler is started once, goes its way without leaving anything out, and is joined once, only after it has finished. */
  lemma HandlersAdvance(s: State, step: Step, c: Conn)
    requires Inv(s) && Enabled(s, step) && c in s.conns
    ensures var s' := Next(s, step);
            && c in s'.conns && s'.conns[c].fd == s.conns[c].fd
            && (s'.conns[c].phase == s.conns[c].phase || Leads(s.conns[c].phase, s'.conns[c].phase))
            && (s'.conns[c].phase.Abandoned? <==> s.conns[c].phase.Abandoned? || step == Abandon(c))
  {
    hide Kernel, Reports, Doom, Entries, Without, Count, Open;
  }

  /**
    * A connection whose handler gave up setting it up is never joined and stays in the list, so that the process
    * ends when its descriptor is handed out again.
    */
  lemma {:induction false} AbandonedForGood(s: State, steps: seq<Step>, c: Conn)
    requires Inv(s) && Possible(s, steps) && In(s, c, Abandoned)
    ensures var end := After(s, steps);
            && In(end, c, Abandoned) && end.conns[c].fd == s.conns[c].fd && !AllJoined(end, s.conns[c].fd)
            && (!end.place.Terminated? && end.stillListed == {} ==> Count(end.list, s.conns[c].fd) == 1)
    decreases |steps|
  {
    if steps != [] {
      hide Inv, Enabled, Next, Count;
      InvKept(s, steps[0]);
      HandlersAdvance(s, steps[0], c);
      AbandonedForGood(Next(s, steps[0]), steps[1..], c);
    } else if !s.place.Terminated? && s.stillListed == {} {
      hide Count;
      assert Registered(s, c);
      assert Entry(s, c);
    }
  }

  /** A broadcast begun now would go to the connection once, or not at all if it has not been entered yet. */
  predicate Once(s: State, c: Conn) {
    !s.place.Terminated? && Open(s, c) ==> Count(s.list, s.conns[c].fd) == if Registered(s, c) then 1 else 0
  }

  ghost predicate AlwaysOnce(s: State, steps: seq<Step>, c: Conn)
    requires Possible(s, steps)
    decreases |steps|
  {
    Once(s, c) && (steps == [] || AlwaysOnce(Next(s, steps[0]), steps[1..], c))
  }

  lemma OwnEntryIsOnce(s: State, c: Conn)
    requires Inv(s) && c !in s.stillListed
    ensures Once(s, c)
  {
    hide Count;
    if Open(s, c) && !s.place.Terminated? {
      assert Entry(s, c);
      CountMeansIn(s.list, s.conns[c].fd);
    }
  }

  lemma ListedIsNotOnce(s: State, step: Step, c: Conn)
    requires Enabled(s, step) && c !in s.stillListed && c in Next(s, step).stillListed
    ensures !Once(Next(s, step), c)
  {
    HistoryGrows(s, step);
    CountMeansIn(s.list, step.fd);
    hide Count;
  }

  lemma {:induction false} OnceUntilListed(s: State, steps: seq<Step>, c: Conn)
    requires Inv(s) && Possible(s, steps) && c !in s.stillListed
    ensures AlwaysOnce(s, steps, c) <==> c !in After(s, steps).stillListed
    decreases |steps|
  {
    hide Inv, Enabled, Next, Once;
    OwnEntryIsOnce(s, c);
    if steps != [] {
      var s' := Next(s, steps[0]);
      InvKept(s, steps[0]);
      if c in s'.stillListed {
        ListedIsNotOnce(s, steps[0], c);
        HistoryKept(s', steps[1..]);
      } else {
        OnceUntilListed(s', steps[1..], c);
      }
    }
  }

  /**
    * Exactly when broadcasts go right, in every run: an open connection is in the list exactly once from its
    * registration on, and not at all before, if and only if accept did not return its descriptor while that was
    * still in the list. In a careful run this never happens.
    */
  lemma ListedExactlyOnce(steps: seq<Step>, c: Conn)
    requires Possible(Init, steps)
    ensures AlwaysOnce(Init, steps, c) <==> c !in After(Init, steps).stillListed
    ensures Careful(Init, steps) ==> AlwaysOnce(Init, steps, c)
  {
    InvInitially();
    AliveExactly(steps);
    InvReached(Init, steps);
    OnceUntilListed(Init, steps, c);
    hide Possible, After, Careful, AlwaysOnce, Kernel, Desk, Threads, Reports, Entries;
  }

  // ---- the pass at the head of the loop ----

  /** What the accept thread does to the map of handler threads. */
  class HandlerMap {
    var threads: map<int, Conn>
    var finished: set<int>
    var joined: set<Conn>

    constructor ()
      ensures threads == map[] && finished == {} && joined == {}
    {
      threads, finished, joined := map[], {}, {};
    }

    /** Takes the list of finished descriptors, joins the threads under them and erases their entries. */
    method CleanupFinishedThreads()
      modifies this
      ensures finished == {} && threads == old(threads) - old(finished)
      ensures joined == old(joined) + set fd | fd in old(finished) && fd in old(threads) :: old(threads)[fd]
    {
      var todo := finished;
      finished := {};
      ghost var all, before, was := todo, threads, joined;
      while todo != {}
        invariant todo <= all && finished == {}
        invariant threads == before - (all - todo)
        invariant joined == was + set fd | fd in all - todo && fd in before :: before[fd]
        decreases todo
      {
        ghost var some := SomeMember(todo);
        var fd :| fd in todo;
        todo := todo - {fd};
        if fd in threads {
          joined := joined + {threads[fd]};
          threads := threads - {fd};
        }
      }
    }

    /** Stores the thread of a new handler; over one that has not been joined the process ends instead. */
    method StoreHandler(fd: int, conn: Conn) returns (ends: bool)
      modifies this`threads
      ensures ends <==> fd in old(threads)
      ensures threads == if ends then old(threads) else old(threads)[fd := conn]
    {
      ends := fd in threads;
      if !ends {
        threads := threads[fd := conn];
      }
    }
  }

  /** Steps that are possible while the accept thread is joining: its own joins, and the ends of handlers. */
  predicate DuringPass(step: Step) {
    step.Join? || step.Close? || step.Remove? || step.Finish? || step.Abandon?
  }

  /**
    * The joins one by one, with handlers ending in between, add up to the clean-up: so far the entries of the reported
    * descriptors that are no longer to do have gone from the map and their threads have been joined, and nothing else.
    */
  lemma {:induction false} PassIsCleanup(s: State, start: State, steps: seq<Step>)
    requires Inv(s) && s.place.Joining? && Possible(s, steps) && forall step <- steps :: DuringPass(step)
    requires s.place.todo <= start.finished && s.threads == start.threads - (start.finished - s.place.todo)
    ensures var end := After(s, steps);
            && end.place.Joining? && end.place.todo <= s.place.todo
            && end.threads == start.threads - (start.finished - end.place.todo)
            && (forall c :: In(end, c, Joined) && !In(s, c, Joined) ==>
                  exists fd :: fd in s.place.todo - end.place.todo && fd in s.threads && s.threads[fd] == c)
    decreases |steps|
  {
    hide Inv, Enabled, Next, In;
    if steps != [] {
      var s' := Next(s, steps[0]);
      assert steps[0] in steps && forall step <- steps[1..] :: step in steps;
      InvKept(s, steps[0]);
      PassStep(s, steps[0]);
      PassIsCleanup(s', start, steps[1..]);
      var end := After(s', steps[1..]);
      forall c | In(end, c, Joined) && !In(s, c, Joined)
        ensures exists fd :: fd in s.place.todo - end.place.todo && fd in s.threads && s.threads[fd] == c
      {
        if !In(s', c, Joined) {
          var fd :| fd in s'.place.todo - end.place.todo && fd in s'.threads && s'.threads[fd] == c;
          assert fd in s.place.todo - end.place.todo;
        } else {
          assert steps[0].fd in s.place.todo - end.place.todo;
        }
      }
    }
  }

  lemma PassStep(s: State, step: Step)
    requires Inv(s) && s.place.Joining? && Enabled(s, step) && DuringPass(step)
    ensures var s' := Next(s, step);
            && s'.place.Joining?
            && (if step.Join? then
                  && step.fd in s.place.todo && s'.place.todo == s.place.todo - {step.fd} && s'.threads == s.threads - {step.fd}
                  && (forall c :: In(s', c, Joined) && !In(s, c, Joined) ==> step.fd in s.threads && s.threads[step.fd] == c)
                else s'.place == s.place && s'.threads == s.threads && forall c :: In(s', c, Joined) ==> In(s, c, Joined))
  {
    hide Kernel, Desk, Doom, Entries, Without, Count, Open;
  }
}
