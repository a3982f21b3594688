/** Runs in which a descriptor of the Qt server is handed out again before the handler that had it has been joined. */
module SessionExamples {
  import opened Common
  import opened Json
  import opened AuthManager
  import opened AccountLaws
  import opened QtCommServer
  import opened ClientController
  import opened Sessions
  import Acceptor

  lemma {:induction false} Extend(w: World, s: State, steps: seq<Step>, step: Step)
    requires Possible(w, s, steps) && Enabled(w, After(w, s, steps), step)
    ensures Possible(w, s, steps + [step]) && After(w, s, steps + [step]) == Next(w, After(w, s, steps), step)
    decreases |steps|
  {
    hide Enabled, Next;
    if steps == [] {
      assert steps + [step] == [step];
      assert Possible(w, Next(w, s, step), []);
    } else {
      Extend(w, Next(w, s, steps[0]), steps[1..], step);
      assert (steps + [step])[0] == steps[0] && (steps + [step])[1..] == steps[1..] + [step];
    }
  }

  /** One step further. */
  lemma Onward(w: World, s: State, step: Step, s': State)
    requires Reached(w, s) && Enabled(w, s, step) && Next(w, s, step) == s'
    ensures Reached(w, s')
  {
    hide Enabled, Next;
    var steps :| Possible(w, Init, steps) && s == After(w, Init, steps);
    Extend(w, Init, steps, step);
  }

  lemma StartReached(w: World)
    ensures Reached(w, Init)
  {
    assert Possible(w, Init, []) && After(w, Init, []) == Init;
  }

  lemma {:induction false} BoundOfPlain(s: string)
    requires '\0' !in s
    ensures Bound(s) == s
  {
    if s != [] {
      BoundOfPlain(s[1..]);
    }
  }

  const NAME := "admin_alpha"
  const PASSWORD := "pass_admin_alpha"

  lemma PlainName()
    ensures Bound(NAME) == NAME
  {
    BoundOfPlain(NAME);
  }

  lemma SeededAdministratorLogsIn(w: World)
    ensures Login(Run(w.digest, w.salts, []), w.digest, NAME, PASSWORD, Works) == LoggedIn(Admin)
  {
    PlainName();
    RunTells(w.digest, w.salts, []);
    var a := Seeds(w.salts)[0];
    assert a.name == NAME && a.password == PASSWORD && a.role == Admin && a in Created(w.salts, []);
    hide Seeds, Created, Bound;
    StoredLogsIn(Run(w.digest, w.salts, []), w, a);
  }

  lemma StoredLogsIn(users: Users, w: World, a: Account)
    requires Stored(users, w.digest, w.salts, [], a) && Bound(a.name) == a.name
    requires a.name != "" && a.password != "" && a.role == Admin
    ensures Login(users, w.digest, a.name, a.password, Works) == LoggedIn(Admin)
  {
    hide Bound, HashPassword, Hex, Created, WasApproved;
  }

  const Credentials := Object(map["id" := Str(NAME), "pw" := Str(PASSWORD)])

  const TheGrant := Grant(NAME, PASSWORD, Admin)

  const TheLogin := DoLogin(NAME, PASSWORD, Works)

  /** The state after the seeded administrator has logged in on a connection that was ready. */
  function LoggedInOn(s: State, c: Conn): State
    requires c in s.clients
  {
    s.(clients := s.clients[c := Client(Ready, s.clients[c].tagged + [TheGrant])],
       roles := s.roles[Fd(s, c) := "admin"], ops := s.ops + [TheLogin])
  }

  lemma AskingToLogIn(w: World, s: State, c: Conn)
    requires Enabled(w, s, Handle(c, LOGIN, Credentials, [], Works))
    ensures c in s.clients
    ensures Next(w, s, Handle(c, LOGIN, Credentials, [], Works)) ==
            s.(clients := Turn(s, c, Tagging(TheGrant)), ops := s.ops + [TheLogin])
  {
    SeededAdministratorLogsIn(w);
    assert s.ops[..0] == [];
    LoginPersists(w.digest, w.salts, s.ops, 0, NAME, PASSWORD, Admin);
    assert Decode(LOGIN, Credentials) == LogIn(NAME, PASSWORD);
    hide Run, Login, Decode;
  }

  lemma LoggingIn(w: World, s: State, c: Conn)
    requires Reached(w, s) && Acceptor.In(s.server, c, Acceptor.Serving) && At(s, c, Ready) && !s.server.place.Terminated?
    requires w.tls ==> Fd(s, c) in s.tls && s.tls[Fd(s, c)]
    ensures Reached(w, LoggedInOn(s, c))
  {
    hide Reached, Run, Login;
    AskingToLogIn(w, s, c);
    var s1 := s.(clients := Turn(s, c, Tagging(TheGrant)), ops := s.ops + [TheLogin]);
    Onward(w, s, Handle(c, LOGIN, Credentials, [], Works), s1);
    assert Record(s1, c).clients == LoggedInOn(s, c).clients;
    Onward(w, s1, Tag(c), LoggedInOn(s, c));
  }

  // ---- the first client ----

  function Server(conns: map<Conn, Acceptor.Link>, list: seq<int>, place: Acceptor.Place): Acceptor.State {
    Acceptor.State(conns, list, map[5 := 0], {}, place, {}, {})
  }

  function First(phase: Acceptor.Phase): map<Conn, Acceptor.Link> {
    map[0 := Acceptor.Link(5, phase)]
  }

  /** Connection 0 has been accepted on descriptor 5, its handler has been started, and the accept thread waits again. */
  function Arrived(): State {
    State(Server(First(Acceptor.Serving), [5], Acceptor.Waiting), map[0 := Client(Starting, [])], map[], map[], [])
  }

  lemma FirstAccepted(w: World) returns (s: State)
    ensures Reached(w, s) && s == Init.(server := Acceptor.State(First(Acceptor.Accepted), [], map[], {}, Acceptor.Registering(0), {}, {}),
                                        clients := map[0 := Client(Starting, [])])
  {
    hide Reached;
    StartReached(w);
    var s1 := Init.(server := Acceptor.Init.(place := Acceptor.Joining({})));
    Onward(w, Init, Serve(Acceptor.Sweep), s1);
    var s2 := Init.(server := Acceptor.Init.(place := Acceptor.Waiting));
    Onward(w, s1, Serve(Acceptor.Wait), s2);
    s := Init.(server := Acceptor.State(First(Acceptor.Accepted), [], map[], {}, Acceptor.Registering(0), {}, {}),
               clients := map[0 := Client(Starting, [])]);
    Onward(w, s2, Serve(Acceptor.Accept(0, 5)), s);
  }

  lemma ArrivedReached(w: World)
    ensures Reached(w, Arrived())
  {
    hide Reached;
    var s0 := FirstAccepted(w);
    var s1 := s0.(server := Acceptor.State(First(Acceptor.Listed), [5], map[], {}, Acceptor.Spawning(0), {}, {}));
    Onward(w, s0, Serve(Acceptor.Register), s1);
    var s2 := s0.(server := Acceptor.State(First(Acceptor.Serving), [5], map[], {}, Acceptor.Assigning(0), {}, {}));
    Onward(w, s1, Serve(Acceptor.Spawn), s2);
    var s3 := Arrived().(server := Server(First(Acceptor.Serving), [5], Acceptor.Sweeping));
    Onward(w, s2, Serve(Acceptor.Assign), s3);
    var s4 := Arrived().(server := Server(First(Acceptor.Serving), [5], Acceptor.Joining({})));
    Onward(w, s3, Serve(Acceptor.Sweep), s4);
    Onward(w, s4, Serve(Acceptor.Wait), Arrived());
  }

  function Sessions5(w: World): map<int, bool> {
    if w.tls then map[5 := true] else map[]
  }

  /** Its handler has set it up. */
  function Prepared(w: World): State {
    Arrived().(clients := map[0 := Client(Ready, [])], tls := Sessions5(w))
  }

  lemma PreparedReached(w: World)
    ensures Reached(w, Prepared(w))
  {
    hide Reached;
    ArrivedReached(w);
    Onward(w, Arrived(), SetUp(0, true), Prepared(w));
  }

  // ---- an ordinary reconnect ----

  /** Connection 0 has gone and its handler has finished; the accept thread still waits, so nobody has joined it. */
  function Gone(): State {
    State(Server(First(Acceptor.Finished), [], Acceptor.Waiting).(finished := {5}), map[0 := Client(Parted, [])], map[], map[], [])
  }

  lemma ClosedReached(w: World)
    ensures Reached(w, Prepared(w).(server := Server(First(Acceptor.Closed), [5], Acceptor.Waiting)))
  {
    hide Reached;
    PreparedReached(w);
    Onward(w, Prepared(w), Serve(Acceptor.Close(0)), Prepared(w).(server := Server(First(Acceptor.Closed), [5], Acceptor.Waiting)));
  }

  lemma RemovedReached(w: World)
    ensures Reached(w, Prepared(w).(server := Server(First(Acceptor.Removed), [], Acceptor.Waiting)))
  {
    hide Reached;
    ClosedReached(w);
    var s1 := Prepared(w).(server := Server(First(Acceptor.Closed), [5], Acceptor.Waiting));
    assert Without([5], 5) == [];
    Onward(w, s1, Serve(Acceptor.Remove(0)), Prepared(w).(server := Server(First(Acceptor.Removed), [], Acceptor.Waiting)));
  }

  lemma GoneReached(w: World)
    ensures Reached(w, Gone())
  {
    hide Reached;
    RemovedReached(w);
    var s2 := Prepared(w).(server := Server(First(Acceptor.Removed), [], Acceptor.Waiting));
    var s3 := s2.(clients := map[0 := Client(Parted, [])], tls := map[]);
    Onward(w, s2, EndSession(0), s3);
    Onward(w, s3, Serve(Acceptor.Finish(0)), Gone());
  }

  /** The next connection has got descriptor 5 and has been entered. */
  function Returned(): State {
    Gone().(server := Server(map[0 := Acceptor.Link(5, Acceptor.Finished), 1 := Acceptor.Link(5, Acceptor.Listed)], [5],
                             Acceptor.Spawning(1)).(finished := {5}, unjoined := {1}),
            clients := map[0 := Client(Parted, []), 1 := Client(Starting, [])])
  }

  lemma ReturnedReached(w: World)
    ensures Reached(w, Returned())
  {
    hide Reached;
    GoneReached(w);
    var both := map[0 := Acceptor.Link(5, Acceptor.Finished), 1 := Acceptor.Link(5, Acceptor.Accepted)];
    var s := Returned().(server := Returned().server.(conns := both, list := [], place := Acceptor.Registering(1)));
    Onward(w, Gone(), Serve(Acceptor.Accept(1, 5)), s);
    Onward(w, s, Serve(Acceptor.Register), Returned());
  }

  /**
    * A client that leaves while the accept thread waits, and the next one on the same descriptor: the process ends,
    * although the old handler has finished and everything has been removed from the tables.
    */
  lemma ReconnectEndsServer(w: World)
    ensures exists s :: Reached(w, s) && s.server.place.Terminated? && s.server.stillListed == {}
              && Acceptor.In(s.server, 0, Acceptor.Finished) && Acceptor.In(s.server, 1, Acceptor.Serving)
  {
    hide Reached;
    ReturnedReached(w);
    var both := map[0 := Acceptor.Link(5, Acceptor.Finished), 1 := Acceptor.Link(5, Acceptor.Serving)];
    var s := Returned().(server := Returned().server.(conns := both, place := Acceptor.Assigning(1)));
    Onward(w, Returned(), Serve(Acceptor.Spawn), s);
    Onward(w, s, Serve(Acceptor.Assign), s.(server := s.server.(place := Acceptor.Terminated)));
  }

  // ---- a reconnect before the old handler has removed the descriptor ----

  function Both(first: Acceptor.Phase, second: Acceptor.Phase): map<Conn, Acceptor.Link> {
    map[0 := Acceptor.Link(5, first), 1 := Acceptor.Link(5, second)]
  }

  function Doomed(conns: map<Conn, Acceptor.Link>, list: seq<int>, place: Acceptor.Place): Acceptor.State {
    Server(conns, list, place).(stillListed := {1}, unjoined := {1})
  }

  /** Connection 0 was the administrator's; its handler has closed descriptor 5 and not yet removed it. */
  function HalfGone(w: World): State {
    State(Server(First(Acceptor.Closed), [5], Acceptor.Waiting), map[0 := Client(Ready, [TheGrant])], Sessions5(w),
          map[5 := "admin"], [TheLogin])
  }

  lemma HalfGoneReached(w: World)
    ensures Reached(w, HalfGone(w))
  {
    hide Reached;
    PreparedReached(w);
    LoggingIn(w, Prepared(w), 0);
    var s := LoggedInOn(Prepared(w), 0);
    assert Prepared(w).clients[0].tagged + [TheGrant] == [TheGrant];
    assert Prepared(w).ops + [TheLogin] == [TheLogin];
    assert s == HalfGone(w).(server := Prepared(w).server);
    Onward(w, s, Serve(Acceptor.Close(0)), HalfGone(w));
  }

  /** Connection 1 has got descriptor 5 in the meantime and has been entered. */
  function Reissued(w: World): State {
    HalfGone(w).(server := Doomed(Both(Acceptor.Closed, Acceptor.Listed), [5, 5], Acceptor.Spawning(1)),
                 clients := map[0 := Client(Ready, [TheGrant]), 1 := Client(Starting, [])])
  }

  lemma ReissuedReached(w: World)
    ensures Reached(w, Reissued(w))
  {
    hide Reached;
    HalfGoneReached(w);
    var s := Reissued(w).(server := Doomed(Both(Acceptor.Closed, Acceptor.Accepted), [5], Acceptor.Registering(1)));
    Onward(w, HalfGone(w), Serve(Acceptor.Accept(1, 5)), s);
    assert [5] + [5] == [5, 5];
    Onward(w, s, Serve(Acceptor.Register), Reissued(w));
  }

  /** The handler of connection 0 has removed the descriptor and its session at last; then that of connection 1 has been started. */
  function Orphaned(w: World): State {
    State(Doomed(Both(Acceptor.Removed, Acceptor.Serving), [], Acceptor.Assigning(1)),
          map[0 := Client(Parted, [TheGrant]), 1 := Client(Ready, [])], Sessions5(w), map[], [TheLogin])
  }

  lemma OldRemovedReached(w: World)
    ensures Reached(w, Reissued(w).(server := Doomed(Both(Acceptor.Removed, Acceptor.Listed), [], Acceptor.Spawning(1)), roles := map[]))
  {
    hide Reached;
    ReissuedReached(w);
    assert [5, 5][1..] == [5] && [5][1..] == [];
    Onward(w, Reissued(w), Serve(Acceptor.Remove(0)),
           Reissued(w).(server := Doomed(Both(Acceptor.Removed, Acceptor.Listed), [], Acceptor.Spawning(1)), roles := map[]));
  }

  lemma OldPartedReached(w: World) returns (s: State)
    ensures Reached(w, s) && s == State(Doomed(Both(Acceptor.Removed, Acceptor.Listed), [], Acceptor.Spawning(1)),
                                        map[0 := Client(Parted, [TheGrant]), 1 := Client(Starting, [])], map[], map[], [TheLogin])
  {
    hide Reached;
    OldRemovedReached(w);
    var s1 := Reissued(w).(server := Doomed(Both(Acceptor.Removed, Acceptor.Listed), [], Acceptor.Spawning(1)), roles := map[]);
    s := s1.(clients := map[0 := Client(Parted, [TheGrant]), 1 := Client(Starting, [])], tls := map[]);
    Onward(w, s1, EndSession(0), s);
  }

  lemma OrphanedReached(w: World)
    ensures Reached(w, Orphaned(w))
  {
    hide Reached;
    var s2 := OldPartedReached(w);
    var s3 := s2.(server := Doomed(Both(Acceptor.Removed, Acceptor.Serving), [], Acceptor.Assigning(1)));
    Onward(w, s2, Serve(Acceptor.Spawn), s3);
    Onward(w, s3, SetUp(1, true), Orphaned(w));
  }

  lemma OrphanLogsIn(w: World) returns (s: State)
    ensures Reached(w, s) && Cleared(s, 1, "admin") && Fd(s, 1) == 5 && s.server == Orphaned(w).server
  {
    hide Reached;
    OrphanedReached(w);
    LoggingIn(w, Orphaned(w), 1);
    s := LoggedInOn(Orphaned(w), 1);
  }

  /** The accept thread has connection 1 in hand, and storing its handler will end the process. */
  predicate AboutToEnd(s: State) {
    Acceptor.Underway(s.server) && s.server.place.conn == 1 && s.server.unjoined == {1}
  }

  /**
    * A descriptor is handed out while the handler that had it is late. Until the accept thread stores the new handler,
    * which ends the process, the new client is sent twice what is limited to administrators, without a login of its own;
    * or, if the old handler removes the descriptor in that time, nothing at all, even after logging in.
    */
  lemma ReissuedTooEarly(w: World, packet: Packet)
    ensures exists s :: Reached(w, s) && AboutToEnd(s) && 1 in s.clients && s.clients[1].tagged == [] && Fd(s, 1) == 5
              && For(Addressed(s.server.list, ToRole(s.roles, packet, "admin")), 5) == [packet, packet]
    ensures exists s :: Reached(w, s) && AboutToEnd(s) && Cleared(s, 1, "admin") && Fd(s, 1) == 5
              && For(Addressed(s.server.list, ToRole(s.roles, packet, "admin")), 5) == []
  {
    hide *;
    ReissuedReached(w);
    SentTwice(w, packet);
    var s := OrphanLogsIn(w);
    SentNothing(w, s, packet);
  }

  lemma SentTwice(w: World, packet: Packet)
    ensures var s := Reissued(w);
            && AboutToEnd(s) && 1 in s.clients && s.clients[1].tagged == [] && Fd(s, 1) == 5
            && For(Addressed(s.server.list, ToRole(s.roles, packet, "admin")), 5) == [packet, packet]
  {
    BothCopies(ToRole(Reissued(w).roles, packet, "admin"), packet);
    hide For, Addressed, ToRole;
  }

  lemma SentNothing(w: World, s: State, packet: Packet)
    requires s.server == Orphaned(w).server
    ensures AboutToEnd(s) && For(Addressed(s.server.list, ToRole(s.roles, packet, "admin")), 5) == []
  {
    hide ToRole;
    assert For(Addressed([], ToRole(s.roles, packet, "admin")), 5) == [];
  }

  lemma BothCopies(choose: int -> Option<Packet>, packet: Packet)
    requires choose(5) == Some(packet)
    ensures For(Addressed([5, 5], choose), 5) == [packet, packet]
  {
    var none: seq<int> := [];
    SentAsRegistered([5, 5], choose, 5);
    CountAppend(none, 5, 5);
    CountAppend([5], 5, 5);
    assert none + [5] == [5] && [5] + [5] == [5, 5];
    hide Count, For, Addressed;
    assert Repeat(packet, 2) == Repeat(packet, 1) + [packet] && Repeat(packet, 1) == Repeat(packet, 0) + [packet];
  }

  // ---- a connection without a TLS session ----

  /** Connection 0 got no valid session: its handler has closed the descriptor and returned. */
  function Stranded(): State {
    Arrived().(server := Server(First(Acceptor.Abandoned), [5], Acceptor.Waiting), tls := map[5 := false])
  }

  /** Connection 1 has got descriptor 5 and finds the invalid session. */
  function StrandedToo(): State {
    Stranded().(server := Doomed(Both(Acceptor.Abandoned, Acceptor.Abandoned), [5, 5], Acceptor.Assigning(1)),
                clients := map[0 := Client(Starting, []), 1 := Client(Starting, [])])
  }

  /** The states on the way there. */
  function OnTheWay(phase: Acceptor.Phase, list: seq<int>, place: Acceptor.Place): State {
    StrandedToo().(server := Doomed(Both(Acceptor.Abandoned, phase), list, place))
  }

  lemma StrandedReached(w: World)
    requires w.tls
    ensures Reached(w, Stranded())
  {
    hide Reached;
    ArrivedReached(w);
    Onward(w, Arrived(), SetUp(0, false), Stranded());
  }

  lemma EnteredTooReached(w: World)
    requires w.tls
    ensures Reached(w, OnTheWay(Acceptor.Listed, [5, 5], Acceptor.Spawning(1)))
  {
    hide Reached;
    StrandedReached(w);
    var s := OnTheWay(Acceptor.Accepted, [5], Acceptor.Registering(1));
    Onward(w, Stranded(), Serve(Acceptor.Accept(1, 5)), s);
    assert [5] + [5] == [5, 5];
    Onward(w, s, Serve(Acceptor.Register), OnTheWay(Acceptor.Listed, [5, 5], Acceptor.Spawning(1)));
  }

  lemma StrandedTooReached(w: World)
    requires w.tls
    ensures Reached(w, StrandedToo())
  {
    hide Reached;
    EnteredTooReached(w);
    var s := OnTheWay(Acceptor.Serving, [5, 5], Acceptor.Assigning(1));
    Onward(w, OnTheWay(Acceptor.Listed, [5, 5], Acceptor.Spawning(1)), Serve(Acceptor.Spawn), s);
    Onward(w, s, SetUp(1, true), StrandedToo());
  }

  /**
    * A connection whose TLS session could not be created is left in the tables: the next one on its descriptor finds the
    * invalid session and is given up as well, and storing its handler ends the process.
    */
  lemma AbandonedEndsServer(w: World)
    requires w.tls
    ensures exists s :: Reached(w, s) && AboutToEnd(s) && Acceptor.In(s.server, 1, Acceptor.Abandoned) && s.server.list == [5, 5]
    ensures exists s :: Reached(w, s) && s.server.place.Terminated? && Acceptor.In(s.server, 0, Acceptor.Abandoned)
  {
    hide Reached;
    StrandedTooReached(w);
    var s := StrandedToo().(server := StrandedToo().server.(place := Acceptor.Terminated));
    Onward(w, StrandedToo(), Serve(Acceptor.Assign), s);
  }
}
