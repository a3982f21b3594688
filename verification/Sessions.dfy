/**
  * The Qt connections as a step machine: the accept loop and the ends of the handlers as in `Acceptor`, and
  * besides them setting up a connection, serving its requests and recording roles.
  */
module Sessions {
  import opened Common
  import opened Json
  import opened AuthManager
  import opened AccountLaws
  import opened QtCommServer
  import opened ClientController
  import Acceptor

  type Conn = Acceptor.Conn

  /** A login that succeeded. */
  datatype Grant = Grant(name: string, password: string, role: Role)

  /** What a handler is about to do. `Parted`: it has erased its TLS session. */
  datatype Stage = Starting | Ready | Tagging(grant: Grant) | Parted

  /** `tagged` are the logins on this connection whose role has been recorded, the latest last. */
  datatype Client = Client(stage: Stage, tagged: seq<Grant>)

  datatype State = State(
    server: Acceptor.State,
    clients: map<Conn, Client>,
    tls: map<int, bool>,               // the TLS sessions by descriptor, and whether they are valid
    roles: map<int, string>,           // the recorded roles by descriptor
    ops: seq<Op>)                      // everything ever done to the accounts

  datatype Step =
    | Serve(step: Acceptor.Step)
    | SetUp(conn: Conn, ok: bool)
    | Handle(conn: Conn, kind: byte, body: Json, entropy: seq<byte>, db: Db)
    | Tag(conn: Conn)
    | EndSession(conn: Conn)

  /** The accounts start from a new, seeded database; `tls` if the server has certificates. */
  datatype World = World(digest: Digest, salts: nat -> seq<byte>, tls: bool)

  const Init := State(Acceptor.Init, map[], map[], map[], [])

  predicate At(s: State, c: Conn, stage: Stage) {
    c in s.clients && s.clients[c].stage == stage
  }

  function Fd(s: State, c: Conn): int {
    if c in s.server.conns then s.server.conns[c].fd else -1
  }

  /** A session is created unless the descriptor has one; then that is used, valid or not. */
  predicate SetsUp(w: World, s: State, c: Conn, ok: bool) {
    !w.tls || if Fd(s, c) in s.tls then s.tls[Fd(s, c)] else ok
  }

  /** How the end of a handler is tied to what it does. */
  predicate Allowed(s: State, step: Acceptor.Step) {
    match step
    case Close(c) => At(s, c, Ready)
    case Finish(c) => At(s, c, Parted)
    case Abandon(_) => false
    case _ => true
  }

  ghost predicate Enabled(w: World, s: State, step: Step) {
    !s.server.place.Terminated? &&
    match step
    case Serve(x) => Acceptor.Enabled(s.server, x) && Allowed(s, x)
    case SetUp(c, _) => Acceptor.In(s.server, c, Acceptor.Serving) && At(s, c, Starting)
    case Handle(c, kind, body, _, _) =>
      && Acceptor.In(s.server, c, Acceptor.Serving) && At(s, c, Ready)
      && (w.tls ==> Fd(s, c) in s.tls && s.tls[Fd(s, c)]) && !Decode(kind, body).Malformed?
    case Tag(c) => Acceptor.In(s.server, c, Acceptor.Serving) && c in s.clients && s.clients[c].stage.Tagging?
    case EndSession(c) => Acceptor.In(s.server, c, Acceptor.Removed) && At(s, c, Ready)
  }

  /** The step of the accept loop or of the end of a handler, if it is one: a handler that gets no TLS session gives up. */
  function ServerStep(w: World, s: State, step: Step): Option<Acceptor.Step> {
    match step
    case Serve(x) => Some(x)
    case SetUp(c, ok) => if SetsUp(w, s, c, ok) then None else Some(Acceptor.Abandon(c))
    case _ => None
  }

  /** What the handler goes on with after a request: a successful login is still to be recorded. */
  function StageAfter(w: World, s: State, r: Request, entropy: seq<byte>, db: Db): (next: Stage)
    ensures next.Ready? || next.Tagging?
  {
    if r.LogIn? then
      var reply := ReplyTo(Run(w.digest, w.salts, s.ops), w.digest, r, entropy, db);
      if reply.LoggedIn? then Tagging(Grant(r.name, r.password, reply.role)) else Ready
    else Ready
  }

  function OpsAfter(s: State, r: Request, entropy: seq<byte>, db: Db): seq<Op> {
    match OpOf(r, entropy, db)
    case None => s.ops
    case Some(op) => s.ops + [op]
  }

  function Turn(s: State, c: Conn, stage: Stage): map<Conn, Client>
    requires c in s.clients
  {
    s.clients[c := s.clients[c].(stage := stage)]
  }

  /** A handler that removes its descriptor from the list also removes the role recorded under it. */
  ghost function Served(s: State, x: Acceptor.Step): State
    requires Acceptor.Enabled(s.server, x)
  {
    s.(server := Acceptor.Next(s.server, x),
       clients := if x.Accept? then s.clients[x.conn := Client(Starting, [])] else s.clients,
       roles := if x.Remove? then s.roles - {Fd(s, x.conn)} else s.roles)
  }

  ghost function Started(w: World, s: State, c: Conn, ok: bool): State
    requires Acceptor.In(s.server, c, Acceptor.Serving) && c in s.clients && !s.server.place.Terminated?
  {
    s.(server := if SetsUp(w, s, c, ok) then s.server else Acceptor.Next(s.server, Acceptor.Abandon(c)),
       clients := if SetsUp(w, s, c, ok) then Turn(s, c, Ready) else s.clients,
       tls := if w.tls && Fd(s, c) !in s.tls then s.tls[Fd(s, c) := ok] else s.tls)
  }

  function Proceed(w: World, s: State, c: Conn, r: Request, entropy: seq<byte>, db: Db): State
    requires c in s.clients
  {
    s.(clients := Turn(s, c, StageAfter(w, s, r, entropy, db)), ops := OpsAfter(s, r, entropy, db))
  }

  function Record(s: State, c: Conn): State
    requires c in s.clients && s.clients[c].stage.Tagging?
  {
    var g := s.clients[c].stage.grant;
    s.(clients := s.clients[c := Client(Ready, s.clients[c].tagged + [g])], roles := s.roles[Fd(s, c) := RoleText(g.role)])
  }

  function Part(s: State, c: Conn): State
    requires c in s.clients
  {
    s.(clients := Turn(s, c, Parted), tls := s.tls - {Fd(s, c)})
  }

  ghost function Next(w: World, s: State, step: Step): State
    requires Enabled(w, s, step)
  {
    match step
    case Serve(x) => Served(s, x)
    case SetUp(c, ok) => Started(w, s, c, ok)
    case Handle(c, kind, body, entropy, db) => Proceed(w, s, c, Decode(kind, body), entropy, db)
    case Tag(c) => Record(s, c)
    case EndSession(c) => Part(s, c)
  }

  ghost predicate Possible(w: World, s: State, steps: seq<Step>)
    decreases |steps|
  {
    steps == [] || (Enabled(w, s, steps[0]) && Possible(w, Next(w, s, steps[0]), steps[1..]))
  }

  ghost function After(w: World, s: State, steps: seq<Step>): State
    requires Possible(w, s, steps)
    decreases |steps|
  {
    if steps == [] then s else After(w, Next(w, s, steps[0]), steps[1..])
  }

  /** The steps a request takes amount to one uninterrupted call of the controller. */
  lemma RequestAsOneCall(w: World, s: State, c: Conn, kind: byte, body: Json, entropy: seq<byte>, db: Db)
    requires Enabled(w, s, Handle(c, kind, body, entropy, db))
    ensures var users, r := Run(w.digest, w.salts, s.ops), Decode(kind, body);
            var handled := Next(w, s, Handle(c, kind, body, entropy, db));
            && Run(w.digest, w.salts, handled.ops) == UsersAfter(users, w.digest, r, entropy, db)
            && handled.roles == s.roles && handled.server == s.server
            && if r.LogIn? && ReplyTo(users, w.digest, r, entropy, db).LoggedIn? then
                 && Enabled(w, handled, Tag(c))
                 && Next(w, handled, Tag(c)).roles ==
                    s.roles[Fd(s, c) := RoleText(ReplyTo(users, w.digest, r, entropy, db).role)]
               else At(handled, c, Ready)
  {
    hide Login, Register, Approve, Decode, RoleText, Acceptor.Next, Acceptor.Enabled;
    var r := Decode(kind, body);
    if OpOf(r, entropy, db).Some? {
      var op := OpOf(r, entropy, db).value;
      assert (s.ops + [op])[..|s.ops|] == s.ops;
    }
  }

  // ---- invariants ----

  /** A registered connection has this descriptor. */
  ghost predicate Held(s: State, fd: int) {
    exists c :: Acceptor.Registered(s.server, c) && s.server.conns[c].fd == fd
  }

  function Latest(client: Client): Grant
    requires client.tagged != []
  {
    client.tagged[|client.tagged| - 1]
  }

  /** The role recorded under the descriptor is that of the latest recorded login. */
  ghost predicate RoleMatches(s: State, c: Conn) {
    c in s.clients &&
    if s.clients[c].tagged == [] then Fd(s, c) !in s.roles
    else Fd(s, c) in s.roles && s.roles[Fd(s, c)] == RoleText(Latest(s.clients[c]).role)
  }

  ghost predicate Roles(s: State) {
    && (forall fd :: fd in s.roles ==> Held(s, fd) && (s.roles[fd] == "admin" || s.roles[fd] == "user"))
    && (forall c :: Acceptor.Open(s.server, c) && c !in s.server.stillListed ==> RoleMatches(s, c))
  }

  /** The credentials open the account with this role now. */
  predicate StillGood(w: World, s: State, g: Grant) {
    Login(Run(w.digest, w.salts, s.ops), w.digest, g.name, g.password, Works) == LoggedIn(g.role)
  }

  ghost predicate ClientGood(w: World, s: State, client: Client) {
    && (forall g <- client.tagged :: StillGood(w, s, g))
    && (client.stage.Tagging? ==> StillGood(w, s, client.stage.grant))
  }

  ghost predicate GrantsGood(w: World, s: State) {
    forall c :: c in s.clients ==> ClientGood(w, s, s.clients[c])
  }

  ghost predicate Inv(w: World, s: State) {
    && Acceptor.Inv(s.server) && s.clients.Keys == s.server.conns.Keys && GrantsGood(w, s)
    && (s.server.place.Terminated? || Roles(s))
  }

  // ---- every step keeps them ----

  /** A step either leaves the server alone or is one of its steps. */
  lemma ServerMoves(w: World, s: State, step: Step)
    requires Enabled(w, s, step)
    ensures var s', x := Next(w, s, step), ServerStep(w, s, step);
            if x.None? then s'.server == s.server
            else Acceptor.Enabled(s.server, x.value) && s'.server == Acceptor.Next(s.server, x.value)
                 && (x.value.Accept? ==> step == Serve(x.value))
  {
    hide Acceptor.Next, Decode, StageAfter, OpsAfter, Acceptor.Open;
  }

  lemma ServerKept(w: World, s: State, step: Step)
    requires Acceptor.Inv(s.server) && Enabled(w, s, step)
    ensures var s' := Next(w, s, step);
            && Acceptor.Inv(s'.server)
            && s.server.stillListed <= s'.server.stillListed && s.server.unjoined <= s'.server.unjoined
            && (!s'.server.place.Terminated? ==> !s.server.place.Terminated?)
  {
    ServerMoves(w, s, step);
    hide Acceptor.Inv, Next, Acceptor.Next;
    var x := ServerStep(w, s, step);
    if x.Some? {
      Acceptor.InvKept(s.server, x.value);
      Acceptor.HistoryGrows(s.server, x.value);
    }
  }

  /** Clients are never forgotten and keep their recorded logins. */
  lemma TagsKept(w: World, s: State, step: Step)
    requires Enabled(w, s, step)
    ensures var s' := Next(w, s, step);
            && s'.clients.Keys == s.clients.Keys + (if step.Serve? && step.step.Accept? then {step.step.conn} else {})
            && s.ops <= s'.ops
            && (forall c :: c in s.clients && !(step.Serve? && step.step.Accept? && step.step.conn == c)
                  ==> s.clients[c].tagged <= s'.clients[c].tagged)
  {
    hide Acceptor.Next, Acceptor.Enabled, Decode, StageAfter, RoleText, SetsUp;
  }

  lemma ClientsKept(w: World, s: State, step: Step)
    requires s.clients.Keys == s.server.conns.Keys && Enabled(w, s, step)
    ensures var s' := Next(w, s, step);
            && s'.clients.Keys == s'.server.conns.Keys && s.ops <= s'.ops
            && (forall c :: c in s.clients ==> s.clients[c].tagged <= s'.clients[c].tagged && Fd(s', c) == Fd(s, c))
  {
    ServerMoves(w, s, step);
    TagsKept(w, s, step);
    hide Next, Acceptor.Next;
    if ServerStep(w, s, step).Some? {
      Acceptor.HistoryGrows(s.server, ServerStep(w, s, step).value);
    }
  }

  lemma NotPending(w: World, s: State, g: Grant)
    requires StillGood(w, s, g)
    ensures g.role != Pending
  {
    hide Run;
  }

  /** A recorded role belongs to a descriptor of the list, as long as none has been given out too early. */
  lemma HeldIsListed(s: State, fd: int)
    requires Acceptor.Inv(s.server) && !s.server.place.Terminated? && s.server.stillListed == {} && Held(s, fd)
    ensures fd in s.server.list
  {
    var c :| Acceptor.Registered(s.server, c) && s.server.conns[c].fd == fd;
    assert Acceptor.Entry(s.server, c);
    CountMeansIn(s.server.list, fd);
  }

  /** Whoever stays registered holds its descriptor. */
  lemma StillHeld(s: State, s': State, fd: int)
    requires Held(s, fd)
    requires forall c :: Acceptor.Registered(s.server, c) && Fd(s, c) == fd ==> Acceptor.Registered(s'.server, c) && Fd(s', c) == fd
    ensures Held(s', fd)
  {
    var c :| Acceptor.Registered(s.server, c) && s.server.conns[c].fd == fd;
    assert Acceptor.Registered(s'.server, c);
  }

  lemma AcceptKeepsRoles(s: State, c: Conn, fd: int)
    requires Acceptor.Inv(s.server) && Roles(s) && s.clients.Keys == s.server.conns.Keys
    requires Acceptor.Enabled(s.server, Acceptor.Accept(c, fd))
    ensures Roles(Served(s, Acceptor.Accept(c, fd)))
  {
    var s' := Served(s, Acceptor.Accept(c, fd));
    assert s.server.stillListed == {} && !s.server.place.Terminated?;
    if fd in s.roles {
      HeldIsListed(s, fd);
    }
    hide Acceptor.Inv, RoleText;
    forall x | x in s'.roles
      ensures Held(s', x)
    {
      StillHeld(s, s', x);
    }
    assert forall o :: Acceptor.Open(s'.server, o) ==> o == c || Acceptor.Open(s.server, o);
  }

  lemma RemoveKeepsRoles(s: State, c: Conn)
    requires Acceptor.Inv(s.server) && Roles(s) && Acceptor.Enabled(s.server, Acceptor.Remove(c))
    ensures Roles(Served(s, Acceptor.Remove(c)))
  {
    var s', fd := Served(s, Acceptor.Remove(c)), s.server.conns[c].fd;
    assert Acceptor.Registered(s.server, c);
    hide RoleText, Without, Count;
    forall x | x in s'.roles
      ensures Held(s', x)
    {
      StillHeld(s, s', x);
    }
    forall o | Acceptor.Open(s'.server, o) && o !in s'.server.stillListed
      ensures RoleMatches(s', o)
    {
      assert Acceptor.Open(s.server, o) && Acceptor.Entry(s.server, o);
    }
  }

  /** The other steps of the server. */
  lemma SameRoles(s: State, s': State)
    requires Roles(s) && s'.roles == s.roles && s'.server.stillListed == s.server.stillListed
    requires forall c :: Acceptor.Registered(s.server, c) ==> Acceptor.Registered(s'.server, c)
    requires forall c :: Acceptor.Open(s'.server, c) ==> Acceptor.Open(s.server, c)
    requires forall c :: c in s.clients ==> c in s'.clients && s'.clients[c].tagged == s.clients[c].tagged && Fd(s', c) == Fd(s, c)
    requires s.clients.Keys == s.server.conns.Keys
    ensures Roles(s')
  {
    hide RoleText;
    forall x | x in s'.roles
      ensures Held(s', x)
    {
      StillHeld(s, s', x);
    }
  }

  lemma ServeKeepsRoles(s: State, x: Acceptor.Step)
    requires Acceptor.Inv(s.server) && Roles(s) && s.clients.Keys == s.server.conns.Keys && Acceptor.Enabled(s.server, x)
    requires !Served(s, x).server.place.Terminated?
    ensures Roles(Served(s, x))
  {
    hide Roles;
    if x.Accept? {
      AcceptKeepsRoles(s, x.conn, x.fd);
    } else if x.Remove? {
      RemoveKeepsRoles(s, x.conn);
    } else {
      OthersStay(s.server, x);
      Acceptor.HistoryGrows(s.server, x);
      hide Acceptor.Inv, Acceptor.Enabled, Acceptor.Next, Acceptor.Open, Acceptor.Registered;
      SameRoles(s, Served(s, x));
    }
  }

  lemma OthersStay(server: Acceptor.State, x: Acceptor.Step)
    requires Acceptor.Inv(server) && Acceptor.Enabled(server, x) && !x.Accept? && !x.Remove?
    ensures forall c :: Acceptor.Registered(server, c) ==> Acceptor.Registered(Acceptor.Next(server, x), c)
    ensures forall c :: Acceptor.Open(Acceptor.Next(server, x), c) ==> Acceptor.Open(server, c)
  {
    hide Acceptor.Kernel, Acceptor.Threads, Acceptor.Doom, Acceptor.Entries;
  }

  lemma StartKeepsRoles(w: World, s: State, c: Conn, ok: bool)
    requires Acceptor.Inv(s.server) && Roles(s) && s.clients.Keys == s.server.conns.Keys && Enabled(w, s, SetUp(c, ok))
    ensures Roles(Started(w, s, c, ok))
  {
    hide Roles, Acceptor.Inv;
    var s' := Started(w, s, c, ok);
    assert s'.server == s.server || s'.server == Acceptor.Next(s.server, Acceptor.Abandon(c));
    hide SetsUp;
    SameRoles(s, s');
  }

  lemma RecordKeepsRoles(w: World, s: State, c: Conn)
    requires Acceptor.Inv(s.server) && Roles(s) && GrantsGood(w, s) && Enabled(w, s, Tag(c))
    ensures Roles(Record(s, c))
  {
    assert ClientGood(w, s, s.clients[c]);
    NotPending(w, s, s.clients[c].stage.grant);
    hide StillGood, GrantsGood, Acceptor.Inv;
    RecordedHeld(w, s, c);
    forall o | Acceptor.Open(s.server, o) && o !in s.server.stillListed
      ensures RoleMatches(Record(s, c), o)
    {
      RecordMatches(w, s, c, o);
    }
  }

  lemma RecordedHeld(w: World, s: State, c: Conn)
    requires Roles(s) && Enabled(w, s, Tag(c)) && s.clients[c].stage.grant.role != Pending
    ensures var s' := Record(s, c); forall fd :: fd in s'.roles ==> Held(s', fd) && (s'.roles[fd] == "admin" || s'.roles[fd] == "user")
  {
    assert Acceptor.Registered(s.server, c);
    forall fd | fd in Record(s, c).roles
      ensures Held(Record(s, c), fd)
    {
      if fd != Fd(s, c) {
        StillHeld(s, Record(s, c), fd);
      }
    }
  }

  lemma RecordMatches(w: World, s: State, c: Conn, o: Conn)
    requires Acceptor.Inv(s.server) && Roles(s) && Enabled(w, s, Tag(c))
    requires Acceptor.Open(s.server, o) && o !in s.server.stillListed
    ensures RoleMatches(Record(s, c), o)
  {
    hide RoleText, Held, Acceptor.Desk, Acceptor.Threads, Acceptor.Reports, Acceptor.Doom, Acceptor.Entries;
    assert Acceptor.Open(s.server, c) && RoleMatches(s, o);
  }

  lemma RolesKept(w: World, s: State, step: Step)
    requires Inv(w, s) && Enabled(w, s, step) && !Next(w, s, step).server.place.Terminated?
    ensures Roles(Next(w, s, step))
  {
    hide Roles, GrantsGood, Acceptor.Inv, Acceptor.Next, Acceptor.Enabled, StageAfter, OpsAfter, Decode;
    match step
    case Serve(x) => ServeKeepsRoles(s, x);
    case SetUp(c, ok) => StartKeepsRoles(w, s, c, ok);
    case Handle(c, kind, body, entropy, db) => SameRoles(s, Proceed(w, s, c, Decode(kind, body), entropy, db));
    case Tag(c) => RecordKeepsRoles(w, s, c);
    case EndSession(c) => SameRoles(s, Part(s, c));
  }

  lemma GrantPersists(w: World, s: State, s': State, g: Grant)
    requires s.ops <= s'.ops && StillGood(w, s, g)
    ensures StillGood(w, s', g)
  {
    assert s'.ops[..|s.ops|] == s.ops;
    LoginPersists(w.digest, w.salts, s'.ops, |s.ops|, g.name, g.password, g.role);
  }

  lemma NewGrantGood(w: World, s: State, r: Request, entropy: seq<byte>, db: Db)
    requires StageAfter(w, s, r, entropy, db).Tagging?
    ensures StillGood(w, s, StageAfter(w, s, r, entropy, db).grant)
  {
    hide Run;
  }

  lemma ClientStaysGood(w: World, s: State, s': State, client: Client)
    requires s.ops <= s'.ops && ClientGood(w, s, client)
    ensures ClientGood(w, s', client)
  {
    hide StillGood;
    forall g | g in client.tagged
      ensures StillGood(w, s', g)
    {
      GrantPersists(w, s, s', g);
    }
    if client.stage.Tagging? {
      GrantPersists(w, s, s', client.stage.grant);
    }
  }

  lemma GrantsKept(w: World, s: State, step: Step)
    requires GrantsGood(w, s) && Enabled(w, s, step)
    ensures GrantsGood(w, Next(w, s, step))
  {
    hide StageAfter, StillGood, RoleText, Decode, Acceptor.Next, Acceptor.Enabled, SetsUp;
    var s' := Next(w, s, step);
    assert s.ops <= s'.ops;
    forall c | c in s'.clients
      ensures ClientGood(w, s', s'.clients[c])
    {
      if c in s.clients {
        ClientStaysGood(w, s, s', s.clients[c]);
        if step.Handle? && step.conn == c {
          var r := Decode(step.kind, step.body);
          if StageAfter(w, s, r, step.entropy, step.db).Tagging? {
            NewGrantGood(w, s, r, step.entropy, step.db);
            GrantPersists(w, s, s', StageAfter(w, s, r, step.entropy, step.db).grant);
          }
        }
      }
    }
  }

  lemma InvKept(w: World, s: State, step: Step)
    requires Inv(w, s) && Enabled(w, s, step)
    ensures Inv(w, Next(w, s, step))
  {
    ServerKept(w, s, step);
    ClientsKept(w, s, step);
    GrantsKept(w, s, step);
    hide Next, Enabled, Roles, GrantsGood, Acceptor.Inv;
    if !Next(w, s, step).server.place.Terminated? {
      RolesKept(w, s, step);
    }
  }

  lemma InvInitially(w: World)
    ensures Inv(w, Init)
  {
    Acceptor.InvInitially();
  }

  lemma {:induction false} InvReached(w: World, s: State, steps: seq<Step>)
    requires Inv(w, s) && Possible(w, s, steps)
    ensures Inv(w, After(w, s, steps)) && s.server.stillListed <= After(w, s, steps).server.stillListed
    ensures s.server.unjoined <= After(w, s, steps).server.unjoined
    decreases |steps|
  {
    if steps != [] {
      hide Next, Enabled, Inv;
      InvKept(w, s, steps[0]);
      ServerKept(w, s, steps[0]);
      InvReached(w, Next(w, s, steps[0]), steps[1..]);
    }
  }

  // ---- theorems ----

  /** The state at the end of a run. */
  ghost predicate Reached(w: World, s: State) {
    exists steps :: Possible(w, Init, steps) && s == After(w, Init, steps)
  }

  lemma ReachedInv(w: World, s: State)
    requires Reached(w, s)
    ensures Inv(w, s)
  {
    var steps :| Possible(w, Init, steps) && s == After(w, Init, steps);
    hide Possible, After, Inv;
    InvInitially(w);
    InvReached(w, Init, steps);
  }

  /** The process is there to serve this connection, whose descriptor was not still in the list when accept returned it. */
  predicate Undisturbed(s: State, c: Conn) {
    !s.server.place.Terminated? && Acceptor.Open(s.server, c) && c !in s.server.stillListed
  }

  /** Recorded roles are those of registered connections, so a descriptor that is no longer listed is handed out without a role. */
  lemma RolesOfRegistered(w: World, s: State, fd: int)
    requires Reached(w, s) && !s.server.place.Terminated?
    ensures fd in s.roles ==> Held(s, fd)
    ensures forall c :: Enabled(w, s, Serve(Acceptor.Accept(c, fd))) && fd !in s.server.list ==> fd !in s.roles
  {
    ReachedInv(w, s);
    hide Reached, GrantsGood;
    if s.server.place.Waiting? && fd in s.roles {
      HeldIsListed(s, fd);
    }
  }

  /** The latest recorded login of the connection is enough. */
  ghost predicate Cleared(s: State, c: Conn, minRole: string) {
    && Acceptor.Registered(s.server, c) && c in s.clients
    && s.clients[c].tagged != [] && Meets(RoleText(Latest(s.clients[c]).role), minRole)
  }

  lemma SentOnce(fds: seq<int>, choose: int -> Option<Packet>, fd: int)
    requires Count(fds, fd) == 1
    ensures For(Addressed(fds, choose), fd) == if choose(fd).Some? then [choose(fd).value] else []
  {
    SentAsRegistered(fds, choose, fd);
    if choose(fd).Some? {
      assert Repeat(choose(fd).value, 1) == Repeat(choose(fd).value, 0) + [choose(fd).value];
    }
  }


  /** What the tables hold of an undisturbed connection. */
  lemma OwnEntry(w: World, s: State, c: Conn)
    requires Reached(w, s) && Undisturbed(s, c)
    ensures c in s.clients && Count(s.server.list, Fd(s, c)) == (if Acceptor.Registered(s.server, c) then 1 else 0)
    ensures Fd(s, c) in s.roles <==> s.clients[c].tagged != []
    ensures s.clients[c].tagged != [] ==>
              && Latest(s.clients[c]).role != Pending
              && s.roles[Fd(s, c)] == RoleText(Latest(s.clients[c]).role)
  {
    ReachedInv(w, s);
    hide Reached, RoleText;
    Acceptor.OwnEntryIsOnce(s.server, c);
    hide Acceptor.Inv, Count;
    assert RoleMatches(s, c) && ClientGood(w, s, s.clients[c]);
    if s.clients[c].tagged != [] {
      assert Latest(s.clients[c]) in s.clients[c].tagged;
      NotPending(w, s, Latest(s.clients[c]));
    }
  }

  lemma NotSent(fds: seq<int>, choose: int -> Option<Packet>, fd: int)
    requires Count(fds, fd) == 0
    ensures For(Addressed(fds, choose), fd) == []
  {
    SentAsRegistered(fds, choose, fd);
  }

  /**
    * A broadcast limited to a role is sent exactly once to each undisturbed connection whose latest recorded
    * login on that same connection is enough, not at all to the other undisturbed ones, and not at all to
    * descriptors of no registered connection.
    */
  lemma RoleBroadcastReaches(w: World, s: State, packet: Packet, minRole: string)
    requires Reached(w, s) && !s.server.place.Terminated?
    ensures var sent := Addressed(s.server.list, ToRole(s.roles, packet, minRole));
            && (forall c :: Undisturbed(s, c) ==> For(sent, Fd(s, c)) == if Cleared(s, c, minRole) then [packet] else [])
            && (forall fd :: !Held(s, fd) ==> For(sent, fd) == [])
  {
    hide Undisturbed, Addressed, For, Meets, RoleText, Count, Reached, Held;
    var choose := ToRole(s.roles, packet, minRole);
    forall c | Undisturbed(s, c)
      ensures For(Addressed(s.server.list, choose), Fd(s, c)) == if Cleared(s, c, minRole) then [packet] else []
    {
      OwnEntry(w, s, c);
      if Acceptor.Registered(s.server, c) {
        SentOnce(s.server.list, choose, Fd(s, c));
      } else {
        NotSent(s.server.list, choose, Fd(s, c));
      }
    }
    forall fd | !Held(s, fd)
      ensures For(Addressed(s.server.list, choose), fd) == []
    {
      NotListed(w, s, fd);
      NotSent(s.server.list, choose, fd);
    }
  }

  lemma NotListed(w: World, s: State, fd: int)
    requires Reached(w, s) && !s.server.place.Terminated? && !Held(s, fd)
    ensures Count(s.server.list, fd) == 0
  {
    ReachedInv(w, s);
    CountMeansIn(s.server.list, fd);
    hide Count, Acceptor.Kernel, Acceptor.Desk, Acceptor.Threads, Acceptor.Reports, Acceptor.Doom, Roles, GrantsGood, Reached;
  }

  /** Images go to exactly the undisturbed connections with a recorded login, status reports in the version for their role. */
  lemma LoggedInReached(w: World, s: State, image: Packet, forUser: Packet, forAdmin: Packet, c: Conn)
    requires Reached(w, s) && Undisturbed(s, c) && Acceptor.Registered(s.server, c)
    ensures c in s.clients
    ensures For(Addressed(s.server.list, ToTagged(s.roles, image)), Fd(s, c)) ==
            if s.clients[c].tagged == [] then [] else [image]
    ensures For(Addressed(s.server.list, ByRole(s.roles, forUser, forAdmin)), Fd(s, c)) ==
            if s.clients[c].tagged == [] then []
            else if Latest(s.clients[c]).role == Admin then [forAdmin]
            else [forUser]
  {
    OwnEntry(w, s, c);
    hide Reached, Undisturbed, Addressed, For, Count;
    SentOnce(s.server.list, ToTagged(s.roles, image), Fd(s, c));
    SentOnce(s.server.list, ByRole(s.roles, forUser, forAdmin), Fd(s, c));
  }

  /** A recorded role is never out of date: it is the role of the account now. */
  lemma RoleNeverStale(w: World, s: State, c: Conn, g: Grant)
    requires Reached(w, s) && c in s.clients && g in s.clients[c].tagged
    ensures StillGood(w, s, g)
    ensures var users := Run(w.digest, w.salts, s.ops);
            Bound(g.name) in users && users[Bound(g.name)].role == g.role != Pending
    ensures Injective(w.digest) ==>
              exists a :: Opens(w.salts, s.ops, a, g.name, g.password) && g.role == RoleNow(w.salts, s.ops, a)
  {
    ReachedInv(w, s);
    hide Reached, Run;
    assert ClientGood(w, s, s.clients[c]);
    if Injective(w.digest) {
      LoginExactly(w.digest, w.salts, s.ops, g.name, g.password, Works, g.role);
    }
  }

  /** What is limited to administrators is sent to an undisturbed connection only if it gave the seeded administrator's credentials. */
  lemma AdministratorsOnly(w: World, s: State, c: Conn, packet: Packet)
    requires Reached(w, s) && Injective(w.digest) && Undisturbed(s, c)
    requires For(Addressed(s.server.list, ToRole(s.roles, packet, "admin")), Fd(s, c)) != []
    ensures c in s.clients && s.clients[c].tagged != []
    ensures var g := Latest(s.clients[c]);
            Bound(g.name) == "admin_alpha" && g.password == "pass_admin_alpha"
  {
    RoleBroadcastReaches(w, s, packet, "admin");
    RoleTexts();
    GrantedToAdministrator(w, s, c, Latest(s.clients[c]));
  }

  lemma RoleTexts()
    ensures forall r :: Meets(RoleText(r), "admin") <==> r == Admin
    ensures Meets("admin", "user") && Meets("user", "user")
  {
  }

  lemma GrantedToAdministrator(w: World, s: State, c: Conn, g: Grant)
    requires Reached(w, s) && Injective(w.digest) && c in s.clients && g in s.clients[c].tagged && g.role == Admin
    ensures Bound(g.name) == "admin_alpha" && g.password == "pass_admin_alpha"
  {
    RoleNeverStale(w, s, c, g);
    AdministratorsAreSeeded(w.digest, w.salts, s.ops, Bound(g.name));
    var a :| Opens(w.salts, s.ops, a, g.name, g.password);
    RunTells(w.digest, w.salts, s.ops);
    SeedsStay(w.salts, s.ops);
    var accounts := Created(w.salts, s.ops);
    assert accounts[0] == Seeds(w.salts)[0];
    assert accounts[0].name == "admin_alpha" && accounts[0].password == "pass_admin_alpha";
    hide Created, Seeds, Run, Reached;
    NamesIdentify(accounts, a, accounts[0]);
  }

  // ---- exactly when ----

  /** A connection gets what it is meant to: once entered, everything sent to all once and everything limited to a role iff it is cleared; before that nothing. */
  ghost predicate Right(s: State, c: Conn) {
    !s.server.place.Terminated? && Acceptor.Open(s.server, c) ==>
      && (forall packet :: For(Addressed(s.server.list, ToAll(packet)), Fd(s, c)) ==
                           if Acceptor.Registered(s.server, c) then [packet] else [])
      && (forall packet, minRole :: For(Addressed(s.server.list, ToRole(s.roles, packet, minRole)), Fd(s, c)) ==
                                    if Cleared(s, c, minRole) then [packet] else [])
  }

  ghost predicate AlwaysRight(w: World, s: State, steps: seq<Step>, c: Conn)
    requires Possible(w, s, steps)
    decreases |steps|
  {
    Right(s, c) && (steps == [] || AlwaysRight(w, Next(w, s, steps[0]), steps[1..], c))
  }

  lemma UndisturbedIsRight(w: World, s: State, c: Conn)
    requires Inv(w, s) && c !in s.server.stillListed
    ensures Right(s, c)
  {
    hide Addressed, For, Meets, RoleText, GrantsGood, Acceptor.Inv, Count;
    if !s.server.place.Terminated? && Acceptor.Open(s.server, c) {
      Acceptor.OwnEntryIsOnce(s.server, c);
      assert RoleMatches(s, c);
      var list, fd := s.server.list, Fd(s, c);
      forall choose: int -> Option<Packet>
        ensures For(Addressed(list, choose), fd) ==
                if Acceptor.Registered(s.server, c) && choose(fd).Some? then [choose(fd).value] else []
      {
        if Acceptor.Registered(s.server, c) {
          SentOnce(list, choose, fd);
        } else {
          NotSent(list, choose, fd);
        }
      }
      assert forall packet :: ToAll(packet)(fd) == Some(packet);
      hide Acceptor.Open, Roles;
      assert forall packet, minRole :: ToRole(s.roles, packet, minRole)(fd).Some? ==> ToRole(s.roles, packet, minRole)(fd) == Some(packet);
    }
  }

  lemma {:induction false} RepeatLength(packet: Packet, n: nat)
    ensures |Repeat(packet, n)| == n
  {
    if n > 0 {
      RepeatLength(packet, n - 1);
    }
  }

  lemma ListedAtAccept(w: World, s: State, step: Step, c: Conn)
    requires Enabled(w, s, step) && c !in s.server.stillListed && c in Next(w, s, step).server.stillListed
    ensures var s' := Next(w, s, step);
            && Acceptor.In(s'.server, c, Acceptor.Accepted) && !s'.server.place.Terminated? && Fd(s', c) in s'.server.list
  {
    ServerMoves(w, s, step);
    hide Next, Enabled, Acceptor.Enabled;
    var x := ServerStep(w, s, step).value;
    Acceptor.HistoryGrows(s.server, x);
    assert x == Acceptor.Accept(c, x.fd);
  }

  /** Before it is entered, a connection whose descriptor is listed is sent what goes to all nevertheless. */
  lemma ListedIsWrong(w: World, s: State, step: Step, c: Conn)
    requires Enabled(w, s, step) && c !in s.server.stillListed && c in Next(w, s, step).server.stillListed
    ensures !Right(Next(w, s, step), c)
  {
    hide Next, Enabled, For, Addressed, Count, Cleared;
    ListedAtAccept(w, s, step, c);
    var s', packet := Next(w, s, step), Picture(Null, []);
    var fd := Fd(s', c);
    CountMeansIn(s'.server.list, fd);
    SentAsRegistered(s'.server.list, ToAll(packet), fd);
    RepeatLength(packet, Count(s'.server.list, fd));
    assert |For(Addressed(s'.server.list, ToAll(packet)), fd)| > 0;
  }

  lemma {:induction false} RightUntilListed(w: World, s: State, steps: seq<Step>, c: Conn)
    requires Inv(w, s) && Possible(w, s, steps) && c !in s.server.stillListed
    ensures AlwaysRight(w, s, steps, c) <==> c !in After(w, s, steps).server.stillListed
    decreases |steps|
  {
    hide Next, Enabled, Inv, Right;
    UndisturbedIsRight(w, s, c);
    if steps != [] {
      var s' := Next(w, s, steps[0]);
      InvKept(w, s, steps[0]);
      if c in s'.server.stillListed {
        ListedIsWrong(w, s, steps[0], c);
        InvReached(w, s', steps[1..]);
      } else {
        RightUntilListed(w, s', steps[1..], c);
      }
    }
  }

  /** The steps of the accept loop and of the ends of the handlers in a run. */
  ghost function ServerSteps(w: World, s: State, steps: seq<Step>): seq<Acceptor.Step>
    requires Possible(w, s, steps)
    decreases |steps|
  {
    if steps == [] then []
    else (match ServerStep(w, s, steps[0]) case None => [] case Some(x) => [x]) + ServerSteps(w, Next(w, s, steps[0]), steps[1..])
  }

  lemma {:induction false} RunOfServer(w: World, s: State, steps: seq<Step>)
    requires Possible(w, s, steps)
    ensures Acceptor.Possible(s.server, ServerSteps(w, s, steps))
    ensures After(w, s, steps).server == Acceptor.After(s.server, ServerSteps(w, s, steps))
    decreases |steps|
  {
    hide Enabled, Next, ServerStep, Acceptor.Next, Acceptor.Enabled;
    if steps != [] {
      var x, rest := ServerStep(w, s, steps[0]), ServerSteps(w, Next(w, s, steps[0]), steps[1..]);
      ServerMoves(w, s, steps[0]);
      RunOfServer(w, Next(w, s, steps[0]), steps[1..]);
      if x.Some? {
        assert ([x.value] + rest)[1..] == rest;
      } else {
        assert [] + rest == rest;
      }
    }
  }

  /**
    * Exactly when a connection is served right, in every run the kernel allows: at every moment at which it is open,
    * what is broadcast is sent to it as it should be, if and only if accept did not return its descriptor while that
    * was still in the list. Nobody is ever served wrong in exactly the runs in which that never happens.
    */
  lemma RightExactlyUnlessListed(w: World, steps: seq<Step>, c: Conn)
    requires Possible(w, Init, steps)
    ensures AlwaysRight(w, Init, steps, c) <==> c !in After(w, Init, steps).server.stillListed
    ensures Acceptor.Possible(Acceptor.Init, ServerSteps(w, Init, steps))
    ensures Acceptor.NoneListed(Acceptor.Init, ServerSteps(w, Init, steps)) <==> After(w, Init, steps).server.stillListed == {}
  {
    hide Possible, After, AlwaysRight, Inv, ServerSteps, Acceptor.Possible, Acceptor.After, Acceptor.NoneListed;
    InvInitially(w);
    RightUntilListed(w, Init, steps, c);
    RunOfServer(w, Init, steps);
    Acceptor.NoneListedFrom(Acceptor.Init, ServerSteps(w, Init, steps));
  }

  /**
    * Exactly when the process survives, in every run: it has ended if and only if accept returned a descriptor one of
    * whose handlers had not been joined in a pass before, unless the accept thread is still on its way to the
    * assignment. As long as that has not happened everybody is served right at every moment.
    */
  lemma AliveAndRight(w: World, steps: seq<Step>, c: Conn)
    requires Possible(w, Init, steps)
    ensures Acceptor.Possible(Acceptor.Init, ServerSteps(w, Init, steps))
    ensures var s, careful := After(w, Init, steps), Acceptor.Careful(Acceptor.Init, ServerSteps(w, Init, steps));
            && (s.server.place.Terminated? <==> !careful && !Acceptor.Underway(s.server))
            && (careful ==> AlwaysRight(w, Init, steps, c))
  {
    hide Possible, After, AlwaysRight, Inv, ServerSteps, Acceptor.Possible, Acceptor.After, Acceptor.Careful;
    InvInitially(w);
    RightUntilListed(w, Init, steps, c);
    RunOfServer(w, Init, steps);
    Acceptor.AliveExactly(ServerSteps(w, Init, steps));
  }

  // ---- TLS sessions ----

  /** The session under a descriptor is that of a handler that has not parted with it, or gave up. */
  ghost predicate Owner(s: State, c: Conn, fd: int) {
    && Acceptor.Spawned(s.server, c) && s.server.conns[c].fd == fd && c in s.clients
    && (s.server.conns[c].phase.Abandoned? || s.clients[c].stage.Ready? || s.clients[c].stage.Tagging?)
  }

  ghost predicate Owned(s: State) {
    && (forall fd :: fd in s.tls ==> exists c :: Owner(s, c, fd))
    && (forall c :: c in s.clients && (Acceptor.In(s.server, c, Acceptor.Finished) || Acceptor.In(s.server, c, Acceptor.Joined))
          ==> s.clients[c].stage.Parted?)
  }

  lemma OwnerStays(w: World, s: State, step: Step, c: Conn, fd: int)
    requires Acceptor.Inv(s.server) && Owned(s) && s.clients.Keys == s.server.conns.Keys && Enabled(w, s, step)
    requires Owner(s, c, fd) && !(step.EndSession? && step.conn == c)
    ensures Owner(Next(w, s, step), c, fd)
  {
    hide Acceptor.Inv, Acceptor.Next, Acceptor.Enabled, Acceptor.Open, Decode, StageAfter, SetsUp, RoleText;
    ServerMoves(w, s, step);
    var x := ServerStep(w, s, step);
    if x.Some? {
      Acceptor.HandlersAdvance(s.server, x.value, c);
      OnlyFinishedJoin(s.server, x.value, c);
      if x.value.Accept? {
        AcceptIsNew(s.server, x.value);
      }
    }
  }

  lemma AcceptIsNew(server: Acceptor.State, x: Acceptor.Step)
    requires Acceptor.Enabled(server, x) && x.Accept?
    ensures x.conn !in server.conns
  {
  }

  /** A handler is reported as finished only by itself, and only then joined. */
  lemma OnlyFinishedJoin(server: Acceptor.State, x: Acceptor.Step, c: Conn)
    requires Acceptor.Inv(server) && Acceptor.Enabled(server, x) && c in server.conns
    ensures Acceptor.In(Acceptor.Next(server, x), c, Acceptor.Joined) ==>
              Acceptor.In(server, c, Acceptor.Joined) || Acceptor.In(server, c, Acceptor.Finished)
    ensures Acceptor.In(Acceptor.Next(server, x), c, Acceptor.Finished) ==>
              Acceptor.In(server, c, Acceptor.Finished) || x == Acceptor.Finish(c)
  {
    hide Acceptor.Kernel, Acceptor.Reports, Acceptor.Doom, Acceptor.Entries, Without, Count, Acceptor.Open;
  }

  lemma OwnedKept(w: World, s: State, step: Step)
    requires Acceptor.Inv(s.server) && Owned(s) && s.clients.Keys == s.server.conns.Keys && Enabled(w, s, step)
    ensures Owned(Next(w, s, step))
  {
    var s' := Next(w, s, step);
    forall fd | fd in s'.tls
      ensures exists c :: Owner(s', c, fd)
    {
      if fd in s.tls {
        var c :| Owner(s, c, fd);
        if step.EndSession? {
          SessionGone(w, s, step, fd);
        }
        OwnerStays(w, s, step, c, fd);
      } else {
        NewOwner(w, s, step, fd);
      }
    }
    forall c | c in s'.clients && (Acceptor.In(s'.server, c, Acceptor.Finished) || Acceptor.In(s'.server, c, Acceptor.Joined))
      ensures s'.clients[c].stage.Parted?
    {
      StaysParted(w, s, step, c);
    }
    hide Next, Enabled;
  }

  lemma SessionGone(w: World, s: State, step: Step, fd: int)
    requires Enabled(w, s, step) && fd in Next(w, s, step).tls && step.EndSession?
    ensures Fd(s, step.conn) != fd
  {
  }

  lemma NewOwner(w: World, s: State, step: Step, fd: int)
    requires Acceptor.Inv(s.server) && Enabled(w, s, step) && fd in Next(w, s, step).tls && fd !in s.tls
    ensures exists c :: Owner(Next(w, s, step), c, fd)
  {
    hide Acceptor.Inv, Decode, StageAfter, RoleText;
    assert step.SetUp?;
    assert Owner(Next(w, s, step), step.conn, fd);
  }

  lemma StaysParted(w: World, s: State, step: Step, c: Conn)
    requires Acceptor.Inv(s.server) && Owned(s) && s.clients.Keys == s.server.conns.Keys && Enabled(w, s, step)
    requires var s' := Next(w, s, step);
             c in s'.clients && (Acceptor.In(s'.server, c, Acceptor.Finished) || Acceptor.In(s'.server, c, Acceptor.Joined))
    ensures Next(w, s, step).clients[c].stage.Parted?
  {
    hide Acceptor.Inv, Acceptor.Next, Acceptor.Enabled, Acceptor.Open, Decode, StageAfter, SetsUp, RoleText;
    ServerMoves(w, s, step);
    var x := ServerStep(w, s, step);
    if x.Some? {
      Acceptor.HistoryGrows(s.server, x.value);
      if x.value.Accept? {
        AcceptIsNew(s.server, x.value);
      }
      if c in s.server.conns {
        OnlyFinishedJoin(s.server, x.value, c);
      } else {
        NewIsAccepted(s.server, x.value, c);
      }
    }
  }

  lemma NewIsAccepted(server: Acceptor.State, x: Acceptor.Step, c: Conn)
    requires Acceptor.Enabled(server, x) && c !in server.conns && c in Acceptor.Next(server, x).conns
    ensures Acceptor.In(Acceptor.Next(server, x), c, Acceptor.Accepted)
  {
    Acceptor.HistoryGrows(server, x);
  }

  lemma {:induction false} OwnedReached(w: World, s: State, steps: seq<Step>)
    requires Inv(w, s) && Owned(s) && Possible(w, s, steps)
    ensures Owned(After(w, s, steps))
    decreases |steps|
  {
    hide Next, Enabled, Owned, Roles, GrantsGood, Acceptor.Inv;
    if steps != [] {
      InvKept(w, s, steps[0]);
      OwnedKept(w, s, steps[0]);
      OwnedReached(w, Next(w, s, steps[0]), steps[1..]);
    }
  }

  /**
    * Every connection has a TLS session of its own: in every careful run, a handler that sets up its connection finds no
    * session under its descriptor.
    */
  lemma OwnSession(w: World, steps: seq<Step>, c: Conn, ok: bool)
    requires Possible(w, Init, steps) && Acceptor.Possible(Acceptor.Init, ServerSteps(w, Init, steps))
    requires Acceptor.Careful(Acceptor.Init, ServerSteps(w, Init, steps))
    requires Enabled(w, After(w, Init, steps), SetUp(c, ok))
    ensures Fd(After(w, Init, steps), c) !in After(w, Init, steps).tls
  {
    hide Possible, After, Inv, ServerSteps, Acceptor.Possible, Acceptor.After, Acceptor.Careful, Next;
    InvInitially(w);
    OwnedReached(w, Init, steps);
    RunOfServer(w, Init, steps);
    var s := After(w, Init, steps);
    var fd := Fd(s, c);
    if fd in s.tls {
      var o :| Owner(s, o, fd);
      Acceptor.OneHandlerPerDescriptor(ServerSteps(w, Init, steps), o, c);
    }
  }

  /** A connection without a TLS session is never joined and keeps its entry in the list. */
  lemma {:induction false} AbandonedStays(w: World, s: State, steps: seq<Step>, c: Conn)
    requires Inv(w, s) && Possible(w, s, steps) && Acceptor.In(s.server, c, Acceptor.Abandoned)
    ensures var server := After(w, s, steps).server;
            && Acceptor.In(server, c, Acceptor.Abandoned) && server.conns[c].fd == s.server.conns[c].fd
            && !Acceptor.AllJoined(server, s.server.conns[c].fd)
            && (!server.place.Terminated? && server.stillListed == {} ==> Count(server.list, s.server.conns[c].fd) == 1)
    decreases |steps|
  {
    hide Next, Enabled, Roles, GrantsGood, Acceptor.Inv, Count;
    if steps == [] {
      Acceptor.AbandonedForGood(s.server, [], c);
    } else {
      var s' := Next(w, s, steps[0]);
      InvKept(w, s, steps[0]);
      ServerMoves(w, s, steps[0]);
      if ServerStep(w, s, steps[0]).Some? {
        Acceptor.HandlersAdvance(s.server, ServerStep(w, s, steps[0]).value, c);
      }
      AbandonedStays(w, s', steps[1..], c);
    }
  }
}
