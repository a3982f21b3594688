/** What the client server does with a message from a Qt client. */
module ClientController {
  import opened Common
  import opened Json
  import opened AuthManager
  import opened QtCommServer
  import InternalClient

  datatype Request =
    | LogIn(name: string, password: string)
    | SignUp(name: string, email: string, password: string)
    | ListWaiting
    | ApproveOne(name: string)
    | UnknownAction
    | Command
    | AskCameras
    | Event
    | Other
    | Malformed

  function DecodeAssign(body: Json): Request {
    var action := Text(body, "action");
    if action.None? then Malformed
    else if action.value == "register" then
      var name, email, password := Text(body, "id"), Text(body, "email"), Text(body, "pw");
      if name.None? || email.None? || password.None? then Malformed
      else SignUp(name.value, email.value, password.value)
    else if action.value == "list_pending" then ListWaiting
    else if action.value == "approve" then
      var target := Text(body, "target_id");
      if target.None? then Malformed else ApproveOne(target.value)
    else UnknownAction
  }

  function Decode(kind: byte, body: Json): Request {
    if kind == LOGIN then
      var name, password := Text(body, "id"), Text(body, "pw");
      if name.None? || password.None? then Malformed else LogIn(name.value, password.value)
    else if kind == ASSIGN then DecodeAssign(body)
    else if kind == DEVICE then Command
    else if kind == CAMERA then AskCameras
    else if kind == AI then Event
    else Other
  }

  /** The operation on the accounts that a request amounts to. */
  function OpOf(r: Request, entropy: seq<byte>, db: Db): Option<Op> {
    match r
    case LogIn(name, password) => Some(DoLogin(name, password, db))
    case SignUp(name, email, password) => Some(DoRegister(name, email, password, entropy, db))
    case ListWaiting => Some(DoList)
    case ApproveOne(name) => Some(DoApprove(name, db))
    case _ => None
  }

  function UsersAfter(users: Users, d: Digest, r: Request, entropy: seq<byte>, db: Db): Users {
    match OpOf(r, entropy, db)
    case None => users
    case Some(op) => Do(users, d, op)
  }

  function ReplyTo(users: Users, d: Digest, r: Request, entropy: seq<byte>, db: Db): Reply
    requires r.LogIn? || r.SignUp? || r.ApproveOne?
  {
    match r
    case LogIn(name, password) => Login(users, d, name, password, db)
    case SignUp(name, email, password) => Register(users, d, name, email, password, entropy, db).1
    case ApproveOne(name) => Approve(users, name, db).1
  }

  predicate Succeeded(reply: Reply) {
    reply.LoggedIn? || reply.Registered? || reply.Approved?
  }

  function RoleText(role: Role): string {
    match role
    case Admin => "admin"
    case User => "user"
    case Pending => "pending"
  }

  /** The wording of a reply to a request about `name`. */
  type Wording = (Reply, string) -> string

  function Result(say: Wording, reply: Reply, name: string): Json {
    if reply.LoggedIn? then
      Object(map["success" := Bool(true), "state" := Str(RoleText(reply.role)), "username" := Str(name)])
    else if Succeeded(reply) then
      Object(map["success" := Bool(true), "message" := Str(say(reply, name))])
    else
      Object(map["success" := Bool(false), "error" := Str(say(reply, name))])
  }

  function Rows(list: seq<(string, string)>): seq<Json> {
    seq(|list|, i requires 0 <= i < |list| =>
      Object(map["username" := Str(list[i].0), "email" := Str(list[i].1)]))
  }

  /** Pending accounts, each once, and all of them if the database works. */
  predicate Lists(users: Users, list: seq<(string, string)>, db: Db) {
    && (forall i, j :: 0 <= i < j < |list| ==> list[i].0 != list[j].0)
    && (forall row <- list :: row.0 in users && users[row.0].role == Pending && users[row.0].email == row.1)
    && (db == Works ==> forall u :: u in users && users[u].role == Pending ==> (u, users[u].email) in list)
  }

  function LoginAnswers(say: Wording, reply: Reply, name: string, cameras: Json): seq<Packet> {
    if reply.LoggedIn? then [Message(SUCCESS, Result(say, reply, name)), Message(CAMERA, cameras)]
    else [Message(FAIL, Result(say, reply, name))]
  }

  function ListResult(say: Wording, list: seq<(string, string)>, db: Db): Json {
    if db == PrepareFails then Result(say, DatabaseError, "")
    else Object(map["success" := Bool(true), "users" := Array(Rows(list))])
  }

  /** What the client that sent the request is answered. */
  function Answers(say: Wording, d: Digest, users: Users, cameras: Json, r: Request,
                   list: seq<(string, string)>, entropy: seq<byte>, db: Db): seq<Packet> {
    match r
    case LogIn(name, _) =>
      LoginAnswers(say, ReplyTo(users, d, r, entropy, db), name, cameras)
    case SignUp(name, _, _) =>
      var reply := ReplyTo(users, d, r, entropy, db);
      [Message(if Succeeded(reply) then SUCCESS else FAIL, Result(say, reply, name))]
    case ListWaiting => [Message(ASSIGN, ListResult(say, list, db))]
    case ApproveOne(name) =>
      var reply := ReplyTo(users, d, r, entropy, db);
      [Message(if Succeeded(reply) then SUCCESS else FAIL, Result(say, reply, name))]
    case UnknownAction => [Message(FAIL, Object(map["error" := Str("Unknown action")]))]
    case AskCameras => [Message(CAMERA, cameras)]
    case Other => [Message(ACK, Object(map["message" := Str("received")]))]
    case _ => []
  }

  /** The sender is told of success exactly when an account was created or approved, or it is logged in. */
  lemma SuccessMeansDone(say: Wording, d: Digest, users: Users, cameras: Json, r: Request,
                         list: seq<(string, string)>, entropy: seq<byte>, db: Db)
    ensures (exists body :: Message(SUCCESS, body) in Answers(say, d, users, cameras, r, list, entropy, db)) <==>
              || UsersAfter(users, d, r, entropy, db) != users
              || (r.LogIn? && Login(users, d, r.name, r.password, db).LoggedIn?)
    ensures (exists body :: Message(FAIL, body) in Answers(say, d, users, cameras, r, list, entropy, db)) <==>
              r.UnknownAction? || ((r.LogIn? || r.SignUp? || r.ApproveOne?)
                                   && !Succeeded(ReplyTo(users, d, r, entropy, db)))
  {
    hide HashPassword, EmailUsed, Hex, Rows;
    var answers := Answers(say, d, users, cameras, r, list, entropy, db);
    if r.LogIn? || r.SignUp? || r.ApproveOne? {
      var reply := ReplyTo(users, d, r, entropy, db);
      assert answers[0] == Message(if Succeeded(reply) then SUCCESS else FAIL, Result(say, reply, r.name));
    } else if answers != [] {
      assert answers == [answers[0]];
    }
  }

  function AllTo(fd: int, packets: seq<Packet>): seq<Delivery> {
    seq(|packets|, i requires 0 <= i < |packets| => Delivery(fd, packets[i]))
  }

  class Controller {
    const auth: Manager
    const qt: Server
    const link: InternalClient.Client
    const say: Wording
    var forwarded: seq<Json>

    constructor (auth: Manager, qt: Server, link: InternalClient.Client, say: Wording)
      ensures this.auth == auth && this.qt == qt && this.link == link && this.say == say && forwarded == []
    {
      this.auth, this.qt, this.link, this.say, forwarded := auth, qt, link, say, [];
    }

    method OnLogin(fd: int, name: string, password: string, db: Db)
      modifies qt
      ensures var reply := Login(auth.users, auth.digest, name, password, db);
              && qt.fds == old(qt.fds)
              && qt.roles == (if reply.LoggedIn? then old(qt.roles)[fd := RoleText(reply.role)] else old(qt.roles))
              && qt.sent == old(qt.sent) +
                            AllTo(fd, LoginAnswers(say, reply, name, link.cachedCameras))
    {
      var reply := auth.LoginUser(name, password, db);
      if reply.LoggedIn? {
        qt.SetClientRole(fd, RoleText(reply.role));
        qt.SendMessage(fd, SUCCESS, Result(say, reply, name));
        qt.SendMessage(fd, CAMERA, link.cachedCameras);
      } else {
        qt.SendMessage(fd, FAIL, Result(say, reply, name));
      }
    }

    method Answer(fd: int, kind: byte, body: Json)
      modifies qt`sent
      ensures qt.sent == old(qt.sent) + AllTo(fd, [Message(kind, body)])
    {
      qt.SendMessage(fd, kind, body);
    }

    /** Returns false where the source lets a type error escape. `linked`: the internal link is up. */
    method OnQtMessage(fd: int, kind: byte, body: Json, entropy: seq<byte>, db: Db, stop: nat, linked: bool)
      returns (handled: bool, ghost list: seq<(string, string)>)
      modifies this, auth, qt
      ensures var r := Decode(kind, body);
              && (handled <==> !r.Malformed?)
              && (r.ListWaiting? ==> Lists(old(auth.users), list, db))
              && auth.users == UsersAfter(old(auth.users), auth.digest, r, entropy, db)
              && qt.fds == old(qt.fds)
              && qt.roles == (if r.LogIn? && ReplyTo(old(auth.users), auth.digest, r, entropy, db).LoggedIn?
                              then old(qt.roles)[fd := RoleText(ReplyTo(old(auth.users), auth.digest, r, entropy, db).role)]
                              else old(qt.roles))
              && qt.sent == old(qt.sent) +
                            (if r.Event? then Addressed(qt.fds, ToAll(Message(AI, body)))
                             else AllTo(fd, Answers(say, auth.digest, old(auth.users), link.cachedCameras, r, list, entropy, db)))
              && forwarded == old(forwarded) + (if r.Command? && linked then [body] else [])
    {
      hide Login, Register, Approve, Decode, Result, Rows, Addressed, RoleText;
      handled, list := true, [];
      var r := Decode(kind, body);
      match r
      case LogIn(name, password) =>
        OnLogin(fd, name, password, db);
      case SignUp(name, email, password) =>
        var reply := auth.RegisterUser(name, email, password, entropy, db);
        Answer(fd, if Succeeded(reply) then SUCCESS else FAIL, Result(say, reply, name));
      case ListWaiting =>
        var ok, rows := auth.ListPendingUsers(db, stop);
        list := rows;
        Answer(fd, ASSIGN, ListResult(say, rows, db));
      case ApproveOne(name) =>
        var reply := auth.ApproveUser(name, db);
        Answer(fd, if Succeeded(reply) then SUCCESS else FAIL, Result(say, reply, name));
      case UnknownAction =>
        Answer(fd, FAIL, Object(map["error" := Str("Unknown action")]));
      case Command =>
        if linked {
          forwarded := forwarded + [body];
        }
      case AskCameras =>
        Answer(fd, CAMERA, link.cachedCameras);
      case Event =>
        qt.Broadcast(AI, body);
      case Other =>
        Answer(fd, ACK, Object(map["message" := Str("received")]));
      case Malformed =>
        handled := false;
    }

    /** A push event from the device server. */
    method Relay(event: InternalClient.Event)
      modifies qt`sent
      ensures qt.sent == old(qt.sent) + RelayedAs(qt.fds, qt.roles, event)
    {
      match event
      case AiEvent(j) => qt.Broadcast(AI, j);
      case MetaEvent(j) => qt.Broadcast(META, j);
      case ImageEvent(meta, jpeg) => qt.BroadcastImage(meta, jpeg);
    }

    /** One pass of the main loop; `server` is the load of this machine. */
    method Refresh(server: Json)
      modifies qt`sent
      ensures qt.sent == old(qt.sent) + Refreshed(qt.fds, qt.roles, link.cachedCameras, link.cachedStatus, server)
    {
      qt.BroadcastToRole(CAMERA, link.cachedCameras, "user");
      qt.BroadcastByRole(AVAILABLE, ForUsers(link.cachedStatus), ForAdmins(link.cachedStatus, server));
    }
  }

  function RelayedAs(fds: seq<int>, roles: map<int, string>, event: InternalClient.Event): seq<Delivery> {
    match event
    case AiEvent(j) => Addressed(fds, ToAll(Message(AI, j)))
    case MetaEvent(j) => Addressed(fds, ToAll(Message(META, j)))
    case ImageEvent(meta, jpeg) => Addressed(fds, ToTagged(roles, Picture(meta, jpeg)))
  }

  function ForUsers(status: Json): Json {
    Object(map["devices" := status])
  }

  function ForAdmins(status: Json, server: Json): Json {
    Object(map["server" := server, "devices" := status])
  }

  function Refreshed(fds: seq<int>, roles: map<int, string>, cameras: Json, status: Json, server: Json): seq<Delivery> {
    Addressed(fds, ToRole(roles, Message(CAMERA, cameras), "user")) +
    Addressed(fds, ByRole(roles, Message(AVAILABLE, ForUsers(status)), Message(AVAILABLE, ForAdmins(status, server))))
  }
}
