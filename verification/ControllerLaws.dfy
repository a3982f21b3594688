/** From a client's message to what it is answered, and from a refresh to what each client gets. */
module ControllerLaws {
  import opened Common
  import opened Json
  import opened AuthManager
  import opened AccountLaws
  import opened AccountReplies
  import opened QtCommServer
  import opened ClientController
  import opened Wire
  import InternalClient
  import InternalServer
  import LinkRequests

  /** The field holds this text; a missing one is empty. */
  predicate Says(body: Json, key: string, text: string) {
    body.Object? && if key in body.fields then body.fields[key] == Str(text) else text == ""
  }

  predicate Textual(body: Json, keys: seq<string>) {
    body.Object? && forall k :: k in keys && k in body.fields ==> body.fields[k].Str?
  }

  /** Which message is which request, for every type and body, by the fields it has to have. */
  lemma DecodeExactly(kind: byte, body: Json, name: string, email: string, password: string)
    ensures var r := Decode(kind, body);
            && (r == LogIn(name, password) <==> kind == 0x01 && Says(body, "id", name) && Says(body, "pw", password))
            && (r == SignUp(name, email, password) <==>
                  kind == 0x08 && Says(body, "action", "register")
                  && Says(body, "id", name) && Says(body, "email", email) && Says(body, "pw", password))
            && (r == ListWaiting <==> kind == 0x08 && Says(body, "action", "list_pending"))
            && (r == ApproveOne(name) <==> kind == 0x08 && Says(body, "action", "approve") && Says(body, "target_id", name))
            && (r == Command <==> kind == 0x04)
            && (r == AskCameras <==> kind == 0x07)
            && (r == Event <==> kind == 0x06)
            && (r == Other <==> kind !in {0x01, 0x04, 0x06, 0x07, 0x08})
  {
  }

  /** The other two: an action that is none of the three, and a field that is read and is not text. */
  lemma DecodeRefused(kind: byte, body: Json)
    ensures var r := Decode(kind, body);
            && (r == UnknownAction <==>
                  kind == 0x08 && Textual(body, ["action"]) && !Says(body, "action", "register")
                  && !Says(body, "action", "list_pending") && !Says(body, "action", "approve"))
            && (r == Malformed <==>
                  || (kind == 0x01 && !Textual(body, ["id", "pw"]))
                  || (kind == 0x08 && !Textual(body, ["action"]))
                  || (kind == 0x08 && Says(body, "action", "register") && !Textual(body, ["id", "email", "pw"]))
                  || (kind == 0x08 && Says(body, "action", "approve") && !Textual(body, ["target_id"])))
  {
  }

  /** The one answer to a request that failed. */
  predicate Refusal(answers: seq<Packet>, text: string) {
    answers == [Message(0x03, Object(map["success" := Bool(false), "error" := Str(text)]))]
  }

  /**
    * A login from message to answer, after any history: the client is told its role and name and is sent the camera
    * list if its password is that of an account that is not waiting for approval, and otherwise one refusal.
    */
  lemma LoginEndToEnd(say: Wording, d: Digest, salts: nat -> seq<byte>, ops: seq<Op>, cameras: Json, body: Json,
                      name: string, password: string, list: seq<(string, string)>, entropy: seq<byte>, db: Db)
    requires Injective(d) && Says(body, "id", name) && Says(body, "pw", password)
    ensures var users, key := Run(d, salts, ops), Bound(name);
            var answers := Answers(say, d, users, cameras, Decode(0x01, body), list, entropy, db);
            var opens := name != "" && password != "" && db == Works
                         && HasPassword(salts, ops, key, password) && !Waits(salts, ops, key);
            && (opens ==>
                  && key in users && users[key].role != Pending
                  && answers == [Message(0x02, Object(map["success" := Bool(true), "username" := Str(name),
                                                          "state" := Str(if users[key].role == Admin then "admin" else "user")])),
                                 Message(0x07, cameras)])
            && (!opens ==> Refusal(answers, say(Login(users, d, name, password, db), name)))
  {
    hide Run, HasPassword, Waits, Decode, Login, Bound, Says, Refusal, Answers, Injective;
    DecodeExactly(0x01, body, name, "", password);
    LoginAnswered(d, salts, ops, name, password, db);
    RoleTold(Run(d, salts, ops), d, name, password, db);
    LoginPackets(say, d, Run(d, salts, ops), cameras, name, password, list, entropy, db);
  }

  lemma RoleTold(users: Users, d: Digest, name: string, password: string, db: Db)
    ensures var reply := Login(users, d, name, password, db);
            if reply.LoggedIn? then Bound(name) in users && users[Bound(name)].role == reply.role != Pending
            else !Succeeded(reply)
  {
    hide HashPassword, Bound;
  }

  lemma LoginPackets(say: Wording, d: Digest, users: Users, cameras: Json, name: string, password: string,
                     list: seq<(string, string)>, entropy: seq<byte>, db: Db)
    ensures var reply := Login(users, d, name, password, db);
            var answers := Answers(say, d, users, cameras, LogIn(name, password), list, entropy, db);
            if reply.LoggedIn? then
              answers == [Message(0x02, Object(map["success" := Bool(true), "username" := Str(name),
                                                   "state" := Str(if reply.role == Admin then "admin" else "user")])),
                          Message(0x07, cameras)]
            else Refusal(answers, say(reply, name))
  {
    hide Login;
    RoleTold(users, d, name, password, db);
    var reply := Login(users, d, name, password, db);
    assert ReplyTo(users, d, LogIn(name, password), entropy, db) == reply;
    assert Answers(say, d, users, cameras, LogIn(name, password), list, entropy, db) == LoginAnswers(say, reply, name, cameras);
    if reply.LoggedIn? {
      var role := Str(RoleText(reply.role));
      assert map["success" := Bool(true), "state" := role, "username" := Str(name)] ==
             map["success" := Bool(true), "username" := Str(name), "state" := role];
    }
  }

  /** A registration and an approval from message to answer: success exactly if that very account was created or approved. */
  lemma AccountsEndToEnd(say: Wording, d: Digest, salts: nat -> seq<byte>, ops: seq<Op>, cameras: Json, body: Json,
                         name: string, email: string, password: string, list: seq<(string, string)>, entropy: seq<byte>, db: Db)
    ensures var users := Run(d, salts, ops);
            var answers := Answers(say, d, users, cameras, Decode(0x08, body), list, entropy, db);
            && (Says(body, "action", "register") && Says(body, "id", name) && Says(body, "email", email)
                && Says(body, "pw", password) ==>
                  var reply := Register(users, d, name, email, password, entropy, db).1;
                  if name != "" && email != "" && password != "" && db == Works
                     && !Clashes(Created(salts, ops), Bound(name), Bound(email))
                  then answers == [Message(0x02, Object(map["success" := Bool(true), "message" := Str(say(reply, name))]))]
                  else Refusal(answers, say(reply, name)))
            && (Says(body, "action", "approve") && Says(body, "target_id", name) ==>
                  var reply := Approve(users, name, db).1;
                  if db == Works && Waits(salts, ops, Bound(name))
                  then answers == [Message(0x02, Object(map["success" := Bool(true), "message" := Str(say(reply, name))]))]
                  else Refusal(answers, say(reply, name)))
  {
    DecodeExactly(0x08, body, name, email, password);
    RegistrationAnswered(d, salts, ops, name, email, password, entropy, db);
    ApprovalAnswered(d, salts, ops, name, db);
    hide Run, Waits, WasApproved, Created, Decode, Register, Approve, Bound, Clashes;
  }

  /** The list an administrator is shown names exactly the accounts that wait, each once, with its email. */
  lemma WaitingListEndToEnd(say: Wording, d: Digest, salts: nat -> seq<byte>, ops: seq<Op>, cameras: Json, body: Json,
                            list: seq<(string, string)>, entropy: seq<byte>)
    requires Says(body, "action", "list_pending") && Lists(Run(d, salts, ops), list, Works)
    ensures var answers := Answers(say, d, Run(d, salts, ops), cameras, Decode(0x08, body), list, entropy, Works);
            && |answers| == 1 && answers[0].Message? && answers[0].kind == 0x08 && answers[0].body.Object?
            && answers[0].body.fields.Keys == {"success", "users"}
            && answers[0].body.fields["success"] == Bool(true)
            && answers[0].body.fields["users"].Array?
            && var rows := answers[0].body.fields["users"].items;
            && |rows| == |list|
            && forall i :: 0 <= i < |rows| ==>
                 rows[i] == Object(map["username" := Str(list[i].0), "email" := Str(list[i].1)])
    ensures forall name :: (exists i :: 0 <= i < |list| && list[i].0 == name) <==> Waits(salts, ops, name)
  {
    DecodeExactly(0x08, body, "", "", "");
    var users := Run(d, salts, ops);
    hide Run, Waits, WasApproved, Created, Decode;
    forall name
      ensures (exists i :: 0 <= i < |list| && list[i].0 == name) <==> Waits(salts, ops, name)
    {
      WaitingExactly(d, salts, ops, name);
      if i :| 0 <= i < |list| && list[i].0 == name {
        assert list[i] in list;
      }
      if name in users && users[name].role == Pending {
        var i :| 0 <= i < |list| && list[i] == (name, users[name].email);
      }
    }
  }

  /** A motor command, from the client's message over the link to the two words the device server acts on. */
  lemma CommandEndToEnd(c: Codec, body: Json, ip: string, motor: string, st: InternalServer.State, rest: seq<byte>)
    requires c.Lawful() && body.Object? && Says(body, "device", ip) && Says(body, "motor", motor) && ip != "" && motor != ""
    requires |c.dump(body)| < 1_048_576
    requires st.exit.None? && st.input == Encode(Frame(DEVICE, c.dump(body), [])) + rest
    ensures Decode(0x04, body) == Command
    ensures InternalServer.Step(c, st) ==
            st.(input := rest, events := st.events + [InternalServer.MotorCommand(ip, motor)])
  {
    var f := Frame(DEVICE, c.dump(body), []);
    assert c.dump(body) != [] && c.parse(c.dump(body)) == Some(body);
    LinkRequests.OneRequest(c, st, f, InternalServer.MotorCommand(ip, motor), rest);
  }

  // ---- what each client gets ----

  lemma {:induction false} ForAppend(a: seq<Delivery>, b: seq<Delivery>, fd: int)
    ensures For(a + b, fd) == For(a, fd) + For(b, fd)
  {
    if b == [] {
      assert a + b == a;
    } else {
      var n := |b| - 1;
      assert (a + b)[..|a + b| - 1] == a + b[..n];
      ForAppend(a, b[..n], fd);
    }
  }

  /**
    * One refresh of the main loop, client by client: an administrator gets the camera list and then the status with
    * the load of the server, a user the same without the load, anybody else nothing.
    */
  lemma RefreshReaches(fds: seq<int>, roles: map<int, string>, cameras: Json, status: Json, server: Json, fd: int)
    requires Distinct(fds)
    ensures var got := For(Refreshed(fds, roles, cameras, status, server), fd);
            if fd in fds && fd in roles && roles[fd] == "admin" then
              got == [Message(0x07, cameras), Message(0x05, Object(map["server" := server, "devices" := status]))]
            else if fd in fds && fd in roles && roles[fd] == "user" then
              got == [Message(0x07, cameras), Message(0x05, Object(map["devices" := status]))]
            else got == []
  {
    var toUsers := ToRole(roles, Message(CAMERA, cameras), "user");
    var byRole := ByRole(roles, Message(AVAILABLE, ForUsers(status)), Message(AVAILABLE, ForAdmins(status, server)));
    ForAppend(Addressed(fds, toUsers), Addressed(fds, byRole), fd);
    ReachedOnce(fds, toUsers, fd);
    ReachedOnce(fds, byRole, fd);
    hide For, Addressed, Distinct;
  }

  /** One push from the device server, client by client: events go to everybody, pictures to those with a role. */
  lemma RelayReaches(fds: seq<int>, roles: map<int, string>, j: Json, jpeg: seq<byte>, fd: int)
    requires Distinct(fds)
    ensures For(RelayedAs(fds, roles, InternalClient.AiEvent(j)), fd) == if fd in fds then [Message(0x06, j)] else []
    ensures For(RelayedAs(fds, roles, InternalClient.MetaEvent(j)), fd) == if fd in fds then [Message(0x09, j)] else []
    ensures For(RelayedAs(fds, roles, InternalClient.ImageEvent(j, jpeg)), fd) ==
            if fd in fds && fd in roles && roles[fd] != "" then [Picture(j, jpeg)] else []
  {
    ReachedOnce(fds, ToAll(Message(AI, j)), fd);
    ReachedOnce(fds, ToAll(Message(META, j)), fd);
    ReachedOnce(fds, ToTagged(roles, Picture(j, jpeg)), fd);
    hide For, Addressed, Distinct;
  }
}
