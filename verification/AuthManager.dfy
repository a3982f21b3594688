/** The account table and the operations on it. */
module AuthManager {
  import opened Common

  datatype Role = Admin | User | Pending

  datatype Row = Row(email: string, hash: string, salt: string, role: Role)

  /** The users table: the username is unique, and so is the email. */
  type Users = map<string, Row>

  /** How the database answers: preparing or stepping a statement can fail for reasons of its own. */
  datatype Db = Works | PrepareFails | StepFails

  datatype Reply =
    | MissingFields | DatabaseError | Taken | Failed | Registered
    | UnknownUser | WrongPassword | AwaitingApproval | LoggedIn(role: Role)
    | NothingToApprove | Approved

  /** Text is bound up to its first NUL. */
  function Bound(s: string): (b: string)
    ensures b <= s && '\0' !in b && (b == s || s[|b|] == '\0')
  {
    if s == [] || s[0] == '\0' then [] else [s[0]] + Bound(s[1..])
  }

  function Digit(n: nat): char
    requires n < 16
  {
    if n < 10 then ('0' as int + n) as char else ('a' as int + n - 10) as char
  }

  function Hex(bytes: seq<byte>): (text: string)
    ensures |text| == 2 * |bytes|
  {
    if bytes == [] then [] else [Digit(bytes[0] / 16), Digit(bytes[0] % 16)] + Hex(bytes[1..])
  }

  /** The hash function as an oracle on the password followed by the salt. */
  type Digest = string -> seq<byte>

  function HashPassword(d: Digest, password: string, salt: string): string {
    Hex(d(password + salt))
  }

  predicate EmailUsed(users: Users, email: string) {
    exists u :: u in users && users[u].email == email
  }

  function Register(users: Users, d: Digest, name: string, email: string, password: string, salt: seq<byte>, db: Db)
    : (Users, Reply)
  {
    if name == "" || email == "" || password == "" then (users, MissingFields)
    else if db == PrepareFails then (users, DatabaseError)
    else if db == StepFails then (users, Failed)
    else if Bound(name) in users || EmailUsed(users, Bound(email)) then (users, Taken)
    else (users[Bound(name) := Row(Bound(email), HashPassword(d, password, Hex(salt)), Hex(salt), Pending)], Registered)
  }

  function Login(users: Users, d: Digest, name: string, password: string, db: Db): Reply {
    if name == "" || password == "" then MissingFields
    else if db == PrepareFails then DatabaseError
    else if db == StepFails || Bound(name) !in users then UnknownUser
    else
      var row := users[Bound(name)];
      if HashPassword(d, password, row.salt) != row.hash then WrongPassword
      else if row.role == Pending then AwaitingApproval
      else LoggedIn(row.role)
  }

  function Approve(users: Users, name: string, db: Db): (Users, Reply) {
    if db == PrepareFails then (users, DatabaseError)
    else if db == StepFails then (users, Failed)
    else if Bound(name) in users && users[Bound(name)].role == Pending then
      (users[Bound(name) := users[Bound(name)].(role := User)], Approved)
    else (users, NothingToApprove)
  }

  /** An account as somebody created it, with the password in the clear. */
  datatype Account = Account(name: string, email: string, password: string, salt: seq<byte>, role: Role)

  function Seeds(salts: nat -> seq<byte>): seq<Account> {
    [ Account("admin_alpha", "admin_alpha@google.com", "pass_admin_alpha", salts(0), Admin),
      Account("user_alpha", "user_alpha@alpha.com", "pass_user_alpha", salts(1), User),
      Account("user_beta", "user_beta@google.com", "pass_user_beta", salts(2), User),
      Account("user_gamma", "user_gamma@google.com", "pass_user_gamma", salts(3), User),
      Account("wait_alpha", "wait_alpha@google.com", "pass_wait_alpha", salts(4), Pending),
      Account("wait_beta", "wait_beta@google.com", "pass_wait_beta", salts(5), Pending),
      Account("wait_gamma", "wait_gamma@google.com", "pass_wait_gamma", salts(6), Pending) ]
  }

  function RowOf(d: Digest, a: Account): Row {
    Row(a.email, HashPassword(d, a.password, Hex(a.salt)), Hex(a.salt), a.role)
  }

  /** The seeding helper: a row that violates uniqueness is silently dropped. */
  function Insert(users: Users, d: Digest, a: Account): Users {
    if a.name in users || EmailUsed(users, a.email) then users else users[a.name := RowOf(d, a)]
  }

  function InsertAll(users: Users, d: Digest, accounts: seq<Account>): Users {
    if accounts == [] then users
    else Insert(InsertAll(users, d, accounts[..|accounts| - 1]), d, accounts[|accounts| - 1])
  }

  /** Opening the database seeds it only when it is empty. */
  function Seed(users: Users, d: Digest, salts: nat -> seq<byte>): Users {
    if |users| > 0 then users else InsertAll(users, d, Seeds(salts))
  }

  /** The operations on the table; every one of them holds the database mutex throughout. */
  datatype Op =
    | DoRegister(name: string, email: string, password: string, salt: seq<byte>, db: Db)
    | DoLogin(name: string, password: string, db: Db)
    | DoApprove(name: string, db: Db)
    | DoList
    | DoReopen(salts: nat -> seq<byte>)

  function Do(users: Users, d: Digest, op: Op): Users {
    match op
    case DoRegister(name, email, password, salt, db) => Register(users, d, name, email, password, salt, db).0
    case DoLogin(_, _, _) => users
    case DoApprove(name, db) => Approve(users, name, db).0
    case DoList => users
    case DoReopen(salts) => Seed(users, d, salts)
  }

  class Manager {
    const digest: Digest
    var users: Users

    constructor (digest: Digest, users: Users)
      ensures this.digest == digest && this.users == users
    {
      this.digest, this.users := digest, users;
    }

    method RegisterUser(name: string, email: string, password: string, entropy: seq<byte>, db: Db) returns (reply: Reply)
      modifies this
      ensures (users, reply) == Register(old(users), digest, name, email, password, entropy, db)
    {
      if name == "" || email == "" || password == "" {
        return MissingFields;
      }
      var salt := Hex(entropy);
      var hashed := HashPassword(digest, password, salt);
      if db == PrepareFails {
        return DatabaseError;
      }
      if db == StepFails {
        return Failed;
      }
      var key, address := Bound(name), Bound(email);
      if key in users || EmailUsed(users, address) {
        return Taken;
      }
      users := users[key := Row(address, hashed, salt, Pending)];
      reply := Registered;
    }

    method LoginUser(name: string, password: string, db: Db) returns (reply: Reply)
      ensures reply == Login(users, digest, name, password, db)
      ensures reply == MissingFields <==> name == "" || password == ""
      ensures reply == DatabaseError <==> name != "" && password != "" && db == PrepareFails
      ensures name != "" && password != "" && db == Works && Bound(name) in users ==>
                var row := users[Bound(name)];
                var right := row.hash == HashPassword(digest, password, row.salt);
                && (reply == WrongPassword <==> !right)
                && (reply == AwaitingApproval <==> right && row.role == Pending)
                && (reply.LoggedIn? <==> right && row.role != Pending) && (reply.LoggedIn? ==> reply.role == row.role)
    {
      if name == "" || password == "" {
        return MissingFields;
      }
      if db == PrepareFails {
        return DatabaseError;
      }
      if db == StepFails || Bound(name) !in users {
        return UnknownUser;
      }
      var row := users[Bound(name)];
      var hashed := HashPassword(digest, password, row.salt);
      if hashed != row.hash {
        return WrongPassword;
      }
      if row.role == Pending {
        return AwaitingApproval;
      }
      reply := LoggedIn(row.role);
    }

    method ApproveUser(name: string, db: Db) returns (reply: Reply)
      modifies this
      ensures (users, reply) == Approve(old(users), name, db)
    {
      if db == PrepareFails {
        return DatabaseError;
      }
      if db == StepFails {
        return Failed;
      }
      var changes := 0;
      var key := Bound(name);
      if key in users && users[key].role == Pending {
        users := users[key := users[key].(role := User)];
        changes := 1;
      }
      if changes == 0 {
        return NothingToApprove;
      }
      reply := Approved;
    }

    /**
      * Every pending account once; the order of rows is the database's. If stepping fails on the way, the rows
      * up to there are returned all the same.
      */
    method ListPendingUsers(db: Db, stop: nat) returns (ok: bool, list: seq<(string, string)>)
      ensures ok <==> db != PrepareFails
      ensures forall i, j :: 0 <= i < j < |list| ==> list[i].0 != list[j].0
      ensures forall row <- list :: row.0 in users && users[row.0].role == Pending && users[row.0].email == row.1
      ensures db == Works ==> forall u :: u in users && users[u].role == Pending ==> (u, users[u].email) in list
    {
      list := [];
      if db == PrepareFails {
        return false, list;
      }
      ok := true;
      var left := users.Keys;
      while left != {} && (db == Works || |list| < stop)
        invariant left <= users.Keys
        invariant forall i, j :: 0 <= i < j < |list| ==> list[i].0 != list[j].0
        invariant forall u, e :: (u, e) in list <==>
                    u in users && u !in left && users[u].role == Pending && users[u].email == e
        decreases left
      {
        var u :| u in left;
        left := left - {u};
        if users[u].role == Pending {
          list := list + [(u, users[u].email)];
        }
      }
    }

    method SeedTestData(salts: nat -> seq<byte>)
      modifies this
      ensures users == Seed(old(users), digest, salts)
      ensures old(users) != map[] ==> users == old(users)
    {
      if |users| > 0 {
        return;
      }
      assert users == map[];
      var accounts := Seeds(salts);
      var i := 0;
      while i < |accounts|
        invariant 0 <= i <= |accounts|
        invariant users == InsertAll(old(users), digest, accounts[..i])
      {
        assert accounts[..i + 1][..i] == accounts[..i];
        var a := accounts[i];
        if a.name !in users && !EmailUsed(users, a.email) {
          users := users[a.name := Row(a.email, HashPassword(digest, a.password, Hex(a.salt)), Hex(a.salt), a.role)];
        }
        i := i + 1;
      }
      assert accounts[..i] == accounts;
    }
  }
}
