/** Every answer of the account manager in terms of everything that was ever done to the accounts. */
module AccountReplies {
  import opened Common
  import opened AuthManager
  import opened AccountLaws

  /** An account of that name was created, and with that password. */
  ghost predicate HasPassword(salts: nat -> seq<byte>, ops: seq<Op>, name: string, password: string) {
    exists a :: a in Created(salts, ops) && a.name == name && a.password == password
  }

  /** It was created as pending and has not been approved so far. */
  ghost predicate Waits(salts: nat -> seq<byte>, ops: seq<Op>, name: string) {
    !WasApproved(salts, ops, name) && exists a :: a in Created(salts, ops) && a.name == name && a.role == Pending
  }

  /** What is known of the one account of a name. */
  lemma TheAccount(d: Digest, salts: nat -> seq<byte>, ops: seq<Op>, name: string)
    ensures var users := Run(d, salts, ops);
            && (name in users <==> Exists(Created(salts, ops), name))
            && (name in users ==> (users[name].role == Pending <==> Waits(salts, ops, name)))
  {
    RunTells(d, salts, ops);
    hide Created, Run, WasApproved;
    var users, accounts := Run(d, salts, ops), Created(salts, ops);
    if Exists(accounts, name) {
      var a :| a in accounts && a.name == name;
      assert Stored(users, d, salts, ops, a);
      forall b | b in accounts && b.name == name
        ensures b == a
      {
        NamesIdentify(accounts, a, b);
      }
    }
  }

  lemma TheHash(d: Digest, salts: nat -> seq<byte>, ops: seq<Op>, name: string, password: string)
    requires Injective(d)
    ensures var users := Run(d, salts, ops);
            name in users ==>
              (HashPassword(d, password, users[name].salt) == users[name].hash <==> HasPassword(salts, ops, name, password))
  {
    RunTells(d, salts, ops);
    hide Created, Run, WasApproved;
    var users, accounts := Run(d, salts, ops), Created(salts, ops);
    if name in users {
      var a :| a in accounts && a.name == name;
      assert Stored(users, d, salts, ops, a);
      PasswordsCompare(d, password, a.password, users[name].salt);
      hide HashPassword, Hex;
      forall b | b in accounts && b.name == name
        ensures b == a
      {
        NamesIdentify(accounts, a, b);
      }
    }
  }

  /**
    * After any history: a login with an empty field is told so, whatever the database does; a database that cannot
    * prepare the statement is reported; an account that was never created, or that cannot be fetched, is unknown; a
    * password other than the one it was created with is wrong, approved or not; with the right one the account is awaiting
    * approval if it was created pending and never approved, and is logged in otherwise.
    */
  lemma LoginAnswered(d: Digest, salts: nat -> seq<byte>, ops: seq<Op>, name: string, password: string, db: Db)
    requires Injective(d)
    ensures var reply, key := Login(Run(d, salts, ops), d, name, password, db), Bound(name);
            if name == "" || password == "" then reply == MissingFields
            else if db == PrepareFails then reply == DatabaseError
            else
              && (reply == UnknownUser <==> db == StepFails || !Exists(Created(salts, ops), key))
              && (reply == WrongPassword <==>
                    db == Works && Exists(Created(salts, ops), key) && !HasPassword(salts, ops, key, password))
              && (reply == AwaitingApproval <==>
                    db == Works && HasPassword(salts, ops, key, password) && Waits(salts, ops, key))
              && (reply.LoggedIn? <==>
                    db == Works && HasPassword(salts, ops, key, password) && !Waits(salts, ops, key))
  {
    hide Run, HashPassword, Waits, WasApproved, Created;
    TheAccount(d, salts, ops, Bound(name));
    TheHash(d, salts, ops, Bound(name), password);
  }

  /** After any history a registration succeeds exactly for a complete request with a name and an email nobody ever had. */
  lemma RegistrationAnswered(d: Digest, salts: nat -> seq<byte>, ops: seq<Op>, name: string, email: string, password: string,
                             salt: seq<byte>, db: Db)
    ensures var reply := Register(Run(d, salts, ops), d, name, email, password, salt, db).1;
            var known := Clashes(Created(salts, ops), Bound(name), Bound(email));
            if name == "" || email == "" || password == "" then reply == MissingFields
            else match db
              case PrepareFails => reply == DatabaseError
              case StepFails => reply == Failed
              case Works => reply == if known then Taken else Registered
  {
    hide Run, Created, HashPassword, Hex, EmailUsed, Clashes, Tells, Bound;
    RunTells(d, salts, ops);
    ClashMeansTaken(Run(d, salts, ops), d, salts, ops, Bound(name), Bound(email));
  }

  /** After any history an approval succeeds exactly for an account that was created pending and has not been approved. */
  lemma ApprovalAnswered(d: Digest, salts: nat -> seq<byte>, ops: seq<Op>, name: string, db: Db)
    ensures var reply := Approve(Run(d, salts, ops), name, db).1;
            match db
            case PrepareFails => reply == DatabaseError
            case StepFails => reply == Failed
            case Works => reply == if Waits(salts, ops, Bound(name)) then Approved else NothingToApprove
  {
    hide Run, Waits, Created, WasApproved;
    TheAccount(d, salts, ops, Bound(name));
    NobodyWaits(salts, ops, Bound(name));
  }

  lemma NobodyWaits(salts: nat -> seq<byte>, ops: seq<Op>, name: string)
    ensures Waits(salts, ops, name) ==> Exists(Created(salts, ops), name)
  {
    hide Created, WasApproved;
  }

  /** A new account waits for its approval, and once it has been approved its credentials log in as a user. */
  lemma RegisterApproveLogin(d: Digest, salts: nat -> seq<byte>, ops: seq<Op>, name: string, email: string, password: string,
                             salt: seq<byte>)
    requires Register(Run(d, salts, ops), d, name, email, password, salt, Works).1 == Registered
    ensures var later := ops + [DoRegister(name, email, password, salt, Works)];
            && Login(Run(d, salts, later), d, name, password, Works) == AwaitingApproval
            && Login(Run(d, salts, later + [DoApprove(name, Works)]), d, name, password, Works) == LoggedIn(User)
  {
    var op := DoRegister(name, email, password, salt, Works);
    var later := ops + [op];
    assert later[..|ops|] == ops;
    assert (later + [DoApprove(name, Works)])[..|later|] == later;
    var users := Run(d, salts, ops);
    assert Run(d, salts, later) == Do(users, d, op);
    assert Run(d, salts, later + [DoApprove(name, Works)]) == Do(Do(users, d, op), d, DoApprove(name, Works));
    hide Run, HashPassword, EmailUsed, Hex, Bound;
  }

  /** Who can log in to a new database, and as what. */
  const Credentials: seq<(string, string, Role)> :=
    [ ("admin_alpha", "pass_admin_alpha", Admin),
      ("user_alpha", "pass_user_alpha", User), ("user_beta", "pass_user_beta", User), ("user_gamma", "pass_user_gamma", User),
      ("wait_alpha", "pass_wait_alpha", Pending), ("wait_beta", "pass_wait_beta", Pending),
      ("wait_gamma", "pass_wait_gamma", Pending) ]

  /** After any history these credentials still do what they did, but for approvals. */
  lemma SeededLogins(d: Digest, salts: nat -> seq<byte>, ops: seq<Op>, i: nat)
    requires i < |Credentials|
    ensures var (name, password, role) := Credentials[i];
            Login(Run(d, salts, ops), d, name, password, Works) ==
            if role != Pending then LoggedIn(role)
            else if WasApproved(salts, ops, name) then LoggedIn(User)
            else AwaitingApproval
  {
    hide Created, Run, WasApproved, Seeds, HashPassword, Hex, Bound;
    SeedsStay(salts, ops);
    SeededAs(salts, i);
    RunTells(d, salts, ops);
    var a := Seeds(salts)[i];
    assert Created(salts, ops)[i] == a;
    assert a in Created(salts, ops);
    assert Stored(Run(d, salts, ops), d, salts, ops, a);
  }

  lemma SeededAs(salts: nat -> seq<byte>, i: nat)
    requires i < |Credentials|
    ensures var (name, password, role) := Credentials[i];
            && |Seeds(salts)| == |Credentials| && Bound(name) == name && name != "" && password != ""
            && Seeds(salts)[i].name == name && Seeds(salts)[i].password == password && Seeds(salts)[i].role == role
  {
    hide Bound;
    assert '\0' !in Credentials[i].0;
  }

  /** The list of the waiting accounts is that of the history. */
  lemma WaitingExactly(d: Digest, salts: nat -> seq<byte>, ops: seq<Op>, name: string)
    ensures var users := Run(d, salts, ops);
            name in users && users[name].role == Pending <==> Waits(salts, ops, name)
  {
    hide Run, Waits, Created, WasApproved;
    TheAccount(d, salts, ops, name);
    NobodyWaits(salts, ops, name);
  }
}
