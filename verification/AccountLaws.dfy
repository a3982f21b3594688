/** What logging in means in terms of everything that was ever done to the accounts. */
module AccountLaws {
  import opened Common
  import opened AuthManager

  /** The table after the operations, starting from a new database. */
  function Run(d: Digest, salts: nat -> seq<byte>, ops: seq<Op>): Users {
    if ops == [] then Seed(map[], d, salts)
    else Do(Run(d, salts, ops[..|ops| - 1]), d, ops[|ops| - 1])
  }

  // ---- the history, without the table ----

  predicate Clashes(accounts: seq<Account>, name: string, email: string) {
    exists a :: a in accounts && (a.name == name || a.email == email)
  }

  /** The accounts that came into being: the seeds, then every complete registration of a new name and email. */
  function Created(salts: nat -> seq<byte>, ops: seq<Op>): seq<Account> {
    if ops == [] then Seeds(salts)
    else
      var before := Created(salts, ops[..|ops| - 1]);
      match ops[|ops| - 1]
      case DoRegister(name, email, password, salt, Works) =>
        if name == "" || email == "" || password == "" || Clashes(before, Bound(name), Bound(email)) then before
        else before + [Account(Bound(name), Bound(email), password, salt, Pending)]
      case _ => before
  }

  ghost predicate Exists(accounts: seq<Account>, name: string) {
    exists a :: a in accounts && a.name == name
  }

  /** At some point after its creation the account was named in an approval that reached the database. */
  ghost predicate WasApproved(salts: nat -> seq<byte>, ops: seq<Op>, name: string) {
    exists i :: 0 <= i < |ops| && ApprovedAt(salts, ops, name, i)
  }

  ghost predicate ApprovedAt(salts: nat -> seq<byte>, ops: seq<Op>, name: string, i: nat)
    requires i < |ops|
  {
    ops[i].DoApprove? && ops[i].db == Works && Bound(ops[i].name) == name && Exists(Created(salts, ops[..i]), name)
  }

  lemma ApprovedStep(salts: nat -> seq<byte>, ops: seq<Op>, name: string)
    requires ops != []
    ensures WasApproved(salts, ops, name) <==>
              WasApproved(salts, ops[..|ops| - 1], name) || ApprovedAt(salts, ops, name, |ops| - 1)
  {
    var n, init := |ops| - 1, ops[..|ops| - 1];
    hide Created;
    forall i | 0 <= i < n
      ensures ApprovedAt(salts, ops, name, i) <==> ApprovedAt(salts, init, name, i)
    {
      assert ops[..i] == init[..i];
    }
    if WasApproved(salts, init, name) {
      var i :| 0 <= i < |init| && ApprovedAt(salts, init, name, i);
      assert ApprovedAt(salts, ops, name, i);
    }
  }

  // ---- the table as a function of the history ----

  ghost predicate DistinctAccounts(accounts: seq<Account>) {
    forall i, j :: 0 <= i < j < |accounts| ==>
      accounts[i].name != accounts[j].name && accounts[i].email != accounts[j].email
  }

  /** The role an account has by now. */
  ghost function RoleNow(salts: nat -> seq<byte>, ops: seq<Op>, a: Account): Role {
    if a.role == Pending && WasApproved(salts, ops, a.name) then User else a.role
  }

  ghost predicate Stored(users: Users, d: Digest, salts: nat -> seq<byte>, ops: seq<Op>, a: Account) {
    a.name in users && users[a.name] == RowOf(d, a).(role := RoleNow(salts, ops, a))
  }

  ghost predicate Tells(users: Users, d: Digest, salts: nat -> seq<byte>, ops: seq<Op>) {
    var accounts := Created(salts, ops);
    && DistinctAccounts(accounts)
    && (forall u :: u in users ==> Exists(accounts, u))
    && (forall a <- accounts :: Stored(users, d, salts, ops, a))
  }

  lemma NamesIdentify(accounts: seq<Account>, a: Account, b: Account)
    requires DistinctAccounts(accounts) && a in accounts && b in accounts && (a.name == b.name || a.email == b.email)
    ensures a == b
  {
  }

  lemma ClashMeansTaken(users: Users, d: Digest, salts: nat -> seq<byte>, ops: seq<Op>, name: string, email: string)
    requires Tells(users, d, salts, ops)
    ensures Clashes(Created(salts, ops), name, email) <==> name in users || EmailUsed(users, email)
  {
    hide Created;
    var accounts := Created(salts, ops);
    if Clashes(accounts, name, email) {
      var a :| a in accounts && (a.name == name || a.email == email);
      assert Stored(users, d, salts, ops, a);
    }
    if EmailUsed(users, email) {
      var u :| u in users && users[u].email == email;
      var a :| a in accounts && a.name == u;
      assert Stored(users, d, salts, ops, a);
      assert Clashes(accounts, name, email);
    }
    if name in users {
      var a :| a in accounts && a.name == name;
      assert Clashes(accounts, name, email);
    }
  }

  /** An operation that creates nothing and approves nobody leaves everything as it was. */
  lemma NothingHappened(users: Users, d: Digest, salts: nat -> seq<byte>, ops: seq<Op>)
    requires ops != [] && Tells(users, d, salts, ops[..|ops| - 1])
    requires Created(salts, ops) == Created(salts, ops[..|ops| - 1])
    requires !ops[|ops| - 1].DoApprove?
    ensures Tells(users, d, salts, ops)
  {
    hide Created, WasApproved;
    forall a | a in Created(salts, ops)
      ensures Stored(users, d, salts, ops, a)
    {
      ApprovedStep(salts, ops, a.name);
      assert Stored(users, d, salts, ops[..|ops| - 1], a);
    }
  }

  lemma RegisterTells(users: Users, d: Digest, salts: nat -> seq<byte>, ops: seq<Op>)
    requires ops != [] && Tells(users, d, salts, ops[..|ops| - 1]) && ops[|ops| - 1].DoRegister?
    ensures Tells(Do(users, d, ops[|ops| - 1]), d, salts, ops)
  {
    var init, op := ops[..|ops| - 1], ops[|ops| - 1];
    var before := Created(salts, init);
    var key, address := Bound(op.name), Bound(op.email);
    ClashMeansTaken(users, d, salts, init, key, address);
    if op.db != Works || op.name == "" || op.email == "" || op.password == "" || Clashes(before, key, address) {
      NothingHappened(users, d, salts, ops);
    } else {
      var a := Account(key, address, op.password, op.salt, Pending);
      assert Created(salts, ops) == before + [a];
      NewAccount(users, d, salts, ops, a);
    }
  }

  lemma NewAccount(users: Users, d: Digest, salts: nat -> seq<byte>, ops: seq<Op>, a: Account)
    requires ops != [] && Tells(users, d, salts, ops[..|ops| - 1]) && ops[|ops| - 1].DoRegister?
    requires !Clashes(Created(salts, ops[..|ops| - 1]), a.name, a.email) && a.role == Pending && a.name !in users
    requires Created(salts, ops) == Created(salts, ops[..|ops| - 1]) + [a]
    ensures Tells(users[a.name := RowOf(d, a)], d, salts, ops)
  {
    var init, users' := ops[..|ops| - 1], users[a.name := RowOf(d, a)];
    var before := Created(salts, init);
    NotApprovedBefore(salts, ops, a.name);
    hide Created, WasApproved, RowOf, Stored, ApprovedAt;
    NamesGrow(users, RowOf(d, a), before, a);
    forall b | b in before
      ensures Stored(users', d, salts, ops, b)
    {
      assert b.name != a.name;
      StaysStored(users, users', d, salts, ops, b);
    }
    NewlyStored(users', d, salts, ops, a);
  }

  lemma StaysStored(users: Users, users': Users, d: Digest, salts: nat -> seq<byte>, ops: seq<Op>, a: Account)
    requires ops != [] && !ops[|ops| - 1].DoApprove? && Stored(users, d, salts, ops[..|ops| - 1], a)
    requires a.name in users' && users'[a.name] == users[a.name]
    ensures Stored(users', d, salts, ops, a)
  {
    ApprovedStep(salts, ops, a.name);
    hide Created, WasApproved, RowOf;
  }

  lemma NewlyStored(users: Users, d: Digest, salts: nat -> seq<byte>, ops: seq<Op>, a: Account)
    requires ops != [] && !ops[|ops| - 1].DoApprove? && !WasApproved(salts, ops[..|ops| - 1], a.name)
    requires a.name in users && users[a.name] == RowOf(d, a)
    ensures Stored(users, d, salts, ops, a)
  {
    ApprovedStep(salts, ops, a.name);
    hide Created, WasApproved;
  }

  lemma NamesGrow(users: Users, row: Row, accounts: seq<Account>, a: Account)
    requires DistinctAccounts(accounts) && !Clashes(accounts, a.name, a.email)
    requires forall u :: u in users ==> Exists(accounts, u)
    ensures DistinctAccounts(accounts + [a])
    ensures forall u :: u in users[a.name := row] ==> Exists(accounts + [a], u)
  {
    var all := accounts + [a];
    assert all[|accounts|] == a;
    forall u | u in users[a.name := row]
      ensures Exists(all, u)
    {
      if u == a.name {
        assert a in all;
      } else {
        var b :| b in accounts && b.name == u;
        assert b in all;
      }
    }
    forall i | 0 <= i < |accounts|
      ensures accounts[i].name != a.name && accounts[i].email != a.email
    {
      assert accounts[i] in accounts;
    }
  }

  /** Nobody is approved before being created. */
  lemma NotApprovedBefore(salts: nat -> seq<byte>, ops: seq<Op>, name: string)
    requires ops != [] && !Exists(Created(salts, ops[..|ops| - 1]), name)
    ensures !WasApproved(salts, ops[..|ops| - 1], name)
  {
    var init := ops[..|ops| - 1];
    forall i: nat | i < |init|
      ensures !ApprovedAt(salts, init, name, i)
    {
      CreatedGrows(salts, init, i);
    }
  }

  lemma {:induction false} CreatedGrows(salts: nat -> seq<byte>, ops: seq<Op>, i: nat)
    requires i <= |ops|
    ensures Created(salts, ops[..i]) <= Created(salts, ops)
    ensures forall name :: Exists(Created(salts, ops[..i]), name) ==> Exists(Created(salts, ops), name)
  {
    if i < |ops| {
      CreatedGrows(salts, ops[..|ops| - 1], i);
      assert ops[..|ops| - 1][..i] == ops[..i];
      assert Created(salts, ops[..|ops| - 1]) <= Created(salts, ops);
    } else {
      assert ops[..i] == ops;
    }
    var a, b := Created(salts, ops[..i]), Created(salts, ops);
    hide Created;
    forall name | Exists(a, name)
      ensures Exists(b, name)
    {
      var x :| x in a && x.name == name;
      assert x in b;
    }
  }

  lemma ApproveTells(users: Users, d: Digest, salts: nat -> seq<byte>, ops: seq<Op>)
    requires ops != [] && Tells(users, d, salts, ops[..|ops| - 1]) && ops[|ops| - 1].DoApprove?
    ensures Tells(Do(users, d, ops[|ops| - 1]), d, salts, ops)
  {
    hide WasApproved, Bound, Stored, Approve, Exists;
    var init, op := ops[..|ops| - 1], ops[|ops| - 1];
    assert Created(salts, ops) == Created(salts, init);
    var users' := Do(users, d, op);
    assert users' == Approve(users, op.name, op.db).0;
    hide Created, Do;
    ApproveKeepsNames(users, op.name, op.db);
    forall a | a in Created(salts, ops)
      ensures Stored(users', d, salts, ops, a)
    {
      ApprovedOrNot(users, d, salts, ops, a);
    }
  }

  lemma ApproveKeepsNames(users: Users, name: string, db: Db)
    ensures Approve(users, name, db).0.Keys == users.Keys
  {
  }

  lemma ApprovedOrNot(users: Users, d: Digest, salts: nat -> seq<byte>, ops: seq<Op>, a: Account)
    requires ops != [] && ops[|ops| - 1].DoApprove? && a in Created(salts, ops[..|ops| - 1])
    requires Stored(users, d, salts, ops[..|ops| - 1], a)
    ensures Stored(Approve(users, ops[|ops| - 1].name, ops[|ops| - 1].db).0, d, salts, ops, a)
  {
    hide Created, WasApproved, Bound, RowOf;
    ApprovedStep(salts, ops, a.name);
    assert Exists(Created(salts, ops[..|ops| - 1]), a.name);
  }

  lemma ReopenTells(users: Users, d: Digest, salts: nat -> seq<byte>, ops: seq<Op>)
    requires ops != [] && Tells(users, d, salts, ops[..|ops| - 1]) && ops[|ops| - 1].DoReopen?
    ensures Tells(Do(users, d, ops[|ops| - 1]), d, salts, ops)
  {
    var init := ops[..|ops| - 1];
    assert Created(salts, ops) == Created(salts, init);
    hide Created, Seeds, InsertAll;
    SeedsStay(salts, init);
    assert Stored(users, d, salts, init, Created(salts, init)[0]);
    assert users.Keys != {};
    NothingHappened(users, d, salts, ops);
  }

  /** The seeded accounts are never removed, so the table never becomes empty again. */
  lemma SeedsStay(salts: nat -> seq<byte>, ops: seq<Op>)
    ensures Seeds(salts) <= Created(salts, ops) && |Seeds(salts)| == 7 <= |Created(salts, ops)|
  {
    CreatedGrows(salts, ops, 0);
    assert ops[..0] == [];
  }

  lemma SeedsTell(d: Digest, salts: nat -> seq<byte>)
    ensures Tells(Seed(map[], d, salts), d, salts, [])
  {
    SeedsDiffer(salts);
    var accounts := Seeds(salts);
    SeededRows(d, accounts);
    assert accounts[..|accounts|] == accounts;
    forall a | a in accounts
      ensures Stored(Seed(map[], d, salts), d, salts, [], a)
    {
    }
  }

  lemma SeedsDiffer(salts: nat -> seq<byte>)
    ensures DistinctAccounts(Seeds(salts))
  {
  }

  /** The rows are those of the accounts, and there are no others. */
  ghost predicate Rows(users: Users, d: Digest, accounts: seq<Account>) {
    && (forall u :: u in users ==> Exists(accounts, u))
    && (forall a <- accounts :: a.name in users && users[a.name] == RowOf(d, a))
  }

  lemma InsertNew(users: Users, d: Digest, accounts: seq<Account>, a: Account)
    requires Rows(users, d, accounts) && !Clashes(accounts, a.name, a.email)
    ensures Insert(users, d, a) == users[a.name := RowOf(d, a)]
  {
    hide HashPassword, Hex;
    forall u | u in users
      ensures u != a.name && users[u].email != a.email
    {
      var b :| b in accounts && b.name == u;
    }
  }

  lemma LastDoesNotClash(accounts: seq<Account>, a: Account)
    requires DistinctAccounts(accounts + [a])
    ensures DistinctAccounts(accounts) && !Clashes(accounts, a.name, a.email)
  {
    var all := accounts + [a];
    assert all[|accounts|] == a;
    forall b | b in accounts
      ensures b.name != a.name && b.email != a.email
    {
      var i :| 0 <= i < |accounts| && accounts[i] == b;
      assert all[i] == b;
    }
    forall i, j | 0 <= i < j < |accounts|
      ensures accounts[i].name != accounts[j].name && accounts[i].email != accounts[j].email
    {
      assert all[i] == accounts[i] && all[j] == accounts[j];
    }
  }

  /** Inserting accounts with distinct names and emails into an empty table stores exactly them. */
  lemma {:induction false} SeededRows(d: Digest, accounts: seq<Account>)
    requires DistinctAccounts(accounts)
    ensures Rows(InsertAll(map[], d, accounts), d, accounts)
  {
    if accounts != [] {
      var init, a := accounts[..|accounts| - 1], accounts[|accounts| - 1];
      assert accounts == init + [a];
      LastDoesNotClash(init, a);
      SeededRows(d, init);
      InsertNew(InsertAll(map[], d, init), d, init, a);
      RowsExtend(InsertAll(map[], d, init), d, init, a);
    }
  }

  /** Opening a database changes an empty one only, into one with exactly the seven accounts of the seed. */
  lemma SeedOnlyEmpty(d: Digest, users: Users, salts: nat -> seq<byte>)
    ensures users != map[] ==> Seed(users, d, salts) == users
    ensures users == map[] ==> Rows(Seed(users, d, salts), d, Seeds(salts)) && |Seeds(salts)| == 7
  {
    SeedsDiffer(salts);
    SeededRows(d, Seeds(salts));
  }

  lemma RowsExtend(users: Users, d: Digest, accounts: seq<Account>, a: Account)
    requires Rows(users, d, accounts) && DistinctAccounts(accounts) && !Clashes(accounts, a.name, a.email)
    ensures Rows(users[a.name := RowOf(d, a)], d, accounts + [a])
  {
    hide RowOf;
    NamesGrow(users, RowOf(d, a), accounts, a);
    forall b | b in accounts
      ensures b.name != a.name
    {
      assert b in accounts;
    }
  }

  // ---- what follows for every history ----

  lemma {:induction false} RunTells(d: Digest, salts: nat -> seq<byte>, ops: seq<Op>)
    ensures Tells(Run(d, salts, ops), d, salts, ops)
  {
    if ops == [] {
      SeedsTell(d, salts);
    } else {
      var init, op := ops[..|ops| - 1], ops[|ops| - 1];
      RunTells(d, salts, init);
      var users := Run(d, salts, init);
      if op.DoRegister? {
        RegisterTells(users, d, salts, ops);
      } else if op.DoApprove? {
        ApproveTells(users, d, salts, ops);
      } else if op.DoReopen? {
        ReopenTells(users, d, salts, ops);
      } else {
        NothingHappened(users, d, salts, ops);
      }
    }
  }

  /** The hash as an abstract function that never collides. */
  ghost predicate Injective(d: Digest) {
    forall x, y :: d(x) == d(y) ==> x == y
  }

  lemma {:induction false} HexInjective(a: seq<byte>, b: seq<byte>)
    requires Hex(a) == Hex(b)
    ensures a == b
  {
    if a != [] && b != [] {
      var x, y := Hex(a), Hex(b);
      assert x[0] == Digit(a[0] / 16) && x[1] == Digit(a[0] % 16) && x[2..] == Hex(a[1..]);
      assert y[0] == Digit(b[0] / 16) && y[1] == Digit(b[0] % 16) && y[2..] == Hex(b[1..]);
      HexInjective(a[1..], b[1..]);
      assert a == [a[0]] + a[1..] && b == [b[0]] + b[1..];
    }
  }

  lemma PasswordsCompare(d: Digest, p: string, q: string, salt: string)
    requires Injective(d)
    ensures HashPassword(d, p, salt) == HashPassword(d, q, salt) <==> p == q
  {
    if HashPassword(d, p, salt) == HashPassword(d, q, salt) {
      HexInjective(d(p + salt), d(q + salt));
      assert p == (p + salt)[..|p + salt| - |salt|];
      assert q == (q + salt)[..|q + salt| - |salt|];
    }
  }

  /** With salts of one length, two hashes agree only for the same password and the same salt. */
  lemma HashesAreSalted(d: Digest, p: string, q: string, salt: string, other: string)
    requires Injective(d) && |salt| == |other|
    ensures HashPassword(d, p, salt) == HashPassword(d, q, other) <==> p == q && salt == other
  {
    if HashPassword(d, p, salt) == HashPassword(d, q, other) {
      HexInjective(d(p + salt), d(q + other));
      assert p == (p + salt)[..|p + salt| - |salt|] && salt == (p + salt)[|p + salt| - |salt|..];
      assert q == (q + other)[..|q + other| - |other|] && other == (q + other)[|q + other| - |other|..];
    }
  }

  /** The account, as created, that these credentials belong to, and which is no longer waiting. */
  ghost predicate Opens(salts: nat -> seq<byte>, ops: seq<Op>, a: Account, name: string, password: string) {
    && a in Created(salts, ops) && a.name == Bound(name) && a.password == password
    && (a.role != Pending || WasApproved(salts, ops, a.name))
  }

  /** After any history, logging in succeeds exactly when the unique account of that name was created with that
      password and was either seeded as approved or approved later; the answer is its current role. */
  lemma LoginExactly(d: Digest, salts: nat -> seq<byte>, ops: seq<Op>, name: string, password: string, db: Db, role: Role)
    requires Injective(d)
    ensures Login(Run(d, salts, ops), d, name, password, db) == LoggedIn(role) <==>
              && name != "" && password != "" && db == Works
              && exists a :: Opens(salts, ops, a, name, password) && role == RoleNow(salts, ops, a)
  {
    hide Created, Run, WasApproved, Bound, HashPassword, Hex, DistinctAccounts;
    RunTells(d, salts, ops);
    var users, accounts, key := Run(d, salts, ops), Created(salts, ops), Bound(name);
    if key in users {
      var a :| a in accounts && a.name == key;
      assert Stored(users, d, salts, ops, a);
      PasswordsCompare(d, password, a.password, users[key].salt);
      assert HashPassword(d, password, users[key].salt) == users[key].hash <==> a.password == password;
      OnlyOneOpens(salts, ops, a, name, password);
      assert RoleNow(salts, ops, a) != Pending <==> a.role != Pending || WasApproved(salts, ops, a.name);
    } else {
      forall a | a in accounts
        ensures a.name != key
      {
        assert Stored(users, d, salts, ops, a);
      }
    }
  }

  lemma OnlyOneOpens(salts: nat -> seq<byte>, ops: seq<Op>, a: Account, name: string, password: string)
    requires DistinctAccounts(Created(salts, ops)) && a in Created(salts, ops) && a.name == Bound(name)
    ensures forall b :: Opens(salts, ops, b, name, password) ==> b == a
  {
    hide Created, WasApproved;
    forall b | Opens(salts, ops, b, name, password)
      ensures b == a
    {
      NamesIdentify(Created(salts, ops), a, b);
    }
  }

  lemma EmailsStayUnique(d: Digest, salts: nat -> seq<byte>, ops: seq<Op>, u: string, v: string)
    requires u in Run(d, salts, ops) && v in Run(d, salts, ops) && u != v
    ensures Run(d, salts, ops)[u].email != Run(d, salts, ops)[v].email
  {
    RunTells(d, salts, ops);
    hide Created, Run, WasApproved;
    var accounts := Created(salts, ops);
    var a :| a in accounts && a.name == u;
    var b :| b in accounts && b.name == v;
    assert Stored(Run(d, salts, ops), d, salts, ops, a);
    assert Stored(Run(d, salts, ops), d, salts, ops, b);
    if a.email == b.email {
      NamesIdentify(accounts, a, b);
    }
  }

  /** The administrators are those of the seed, whatever is done later. */
  lemma AdministratorsAreSeeded(d: Digest, salts: nat -> seq<byte>, ops: seq<Op>, u: string)
    ensures u in Run(d, salts, ops) && Run(d, salts, ops)[u].role == Admin <==> u == "admin_alpha"
  {
    RunTells(d, salts, ops);
    OnlyOneAdmin(salts, ops);
    SeedsStay(salts, ops);
    var users, accounts := Run(d, salts, ops), Created(salts, ops);
    var admin := Seeds(salts)[0];
    assert accounts[0] == admin && admin.name == "admin_alpha" && admin.role == Admin;
    hide Created, Run, WasApproved, Seeds;
    assert Stored(users, d, salts, ops, admin);
    if u in users {
      var a :| a in accounts && a.name == u;
      assert Stored(users, d, salts, ops, a);
      assert users[u].role == Admin <==> a.role == Admin;
    }
  }

  lemma {:induction false} OnlyOneAdmin(salts: nat -> seq<byte>, ops: seq<Op>)
    ensures forall a <- Created(salts, ops) :: a.role == Admin <==> a.name == "admin_alpha"
  {
    if ops != [] {
      OnlyOneAdmin(salts, ops[..|ops| - 1]);
      SeedsStay(salts, ops[..|ops| - 1]);
      assert Seeds(salts)[0] in Created(salts, ops[..|ops| - 1]);
    }
  }

  // ---- two moments of one history ----

  /** A row keeps its name, address, hash and salt; its role can only go from pending to user. */
  predicate Advances(before: Row, after: Row) {
    after == before || (before.role == Pending && after == before.(role := User))
  }

  lemma {:induction false} RowsOnlyAdvance(d: Digest, salts: nat -> seq<byte>, ops: seq<Op>, i: nat, u: string)
    requires i <= |ops| && u in Run(d, salts, ops[..i])
    ensures u in Run(d, salts, ops) && Advances(Run(d, salts, ops[..i])[u], Run(d, salts, ops)[u])
    decreases |ops|
  {
    hide HashPassword, EmailUsed, Hex, Bound, Seed;
    if i < |ops| {
      var init := ops[..|ops| - 1];
      assert init[..i] == ops[..i];
      RowsOnlyAdvance(d, salts, init, i, u);
      var users := Run(d, salts, init);
      assert u in users.Keys;
      assert Run(d, salts, ops) == Do(users, d, ops[|ops| - 1]);
      hide Run;
      NotEmpty(users, u, d);
    } else {
      assert ops[..i] == ops;
    }
  }

  lemma NotEmpty(users: Users, u: string, d: Digest)
    requires u in users
    ensures |users| > 0 && forall more :: Seed(users, d, more) == users
  {
    assert |users| == |users.Keys|;
  }

  /** How a registration or an approval made at moment i was answered. */
  function AnswerAt(d: Digest, salts: nat -> seq<byte>, ops: seq<Op>, i: nat): Reply
    requires i < |ops| && (ops[i].DoRegister? || ops[i].DoApprove?)
  {
    var users := Run(d, salts, ops[..i]);
    if ops[i].DoRegister? then
      Register(users, d, ops[i].name, ops[i].email, ops[i].password, ops[i].salt, ops[i].db).1
    else Approve(users, ops[i].name, ops[i].db).1
  }

  /** No name is approved twice. */
  lemma ApprovedOnce(d: Digest, salts: nat -> seq<byte>, ops: seq<Op>, i: nat, j: nat)
    requires i < j < |ops| && ops[i].DoApprove? && ops[j].DoApprove? && Bound(ops[i].name) == Bound(ops[j].name)
    requires AnswerAt(d, salts, ops, i) == Approved
    ensures AnswerAt(d, salts, ops, j) != Approved
  {
    assert ops[..i + 1][..i] == ops[..i];
    assert ops[..j][..i + 1] == ops[..i + 1];
    RowsOnlyAdvance(d, salts, ops[..j], i + 1, Bound(ops[i].name));
  }

  /** No name is registered twice. */
  lemma RegisteredOnce(d: Digest, salts: nat -> seq<byte>, ops: seq<Op>, i: nat, j: nat)
    requires i < j < |ops| && ops[i].DoRegister? && ops[j].DoRegister? && Bound(ops[i].name) == Bound(ops[j].name)
    requires AnswerAt(d, salts, ops, i) == Registered
    ensures AnswerAt(d, salts, ops, j) != Registered
  {
    assert ops[..i + 1][..i] == ops[..i];
    assert ops[..j][..i + 1] == ops[..i + 1];
    RowsOnlyAdvance(d, salts, ops[..j], i + 1, Bound(ops[i].name));
  }

  /** Credentials that once opened an account open it for good, with the same role. */
  lemma LoginPersists(d: Digest, salts: nat -> seq<byte>, ops: seq<Op>, i: nat, name: string, password: string, role: Role)
    requires i <= |ops| && Login(Run(d, salts, ops[..i]), d, name, password, Works) == LoggedIn(role)
    ensures Login(Run(d, salts, ops), d, name, password, Works) == LoggedIn(role)
  {
    hide Run, HashPassword, Bound;
    RowsOnlyAdvance(d, salts, ops, i, Bound(name));
  }
}
