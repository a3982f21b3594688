/**
  * Locks and joins of both servers as a step machine. A thread runs any sequence of the code paths
  * of the source, each reduced to the mutexes it takes, the threads it joins and the work between.
  */
module Locking {

  datatype Lock =
    // device server
    | Devices | MotorSend | LinkClients | ListenerFinished | LinkFinished
    // client server
    | QtClients | TlsSessions | QtFinished | LinkFd | Cache | Users | LinkWait | StopWait

  type Thread = nat

  /** `Work` is anything else that comes to an end by itself: sends are assumed to finish. */
  datatype Op = Acquire(lock: Lock) | Release(lock: Lock) | Join(thread: Thread) | Work

  // ---- code paths ----

  function Section(l: Lock): seq<Op> { [Acquire(l), Work, Release(l)] }

  /** An encrypted send happens inside the TLS mutex, a plain one after it. */
  function Send(encrypted: bool): seq<Op> {
    if encrypted then Section(TlsSessions) else [Acquire(TlsSessions), Release(TlsSessions), Work]
  }

  function Sends(encrypted: seq<bool>): seq<Op> {
    if encrypted == [] then [] else Send(encrypted[0]) + Sends(encrypted[1..])
  }

  function Works(n: nat): seq<Op> {
    if n == 0 then [] else [Work] + Works(n - 1)
  }

  function Joins(ts: seq<Thread>): seq<Op> {
    if ts == [] then [] else [Join(ts[0])] + Joins(ts[1..])
  }

  datatype Path =
    // device server
    | CheckRegistered
    | ReportDevice(clients: nat, others: nat)
    | ReapDevices(clients: nat, others: nat)
    | SnapshotDevices
    | PushLists(clients: nat, others: nat)
    | CacheStatus
    | RelayEvent(clients: nat)
    | MotorCommand
    | LinkRequest
    | ListenerEnds
    | BeaconJoins(threads: seq<Thread>)
    | LinkHandlerEnds
    | LinkAccept(threads: seq<Thread>)
    // client server
    | QtPacket
    | QtAnswer(encrypted: bool)
    | LoginSucceeds(encrypted: bool)
    | AccountRequest(encrypted: bool)
    | CameraRequest(encrypted: bool)
    | DeviceRequest
    | QtBroadcast(recipients: seq<bool>)
    | CachePush
    | LinkUpOrDown
    | WaitForLink
    | WaitForStop
    | QtHandlerEnds
    | QtAccept(threads: seq<Thread>)

  /** The list provider takes the device mutex and releases it before the clients are locked. */
  function Push(clients: nat): seq<Op> {
    Section(Devices) + ([Acquire(LinkClients)] + Works(clients) + [Release(LinkClients)])
  }

  function Code(p: Path): seq<Op> {
    match p
    case CheckRegistered => Section(Devices)
    case ReportDevice(m, n) => Section(Devices) + [Work] + Push(m) + Push(n)
    case ReapDevices(m, n) => Section(Devices) + [Work] + Push(m) + Push(n)
    case SnapshotDevices => Section(Devices)
    case PushLists(m, n) => Push(m) + Push(n)
    case CacheStatus => Section(Devices)
    case RelayEvent(n) => [Acquire(LinkClients)] + Works(n) + [Release(LinkClients)]
    case MotorCommand => Section(Devices) + Section(MotorSend)
    case LinkRequest => Section(Devices) + [Work]
    case ListenerEnds => Section(ListenerFinished)
    case BeaconJoins(ts) => Section(ListenerFinished) + Joins(ts)
    case LinkHandlerEnds => [Work] + Section(LinkClients) + Section(LinkFinished)
    case LinkAccept(ts) => Section(LinkFinished) + Joins(ts) + [Work] + Section(LinkClients)
    case QtPacket => [Work] + Section(TlsSessions) + [Work]
    case QtAnswer(e) => Send(e)
    case LoginSucceeds(e) => Section(Users) + Section(QtClients) + Send(e) + Section(Cache) + Send(e)
    case AccountRequest(e) => Section(Users) + Send(e)
    case CameraRequest(e) => Section(Cache) + Send(e)
    case DeviceRequest => Section(LinkFd)
    case QtBroadcast(es) => [Acquire(QtClients)] + Sends(es) + [Release(QtClients)]
    case CachePush => Section(Cache)
    case LinkUpOrDown => Section(LinkFd)
    case WaitForLink => Section(LinkWait)
    case WaitForStop => Section(StopWait)
    case QtHandlerEnds => [Work] + Section(QtClients) + Section(TlsSessions) + Section(QtFinished)
    case QtAccept(ts) => Section(QtFinished) + Joins(ts) + [Work] + Section(QtClients)
  }

  /** Which threads a path joins: only the beacon thread and the two acceptors join at all. */
  function JoinsOf(p: Path): seq<Thread> {
    match p
    case BeaconJoins(ts) => ts
    case LinkAccept(ts) => ts
    case QtAccept(ts) => ts
    case _ => []
  }

  function CodeOf(ps: seq<Path>): seq<Op> {
    if ps == [] then [] else Code(ps[0]) + CodeOf(ps[1..])
  }

  // ---- the discipline ----

  /** The only nesting in the source is the client list over the TLS sessions. */
  function Rank(l: Lock): nat {
    match l case QtClients => 0 case TlsSessions => 1 case _ => 0
  }

  const TOP := 1

  /** Locks are taken in rank order and given back; joins happen with no lock held and only of joinable threads. */
  ghost predicate Disciplined(code: seq<Op>, held: set<Lock>, joinable: set<Thread>) {
    if code == [] then held == {}
    else match code[0]
      case Acquire(l) => (forall h <- held :: Rank(h) < Rank(l)) && Disciplined(code[1..], held + {l}, joinable)
      case Release(l) => l in held && Disciplined(code[1..], held - {l}, joinable)
      case Join(t) => held == {} && t in joinable && Disciplined(code[1..], held, joinable)
      case Work => Disciplined(code[1..], held, joinable)
  }

  lemma {:induction false} Before(a: seq<Op>, b: seq<Op>, held: set<Lock>, joinable: set<Thread>)
    requires Disciplined(a, held, joinable) && Disciplined(b, {}, joinable)
    ensures Disciplined(a + b, held, joinable)
  {
    if a == [] {
      assert a + b == b;
    } else {
      assert (a + b)[0] == a[0] && (a + b)[1..] == a[1..] + b;
      match a[0]
      case Acquire(l) => Before(a[1..], b, held + {l}, joinable);
      case Release(l) => Before(a[1..], b, held - {l}, joinable);
      case Join(_) => Before(a[1..], b, held, joinable);
      case Work => Before(a[1..], b, held, joinable);
    }
  }

  lemma SectionFine(l: Lock, joinable: set<Thread>)
    ensures Disciplined(Section(l), {}, joinable)
    ensures Disciplined([Work], {}, joinable)
  {
    var s := Section(l);
    assert s[1..] == [Work, Release(l)] && s[1..][1..] == [Release(l)] && s[1..][1..][1..] == [];
    assert {} + {l} - {l} == {};
    assert Disciplined([], {}, joinable);
    assert Disciplined(s[1..][1..], {l}, joinable);
    assert Disciplined(s[1..], {l}, joinable);
    assert [Work][1..] == [];
  }

  lemma {:induction false} WorksFine(n: nat, joinable: set<Thread>)
    ensures Disciplined([Acquire(LinkClients)] + Works(n) + [Release(LinkClients)], {}, joinable)
  {
    WorksThenRelease(n, joinable);
    var code := [Acquire(LinkClients)] + Works(n) + [Release(LinkClients)];
    assert code[1..] == Works(n) + [Release(LinkClients)];
    assert {} + {LinkClients} == {LinkClients};
  }

  lemma {:induction false} WorksThenRelease(n: nat, joinable: set<Thread>)
    ensures Disciplined(Works(n) + [Release(LinkClients)], {LinkClients}, joinable)
  {
    var code := Works(n) + [Release(LinkClients)];
    if n == 0 {
      assert code == [Release(LinkClients)] && code[1..] == [];
      assert {LinkClients} - {LinkClients} == {};
      assert Disciplined([], {}, joinable);
    } else {
      WorksThenRelease(n - 1, joinable);
      assert code[1..] == Works(n - 1) + [Release(LinkClients)];
    }
  }

  lemma {:induction false} JoinsFine(ts: seq<Thread>, joinable: set<Thread>)
    requires forall t <- ts :: t in joinable
    ensures Disciplined(Joins(ts), {}, joinable)
  {
    if ts != [] {
      JoinsFine(ts[1..], joinable);
      assert Joins(ts)[1..] == Joins(ts[1..]);
    }
  }

  /** Sending under the client mutex: the TLS mutex ranks above it and is given back before the next send. */
  lemma {:induction false} SendThen(encrypted: bool, held: set<Lock>, rest: seq<Op>, joinable: set<Thread>)
    requires held <= {QtClients} && Disciplined(rest, held, joinable)
    ensures Disciplined(Send(encrypted) + rest, held, joinable)
  {
    var code := Send(encrypted) + rest;
    assert held + {TlsSessions} - {TlsSessions} == held;
    assert code[1..][1..][1..] == rest;
    if encrypted {
      assert code[1..][0] == Work && code[1..][1..][0] == Release(TlsSessions);
      assert Disciplined(code[1..][1..], held + {TlsSessions}, joinable);
      assert Disciplined(code[1..], held + {TlsSessions}, joinable);
    } else {
      assert code[1..][0] == Release(TlsSessions) && code[1..][1..][0] == Work;
      assert Disciplined(code[1..][1..], held, joinable);
      assert Disciplined(code[1..], held + {TlsSessions}, joinable);
    }
  }

  lemma {:induction false} SendsThenRelease(es: seq<bool>, joinable: set<Thread>)
    ensures Disciplined(Sends(es) + [Release(QtClients)], {QtClients}, joinable)
  {
    if es == [] {
      assert Sends(es) + [Release(QtClients)] == [Release(QtClients)] && [Release(QtClients)][1..] == [];
      assert {QtClients} - {QtClients} == {};
      assert Disciplined([], {}, joinable);
    } else {
      SendsThenRelease(es[1..], joinable);
      SendThen(es[0], {QtClients}, Sends(es[1..]) + [Release(QtClients)], joinable);
      assert Sends(es) + [Release(QtClients)] == Send(es[0]) + (Sends(es[1..]) + [Release(QtClients)]);
    }
  }

  lemma SendFine(encrypted: bool, joinable: set<Thread>)
    ensures Disciplined(Send(encrypted), {}, joinable)
  {
    SendThen(encrypted, {}, [], joinable);
    assert Send(encrypted) + [] == Send(encrypted);
  }

  lemma PushFine(n: nat, joinable: set<Thread>)
    ensures Disciplined(Push(n), {}, joinable)
  {
    SectionFine(Devices, joinable);
    WorksFine(n, joinable);
    Before(Section(Devices), [Acquire(LinkClients)] + Works(n) + [Release(LinkClients)], {}, joinable);
  }

  lemma BroadcastFine(es: seq<bool>, joinable: set<Thread>)
    ensures Disciplined([Acquire(QtClients)] + Sends(es) + [Release(QtClients)], {}, joinable)
  {
    SendsThenRelease(es, joinable);
    var code := [Acquire(QtClients)] + Sends(es) + [Release(QtClients)];
    assert code[1..] == Sends(es) + [Release(QtClients)];
    assert {} + {QtClients} == {QtClients};
  }

  /** Two closed pieces of code one after the other are a closed piece of code. */
  lemma Both(a: seq<Op>, b: seq<Op>, joinable: set<Thread>)
    requires Disciplined(a, {}, joinable) && Disciplined(b, {}, joinable)
    ensures Disciplined(a + b, {}, joinable)
  {
    Before(a, b, {}, joinable);
  }

  lemma DevicePathFine(n: nat, m: nat, joinable: set<Thread>)
    ensures Disciplined(Section(Devices) + [Work] + Push(n) + Push(m), {}, joinable)
  {
    hide Disciplined, Section, Push;
    SectionFine(Devices, joinable);
    PushFine(n, joinable);
    PushFine(m, joinable);
    Both(Section(Devices), [Work], joinable);
    Both(Section(Devices) + [Work], Push(n), joinable);
    Both(Section(Devices) + [Work] + Push(n), Push(m), joinable);
  }

  lemma AcceptFine(a: Lock, b: Lock, ts: seq<Thread>, joinable: set<Thread>)
    requires forall t <- ts :: t in joinable
    ensures Disciplined(Section(a) + Joins(ts), {}, joinable)
    ensures Disciplined(Section(a) + Joins(ts) + [Work] + Section(b), {}, joinable)
  {
    hide Disciplined, Section, Joins;
    SectionFine(a, joinable);
    SectionFine(b, joinable);
    JoinsFine(ts, joinable);
    Both(Section(a), Joins(ts), joinable);
    Both(Section(a) + Joins(ts), [Work], joinable);
    Both(Section(a) + Joins(ts) + [Work], Section(b), joinable);
  }

  lemma SectionsFine(a: Lock, b: Lock, c: Lock, joinable: set<Thread>)
    ensures Disciplined(Section(a) + Section(b), {}, joinable)
    ensures Disciplined([Work] + Section(a) + [Work], {}, joinable)
    ensures Disciplined([Work] + Section(a) + Section(b), {}, joinable)
    ensures Disciplined([Work] + Section(a) + Section(b) + Section(c), {}, joinable)
    ensures Disciplined(Section(a) + [Work], {}, joinable)
  {
    hide Disciplined, Section;
    SectionFine(a, joinable);
    SectionFine(b, joinable);
    SectionFine(c, joinable);
    Both(Section(a), Section(b), joinable);
    Both([Work], Section(a), joinable);
    Both([Work] + Section(a), [Work], joinable);
    Both([Work] + Section(a), Section(b), joinable);
    Both([Work] + Section(a) + Section(b), Section(c), joinable);
    Both(Section(a), [Work], joinable);
  }

  lemma AnswerFine(a: Lock, e: bool, joinable: set<Thread>)
    ensures Disciplined(Section(a) + Send(e), {}, joinable)
  {
    hide Disciplined, Section, Send;
    SectionFine(a, joinable);
    SendFine(e, joinable);
    Both(Section(a), Send(e), joinable);
  }

  lemma LoginFine(e: bool, joinable: set<Thread>)
    ensures Disciplined(Section(Users) + Section(QtClients) + Send(e) + Section(Cache) + Send(e), {}, joinable)
  {
    hide Disciplined, Section, Send;
    SectionsFine(Users, QtClients, Cache, joinable);
    SectionFine(Cache, joinable);
    SendFine(e, joinable);
    Both(Section(Users) + Section(QtClients), Send(e), joinable);
    Both(Section(Users) + Section(QtClients) + Send(e), Section(Cache), joinable);
    Both(Section(Users) + Section(QtClients) + Send(e) + Section(Cache), Send(e), joinable);
  }

  /** Every code path of the source keeps the discipline. */
  lemma PathFine(p: Path, joinable: set<Thread>)
    requires forall t <- JoinsOf(p) :: t in joinable
    ensures Disciplined(Code(p), {}, joinable)
  {
    hide Disciplined, Section, Send, Sends, Push, Works, Joins;
    match p
    case ReportDevice(n, m) => DevicePathFine(n, m, joinable);
    case ReapDevices(n, m) => DevicePathFine(n, m, joinable);
    case PushLists(n, m) =>
      PushFine(n, joinable);
      PushFine(m, joinable);
      Both(Push(n), Push(m), joinable);
    case RelayEvent(n) => WorksFine(n, joinable);
    case MotorCommand => SectionsFine(Devices, MotorSend, MotorSend, joinable);
    case LinkRequest => SectionsFine(Devices, Devices, Devices, joinable);
    case ListenerEnds => SectionFine(ListenerFinished, joinable);
    case BeaconJoins(ts) => AcceptFine(ListenerFinished, ListenerFinished, ts, joinable);
    case LinkHandlerEnds => SectionsFine(LinkClients, LinkFinished, LinkFinished, joinable);
    case LinkAccept(ts) => AcceptFine(LinkFinished, LinkClients, ts, joinable);
    case QtPacket => SectionsFine(TlsSessions, TlsSessions, TlsSessions, joinable);
    case QtAnswer(e) => SendFine(e, joinable);
    case LoginSucceeds(e) => LoginFine(e, joinable);
    case AccountRequest(e) => AnswerFine(Users, e, joinable);
    case CameraRequest(e) => AnswerFine(Cache, e, joinable);
    case DeviceRequest => SectionFine(LinkFd, joinable);
    case QtBroadcast(es) => BroadcastFine(es, joinable);
    case CachePush => SectionFine(Cache, joinable);
    case LinkUpOrDown => SectionFine(LinkFd, joinable);
    case WaitForLink => SectionFine(LinkWait, joinable);
    case WaitForStop => SectionFine(StopWait, joinable);
    case QtHandlerEnds => SectionsFine(QtClients, TlsSessions, QtFinished, joinable);
    case QtAccept(ts) => AcceptFine(QtFinished, QtClients, ts, joinable);
    case _ => SectionFine(Devices, joinable);
  }

  lemma {:induction false} ProgramFine(ps: seq<Path>, joinable: set<Thread>)
    requires forall p <- ps :: forall t <- JoinsOf(p) :: t in joinable
    ensures Disciplined(CodeOf(ps), {}, joinable)
  {
    if ps != [] {
      hide Code;
      PathFine(ps[0], joinable);
      ProgramFine(ps[1..], joinable);
      Both(Code(ps[0]), CodeOf(ps[1..]), joinable);
    }
  }

  // ---- the machine ----

  /** What each thread still has to do, and who holds which mutex. */
  datatype State = State(code: map<Thread, seq<Op>>, owner: map<Lock, Thread>)

  predicate Done(s: State, t: Thread) {
    t !in s.code || s.code[t] == []
  }

  predicate CanStep(s: State, t: Thread) {
    && !Done(s, t)
    && match s.code[t][0]
       case Acquire(l) => l !in s.owner
       case Release(_) => true
       case Join(u) => Done(s, u)
       case Work => true
  }

  function Next(s: State, t: Thread): State
    requires CanStep(s, t)
  {
    var rest := s.code[t := s.code[t][1..]];
    match s.code[t][0]
    case Acquire(l) => State(rest, s.owner[l := t])
    case Release(l) => State(rest, s.owner - {l})
    case _ => State(rest, s.owner)
  }

  predicate Possible(s: State, schedule: seq<Thread>)
    decreases |schedule|
  {
    schedule == [] || (CanStep(s, schedule[0]) && Possible(Next(s, schedule[0]), schedule[1..]))
  }

  function After(s: State, schedule: seq<Thread>): State
    requires Possible(s, schedule)
    decreases |schedule|
  {
    if schedule == [] then s else After(Next(s, schedule[0]), schedule[1..])
  }

  function Holding(s: State, t: Thread): set<Lock> {
    set l | l in s.owner && s.owner[l] == t
  }

  /** Threads come in two levels; a thread of the upper level may join those of the lower. */
  function Joinable(joiners: set<Thread>, t: Thread, all: set<Thread>): set<Thread> {
    if t in joiners then all - joiners else {}
  }

  ghost predicate Inv(s: State, joiners: set<Thread>) {
    && (forall t :: t in s.code ==> Disciplined(s.code[t], Holding(s, t), Joinable(joiners, t, s.code.Keys)))
    && (forall l :: l in s.owner ==> s.owner[l] in s.code)
  }

  /** Each thread runs some sequence of code paths; the beacon thread and the acceptors join, nobody joins them. */
  ghost predicate Initial(s: State, joiners: set<Thread>, paths: map<Thread, seq<Path>>) {
    && s.owner == map[] && s.code.Keys == paths.Keys
    && (forall t :: t in paths ==> s.code[t] == CodeOf(paths[t]))
    && (forall t :: t in paths ==> forall p <- paths[t] :: forall u <- JoinsOf(p) :: t in joiners && u in paths && u !in joiners)
  }

  lemma InitialInv(s: State, joiners: set<Thread>, paths: map<Thread, seq<Path>>)
    requires Initial(s, joiners, paths)
    ensures Inv(s, joiners)
  {
    forall t | t in s.code
      ensures Disciplined(s.code[t], Holding(s, t), Joinable(joiners, t, s.code.Keys))
    {
      assert Holding(s, t) == {};
      ProgramFine(paths[t], Joinable(joiners, t, s.code.Keys));
    }
  }

  lemma InvKept(s: State, joiners: set<Thread>, t: Thread)
    requires Inv(s, joiners) && CanStep(s, t)
    ensures Inv(Next(s, t), joiners)
  {
    var s' := Next(s, t);
    assert s'.code.Keys == s.code.Keys;
    forall u | u in s'.code
      ensures Disciplined(s'.code[u], Holding(s', u), Joinable(joiners, u, s'.code.Keys))
    {
      assert Disciplined(s.code[u], Holding(s, u), Joinable(joiners, u, s.code.Keys));
      HoldingAfter(s, t, u);
    }
  }

  lemma HoldingAfter(s: State, t: Thread, u: Thread)
    requires CanStep(s, t)
    requires s.code[t][0].Release? ==> s.code[t][0].lock in Holding(s, t)
    ensures var s' := Next(s, t);
            Holding(s', u) == if u != t then Holding(s, u)
                              else match s.code[t][0]
                                case Acquire(l) => Holding(s, t) + {l}
                                case Release(l) => Holding(s, t) - {l}
                                case _ => Holding(s, t)
  {
  }

  lemma {:induction false} InvReached(s: State, joiners: set<Thread>, schedule: seq<Thread>)
    requires Inv(s, joiners) && Possible(s, schedule)
    ensures Inv(After(s, schedule), joiners)
    decreases |schedule|
  {
    if schedule != [] {
      hide Inv, CanStep, Next;
      InvKept(s, joiners, schedule[0]);
      InvReached(Next(s, schedule[0]), joiners, schedule[1..]);
    }
  }

  // ---- no wait cycles ----

  /** `t` cannot go on because of `u`. */
  predicate WaitsFor(s: State, t: Thread, u: Thread) {
    && !Done(s, t)
    && match s.code[t][0]
       case Acquire(l) => l in s.owner && s.owner[l] == u
       case Join(v) => v == u && !Done(s, u)
       case _ => false
  }

  /** Falls along every wait: joins go down a level, lock waits go up the ranks. */
  function Height(s: State, joiners: set<Thread>, t: Thread): nat {
    if Done(s, t) then 0
    else match s.code[t][0]
      case Acquire(l) => 1 + TOP - Rank(l)
      case Join(_) => if t in joiners then TOP + 3 else TOP + 2
      case _ => 0
  }

  lemma WaitsGoDown(s: State, joiners: set<Thread>, t: Thread, u: Thread)
    requires Inv(s, joiners) && WaitsFor(s, t, u)
    ensures !Done(s, u) && Height(s, joiners, u) < Height(s, joiners, t)
  {
    assert Disciplined(s.code[t], Holding(s, t), Joinable(joiners, t, s.code.Keys));
    match s.code[t][0]
    case Acquire(l) =>
      assert l in Holding(s, u);
      assert Disciplined(s.code[u], Holding(s, u), Joinable(joiners, u, s.code.Keys));
    case Join(_) =>
      if !Done(s, u) {
        assert Disciplined(s.code[u], Holding(s, u), Joinable(joiners, u, s.code.Keys));
      }
    case _ =>
  }

  /** A chain of waits. */
  predicate Chain(s: State, ts: seq<Thread>) {
    forall i :: 0 <= i < |ts| - 1 ==> WaitsFor(s, ts[i], ts[i + 1])
  }

  lemma {:induction false} ChainGoesDown(s: State, joiners: set<Thread>, ts: seq<Thread>)
    requires Inv(s, joiners) && Chain(s, ts) && |ts| >= 2
    ensures Height(s, joiners, ts[|ts| - 1]) < Height(s, joiners, ts[0])
  {
    WaitsGoDown(s, joiners, ts[0], ts[1]);
    if |ts| > 2 {
      hide WaitsFor, Height;
      assert forall i :: 0 <= i < |ts[1..]| ==> ts[1..][i] == ts[i + 1];
      ChainGoesDown(s, joiners, ts[1..]);
    }
  }

  /** In every reachable state of every mix of source paths no chain of waits closes on itself. */
  lemma NoWaitCycle(s: State, joiners: set<Thread>, paths: map<Thread, seq<Path>>, schedule: seq<Thread>, ts: seq<Thread>)
    requires Initial(s, joiners, paths) && Possible(s, schedule)
    requires |ts| >= 2 && Chain(After(s, schedule), ts)
    ensures ts[0] != ts[|ts| - 1]
  {
    InitialInv(s, joiners, paths);
    InvReached(s, joiners, schedule);
    ChainGoesDown(After(s, schedule), joiners, ts);
  }

  /** And as long as some thread has something left to do, some thread can do it. */
  lemma NeverStuck(s: State, joiners: set<Thread>, paths: map<Thread, seq<Path>>, schedule: seq<Thread>, t: Thread)
    requires Initial(s, joiners, paths) && Possible(s, schedule)
    requires !Done(After(s, schedule), t)
    ensures exists u :: CanStep(After(s, schedule), u)
  {
    InitialInv(s, joiners, paths);
    InvReached(s, joiners, schedule);
    SomeoneCan(After(s, schedule), joiners, t);
  }

  lemma {:induction false} SomeoneCan(s: State, joiners: set<Thread>, t: Thread)
    requires Inv(s, joiners) && !Done(s, t)
    ensures exists u :: CanStep(s, u)
    decreases Height(s, joiners, t)
  {
    if !CanStep(s, t) {
      var u := if s.code[t][0].Acquire? then s.owner[s.code[t][0].lock] else s.code[t][0].thread;
      WaitsGoDown(s, joiners, t, u);
      SomeoneCan(s, joiners, u);
    }
  }
}
