/**
  * How fresh the camera list of a client is. Every change of the registry is followed by a push of the list by the
  * thread that made it, and a new connection is welcomed with the list; but the list is read before the client mutex
  * is taken, and the welcome does not take it at all, so lists can be sent in another order than they were read in.
  * The machine is that of `Broadcast`; the registry is reduced to the number of changes it has seen, a list to the
  * number of changes it shows.
  */
module CameraLists {
  import opened Common
  import opened Wire
  import opened Pieces
  import Acceptor
  import Broadcast

  type Conn = Broadcast.Conn
  type Thread = Broadcast.Thread

  datatype State = State(
    link: Broadcast.State,
    version: nat,                      // changes of the registry so far
    owing: set<Thread>,                // threads that have changed it and not yet read the list to push
    read: map<Thread, nat>,            // lists that threads have read and not yet begun to push
    asked: map<Conn, nat>,             // lists that handlers have read and not yet begun to send
    pushed: seq<nat>,                  // what the lists in the log show
    answered: map<Conn, seq<nat>>,     // what the lists that the handlers have begun to send show
    late: set<Conn>)                   // connections to which the list begun last was read before one begun earlier

  datatype Step =
    | Change(thread: Thread)
    | Read(thread: Thread)
    | Ask(conn: Conn)
    | Link(step: Broadcast.Step)

  const Init := State(Broadcast.Init, 0, {}, map[], map[], [], map[], {})

  /** Lists are pushed and sent as they have been read; a handler begins with the list. */
  ghost predicate Ready(p: Broadcast.Programs, s: State, x: Broadcast.Step)
    requires Broadcast.Enabled(p, s.link, x)
  {
    match x
    case Lock(t) => t !in s.owing && (t in s.read <==> p[t][Broadcast.Begun(s.link, t)].kind == CAMERA)
    case OwnBegin(c, f) => (c in s.asked <==> f.kind == CAMERA) && (s.link.lines[c].own == [] ==> f.kind == CAMERA)
    case _ => true
  }

  ghost predicate Enabled(p: Broadcast.Programs, s: State, step: Step) {
    !s.link.server.place.Terminated? &&
    match step
    case Change(t) => t !in s.owing && t !in s.read
    case Read(t) => t !in s.read
    case Ask(c) =>
      && Acceptor.In(s.link.server, c, Acceptor.Serving) && c in s.link.lines
      && s.link.lines[c].direct.None? && c !in s.asked
    case Link(x) => Broadcast.Enabled(p, s.link, x) && Ready(p, s, x)
  }

  function Answers(s: State, c: Conn): seq<nat> {
    if c in s.answered then s.answered[c] else []
  }

  /** What a list shows. */
  function Shows(s: State, c: Conn, origin: Broadcast.Origin): nat {
    match origin
    case Logged(i, _) => if i < |s.pushed| then s.pushed[i] else 0
    case Own(j, _) => if j < |Answers(s, c)| then Answers(s, c)[j] else 0
  }

  predicate IsList(piece: Piece<Broadcast.Origin>) {
    piece.from == 0 && piece.origin.frame.kind == CAMERA
  }

  /** What the lists that begin on a wire show, in the order in which they do. */
  function ShownOn(s: State, c: Conn, ps: seq<Piece<Broadcast.Origin>>): seq<nat> {
    if ps == [] then []
    else ShownOn(s, c, ps[..|ps| - 1]) + if IsList(ps[|ps| - 1]) then [Shows(s, c, ps[|ps| - 1].origin)] else []
  }

  function Shown(s: State, c: Conn): seq<nat> {
    if c in s.link.lines then ShownOn(s, c, s.link.lines[c].wire) else []
  }

  predicate Overtakes(shown: seq<nat>, v: nat) {
    exists i :: 0 <= i < |shown| && shown[i] > v
  }

  /** A list that shows `v` is begun to `c`. */
  function Mark(s: State, c: Conn, v: nat): set<Conn> {
    if Overtakes(Shown(s, c), v) then s.late + {c} else s.late - {c}
  }

  /** The list that the step begins to a connection, if it does. */
  function Begins(s: State, x: Broadcast.Step): Option<(Conn, nat)> {
    match x
    case Chunk(Some(c), _) =>
      if Broadcast.Sending(s.link) && s.link.holder.value.sent == 0 && s.link.holder.value.frame.kind == CAMERA
      then Some((c, Shows(s, c, Broadcast.LastLogged(s.link, s.link.holder.value.frame)))) else None
    case OwnChunk(c, _) =>
      if c in s.link.lines && Broadcast.Busy(s.link.lines[c]) && s.link.lines[c].direct == Some(0)
         && Broadcast.LastOwn(s.link.lines[c]).kind == CAMERA
      then Some((c, Shows(s, c, Broadcast.LastOf(s.link.lines[c])))) else None
    case _ => None
  }

  ghost function Linked(p: Broadcast.Programs, s: State, x: Broadcast.Step): State
    requires Broadcast.Enabled(p, s.link, x)
  {
    s.(link := Broadcast.Next(p, s.link, x),
       read := if x.Lock? then s.read - {x.thread} else s.read,
       pushed := if x.Lock? then s.pushed + [if x.thread in s.read then s.read[x.thread] else 0] else s.pushed,
       asked := if x.OwnBegin? then s.asked - {x.conn} else s.asked,
       answered := if x.OwnBegin? then s.answered[x.conn := Answers(s, x.conn) + [if x.conn in s.asked then s.asked[x.conn] else 0]]
                   else if x.Serve? && x.step.Accept? then s.answered[x.step.conn := []] else s.answered,
       late := match Begins(s, x) case None => s.late case Some((c, v)) => Mark(s, c, v))
  }

  ghost function Next(p: Broadcast.Programs, s: State, step: Step): State
    requires Enabled(p, s, step)
  {
    match step
    case Change(t) => s.(version := s.version + 1, owing := s.owing + {t})
    case Read(t) => s.(owing := s.owing - {t}, read := s.read[t := s.version])
    case Ask(c) => s.(asked := s.asked[c := s.version])
    case Link(x) => Linked(p, s, x)
  }

  ghost predicate Possible(p: Broadcast.Programs, s: State, steps: seq<Step>)
    decreases |steps|
  {
    steps == [] || (Enabled(p, s, steps[0]) && Possible(p, Next(p, s, steps[0]), steps[1..]))
  }

  ghost function After(p: Broadcast.Programs, s: State, steps: seq<Step>): State
    requires Possible(p, s, steps)
    decreases |steps|
  {
    if steps == [] then s else After(p, Next(p, s, steps[0]), steps[1..])
  }

  // ---- invariants ----

  ghost predicate Sizes(s: State) {
    && |s.pushed| == |s.link.log| && s.answered.Keys == s.link.lines.Keys
    && (forall c :: c in s.link.lines ==> |s.answered[c]| == |s.link.lines[c].own|)
  }

  /** Nothing shows more changes than there have been. */
  ghost predicate Bounded(s: State) {
    && (forall t :: t in s.read ==> s.read[t] <= s.version)
    && (forall c :: c in s.asked ==> s.asked[c] <= s.version)
    && (forall v <- s.pushed :: v <= s.version)
    && (forall c :: c in s.answered ==> forall v <- s.answered[c] :: v <= s.version)
  }

  predicate ListAt(s: State, i: nat) {
    i < |s.link.log| && s.link.log[i].1.kind == CAMERA && i < |s.pushed|
  }

  /** The latest change is not lost: its list is owed, read or pushed. */
  ghost predicate Pending(s: State) {
    || s.version == 0 || s.owing != {}
    || (exists t :: t in s.read && s.read[t] == s.version)
    || (exists i: nat :: ListAt(s, i) && s.pushed[i] == s.version)
  }

  /** The welcome of a connection shows at least what was pushed before it was entered. */
  ghost predicate Welcomed(s: State, c: Conn)
    requires c in s.link.lines
  {
    var l := s.link.lines[c];
    && (c in s.asked ==> l.since.Some?)
    && (l.own != [] ==> l.own[0].kind == CAMERA)
    && (l.since.Some? ==> forall i: nat :: ListAt(s, i) && i < l.since.value ==>
          && (Answers(s, c) != [] ==> s.pushed[i] <= Answers(s, c)[0])
          && (Answers(s, c) == [] && c in s.asked ==> s.pushed[i] <= s.asked[c]))
  }

  /** The flag says whether the list begun last was overtaken. */
  ghost predicate Flagged(s: State, c: Conn) {
    if Shown(s, c) == [] then c !in s.late
    else c in s.late <==> Overtakes(Shown(s, c), Shown(s, c)[|Shown(s, c)| - 1])
  }

  ghost predicate Inv(p: Broadcast.Programs, s: State) {
    && Broadcast.Inv(p, s.link) && Sizes(s) && Bounded(s) && Pending(s)
    && (forall c :: c in s.asked ==> c in s.link.lines)
    && (forall c :: c in s.link.lines ==> Welcomed(s, c))
    && (forall c :: Flagged(s, c))
  }

  // ---- what a step of the link does to the log, to what handlers send, and to a wire ----

  lemma LogAfter(p: Broadcast.Programs, link: Broadcast.State, x: Broadcast.Step)
    requires Broadcast.Enabled(p, link, x)
    ensures Broadcast.Next(p, link, x).log ==
            if x.Lock? then link.log + [(x.thread, p[x.thread][Broadcast.Begun(link, x.thread)])] else link.log
  {
    hide Acceptor.Next, Acceptor.Enabled, Broadcast.LinesAfter, Broadcast.Received, Broadcast.OwnReceived, Broadcast.Length;
  }

  /** One chunk on one wire, or nothing on any. */
  ghost predicate Grows(link: Broadcast.State, x: Broadcast.Step, c: Conn, wire: seq<Piece<Broadcast.Origin>>)
    requires c in link.lines
  {
    var l := link.lines[c];
    match x
    case Chunk(Some(d), n) =>
      if d == c then
        && Broadcast.Sending(link)
        && var h := link.holder.value;
           wire == Put(l.wire, Broadcast.LastLogged(link, h.frame), Encode(h.frame), h.sent, n, h.sent > 0 && h.to == Some(c))
      else wire == l.wire
    case OwnChunk(d, n) =>
      if d == c then
        && Broadcast.Busy(l)
        && wire == Put(l.wire, Broadcast.LastOf(l), Encode(Broadcast.LastOwn(l)), l.direct.value, n, l.direct.value > 0)
      else wire == l.wire
    case _ => wire == l.wire
  }

  lemma LineAfter(p: Broadcast.Programs, link: Broadcast.State, x: Broadcast.Step, c: Conn)
    requires Broadcast.Enabled(p, link, x) && c in link.lines && link.lines.Keys == link.server.conns.Keys
    ensures c in Broadcast.Next(p, link, x).lines
    ensures var l, l' := link.lines[c], Broadcast.Next(p, link, x).lines[c];
            && l'.own == (if x.OwnBegin? && x.conn == c then l.own + [x.frame] else l.own)
            && (l'.since == l.since || (x == Broadcast.Serve(Acceptor.Register) && link.server.place.conn == c && l'.since == Some(|link.log|)))
            && Grows(link, x, c, l'.wire)
  {
    hide Acceptor.Next, Broadcast.Due, Broadcast.Length, Put, Encode, Broadcast.Mid, Broadcast.OwnMid, Broadcast.Target, Acceptor.Open,
      Broadcast.LastLogged;
  }

  lemma NewLineAfter(p: Broadcast.Programs, link: Broadcast.State, x: Broadcast.Step, c: Conn)
    requires Broadcast.Enabled(p, link, x) && c !in link.lines && link.lines.Keys == link.server.conns.Keys
    requires c in Broadcast.Next(p, link, x).lines
    ensures x.Serve? && x.step.Accept? && x.step.conn == c && Broadcast.Next(p, link, x).lines[c] == Broadcast.NewLine
  {
    Broadcast.KeysKept(p, link, x);
    hide Acceptor.Next, Broadcast.Length, Broadcast.Received, Broadcast.OwnReceived;
  }

  lemma Keys(p: Broadcast.Programs, s: State)
    requires Broadcast.Inv(p, s.link)
    ensures s.link.lines.Keys == s.link.server.conns.Keys
  {
    hide Broadcast.Fine;
  }

  // ---- every step keeps the invariants ----

  /** What a step of the link does besides. */
  lemma AnswersAfter(p: Broadcast.Programs, s: State, x: Broadcast.Step, c: Conn)
    requires Broadcast.Enabled(p, s.link, x)
    ensures var s' := Linked(p, s, x);
            && (x.OwnBegin? && x.conn == c ==>
                  Answers(s', c) == Answers(s, c) + [if c in s.asked then s.asked[c] else 0] && c !in s'.asked)
            && (!(x.OwnBegin? && x.conn == c) ==>
                  && (c in s'.asked <==> c in s.asked) && (c in s.asked ==> s'.asked[c] == s.asked[c])
                  && (!(x.Serve? && x.step.Accept? && x.step.conn == c) ==> Answers(s', c) == Answers(s, c)))
    ensures x.Serve? && x.step.Accept? && x.step.conn == c ==> Answers(Linked(p, s, x), c) == []
    ensures Linked(p, s, x).answered.Keys ==
            s.answered.Keys + (if x.OwnBegin? then {x.conn} else if x.Serve? && x.step.Accept? then {x.step.conn} else {})
    ensures Linked(p, s, x).pushed == if x.Lock? then s.pushed + [if x.thread in s.read then s.read[x.thread] else 0] else s.pushed
  {
    hide Broadcast.Next, Broadcast.Enabled, Begins, Mark;
  }

  lemma SizeKept(p: Broadcast.Programs, s: State, x: Broadcast.Step, c: Conn)
    requires Broadcast.Inv(p, s.link) && Sizes(s) && Broadcast.Enabled(p, s.link, x) && c in Linked(p, s, x).link.lines
    ensures |Answers(Linked(p, s, x), c)| == |Linked(p, s, x).link.lines[c].own|
  {
    hide Broadcast.Next, Broadcast.Inv, Broadcast.Enabled, Begins, Mark, Grows, Linked;
    Keys(p, s);
    AnswersAfter(p, s, x, c);
    LinkAfter(p, s, x);
    if c in s.link.lines {
      LineAfter(p, s.link, x, c);
      NotAccepted(p, s, x, c);
    } else {
      NewLineAfter(p, s.link, x, c);
    }
  }

  lemma SizesKept(p: Broadcast.Programs, s: State, x: Broadcast.Step)
    requires Broadcast.Inv(p, s.link) && Sizes(s) && Broadcast.Enabled(p, s.link, x)
    ensures Sizes(Linked(p, s, x))
  {
    hide Broadcast.Next, Broadcast.Inv, Broadcast.Enabled, Linked, Begins, Mark;
    Keys(p, s);
    Broadcast.KeysKept(p, s.link, x);
    LogAfter(p, s.link, x);
    AnswersAfter(p, s, x, 0);
    LinkAfter(p, s, x);
    OwnConnection(p, s, x);
    var s' := Linked(p, s, x);
    forall c | c in s'.link.lines
      ensures |s'.answered[c]| == |s'.link.lines[c].own|
    {
      SizeKept(p, s, x, c);
    }
  }

  lemma OwnConnection(p: Broadcast.Programs, s: State, x: Broadcast.Step)
    requires Broadcast.Enabled(p, s.link, x)
    ensures x.OwnBegin? ==> x.conn in s.link.lines
  {
  }

  lemma LinkAfter(p: Broadcast.Programs, s: State, x: Broadcast.Step)
    requires Broadcast.Enabled(p, s.link, x)
    ensures Linked(p, s, x).link == Broadcast.Next(p, s.link, x) && Linked(p, s, x).version == s.version
    ensures Linked(p, s, x).owing == s.owing
  {
    hide Broadcast.Next, Broadcast.Enabled, Begins, Mark;
  }

  lemma BoundedKept(p: Broadcast.Programs, s: State, x: Broadcast.Step)
    requires Bounded(s) && Enabled(p, s, Link(x))
    ensures Bounded(Linked(p, s, x))
  {
    hide Broadcast.Next, Broadcast.Enabled, Begins, Mark, Ready;
  }

  lemma PendingKept(p: Broadcast.Programs, s: State, x: Broadcast.Step)
    requires Sizes(s) && Pending(s) && Enabled(p, s, Link(x))
    ensures Pending(Linked(p, s, x))
  {
    LogAfter(p, s.link, x);
    var s' := Linked(p, s, x);
    if x.Lock? {
      var n := |s.pushed|;
      assert s'.pushed == s.pushed + [if x.thread in s.read then s.read[x.thread] else 0];
      if x.thread in s.read && s.read[x.thread] == s.version {
        assert ListAt(s', n) && s'.pushed[n] == s.version;
      }
      if t :| t in s.read && s.read[t] == s.version && t != x.thread {
        assert t in s'.read;
      }
    }
    if i: nat :| ListAt(s, i) && s.pushed[i] == s.version {
      assert ListAt(s', i) && s'.pushed[i] == s.pushed[i];
    }
    hide Broadcast.Next, Broadcast.Enabled, Begins, Mark;
  }

  lemma WelcomedKept(p: Broadcast.Programs, s: State, x: Broadcast.Step, c: Conn)
    requires Broadcast.Inv(p, s.link) && Sizes(s) && Bounded(s) && Enabled(p, s, Link(x))
    requires c in s.link.lines && Welcomed(s, c)
    ensures c in Linked(p, s, x).link.lines && Welcomed(Linked(p, s, x), c)
  {
    hide Broadcast.Next, Broadcast.Inv, Linked, Grows, ListAt, Begins, Mark, Broadcast.Enabled, Ready;
    Keys(p, s);
    LinkAfter(p, s, x);
    LogAfter(p, s.link, x);
    LineAfter(p, s.link, x, c);
    AnswersAfter(p, s, x, c);
    NotAccepted(p, s, x, c);
    SinceInLog(p, s, c);
    if x == Broadcast.Serve(Acceptor.Register) {
      Broadcast.NotEnteredBefore(p, s.link);
    }
    ListsStay(s, Linked(p, s, x), x);
    if x.OwnBegin? && x.conn == c && s.link.lines[c].own == [] {
      WelcomeOf(p, s, x, c);
    }
  }

  /** The lists in the log are those of before, and perhaps a new one at its end. */
  lemma ListsStay(s: State, s': State, x: Broadcast.Step)
    requires Sizes(s) && s.link.log <= s'.link.log && s.pushed <= s'.pushed
    ensures forall i: nat :: i < |s.link.log| ==> (ListAt(s', i) <==> ListAt(s, i)) && (ListAt(s, i) ==> s'.pushed[i] == s.pushed[i])
  {
  }

  /** The first thing a handler sends is a list, and it has read it. */
  lemma WelcomeOf(p: Broadcast.Programs, s: State, x: Broadcast.Step, c: Conn)
    requires Enabled(p, s, Link(x)) && c in s.link.lines && x.OwnBegin? && x.conn == c && s.link.lines[c].own == []
    ensures x.frame.kind == CAMERA && c in s.asked
  {
    hide Broadcast.Enabled;
  }

  lemma SinceInLog(p: Broadcast.Programs, s: State, c: Conn)
    requires Broadcast.Inv(p, s.link) && c in s.link.lines
    ensures s.link.lines[c].since.Some? ==> s.link.lines[c].since.value <= |s.link.log|
    ensures s.link.lines[c].since.None? ==> s.link.lines[c].own == []
  {
    assert Broadcast.Fine(s.link, c);
    hide Broadcast.Holds, Broadcast.InProgramOrder, Broadcast.Steady, Broadcast.Fits, Broadcast.Labels, Broadcast.Content,
      Broadcast.Length, Acceptor.Inv;
  }

  /** What the lists on a wire show does not change as more is pushed and answered. */
  lemma {:induction false} ShownStays(s: State, s': State, c: Conn, ps: seq<Piece<Broadcast.Origin>>)
    requires forall i :: 0 <= i < |ps| ==> Shows(s', c, ps[i].origin) == Shows(s, c, ps[i].origin)
    ensures ShownOn(s', c, ps) == ShownOn(s, c, ps)
  {
    if ps != [] {
      ShownStays(s, s', c, ps[..|ps| - 1]);
    }
  }

  lemma KnownShows(p: Broadcast.Programs, s: State, x: Broadcast.Step, c: Conn, origin: Broadcast.Origin)
    requires Sizes(s) && Enabled(p, s, Link(x)) && c in s.link.lines && Broadcast.Known(s.link, s.link.lines[c], origin)
    requires x.Serve? && x.step.Accept? ==> x.step.conn != c
    ensures Shows(Linked(p, s, x), c, origin) == Shows(s, c, origin)
  {
    hide Broadcast.Next, Broadcast.Enabled, Begins, Mark;
  }

  lemma LabelsHold(p: Broadcast.Programs, s: State, c: Conn)
    requires Broadcast.Inv(p, s.link) && c in s.link.lines
    ensures Broadcast.Labels(s.link, c)
  {
    hide Broadcast.Holds, Broadcast.InProgramOrder, Broadcast.Steady, Broadcast.Fits, Broadcast.Labels, Broadcast.Content,
      Broadcast.Timed, Acceptor.Inv;
    assert Broadcast.Fine(s.link, c);
  }

  lemma NotAccepted(p: Broadcast.Programs, s: State, x: Broadcast.Step, c: Conn)
    requires Broadcast.Inv(p, s.link) && Broadcast.Enabled(p, s.link, x) && c in s.link.lines
    ensures x.Serve? && x.step.Accept? ==> x.step.conn != c
  {
    Keys(p, s);
    hide Broadcast.Inv;
  }

  lemma OldShown(p: Broadcast.Programs, s: State, x: Broadcast.Step, c: Conn)
    requires Broadcast.Inv(p, s.link) && Sizes(s) && Enabled(p, s, Link(x)) && c in s.link.lines
    ensures ShownOn(Linked(p, s, x), c, s.link.lines[c].wire) == Shown(s, c)
  {
    hide Broadcast.Inv, Broadcast.Enabled, Broadcast.Next, Linked, Sizes, Broadcast.Known, Encode, Shows, ShownOn, Ready;
    LabelsHold(p, s, c);
    NotAccepted(p, s, x, c);
    var ps := s.link.lines[c].wire;
    forall i | 0 <= i < |ps|
      ensures Shows(Linked(p, s, x), c, ps[i].origin) == Shows(s, c, ps[i].origin)
    {
      assert ps[i] in ps;
      KnownShows(p, s, x, c, ps[i].origin);
    }
    ShownStays(s, Linked(p, s, x), c, ps);
  }

  lemma PutShown(s: State, c: Conn, ps: seq<Piece<Broadcast.Origin>>, origin: Broadcast.Origin, bytes: seq<byte>, from: nat, n: nat, on: bool)
    requires on ==> from > 0
    ensures ShownOn(s, c, Put(ps, origin, bytes, from, n, on)) ==
            ShownOn(s, c, ps) + if from == 0 && origin.frame.kind == CAMERA then [Shows(s, c, origin)] else []
  {
    var qs := Put(ps, origin, bytes, from, n, on);
    if on && ps != [] && ps[|ps| - 1].origin == origin {
      assert qs[..|qs| - 1] == ps[..|ps| - 1];
    } else {
      assert qs[..|qs| - 1] == ps;
    }
  }

  lemma MarkFlags(shown: seq<nat>, v: nat)
    ensures Overtakes(shown + [v], v) <==> Overtakes(shown, v)
  {
    assert forall i :: 0 <= i < |shown| ==> (shown + [v])[i] == shown[i];
    if Overtakes(shown + [v], v) {
      var i :| 0 <= i < |shown + [v]| && (shown + [v])[i] > v;
      assert shown[i] > v;
    }
  }

  /** A chunk of a list that begins it makes it the last one shown; any other chunk leaves what is shown. */
  lemma ShownAfter(p: Broadcast.Programs, s: State, x: Broadcast.Step, c: Conn)
    requires Broadcast.Inv(p, s.link) && Sizes(s) && Enabled(p, s, Link(x)) && c in s.link.lines
    ensures var b := Begins(s, x);
            Shown(Linked(p, s, x), c) ==
            if b.Some? && b.value.0 == c then Shown(s, c) + [b.value.1] else Shown(s, c)
  {
    hide Broadcast.Inv, Broadcast.Enabled, Broadcast.Next, Linked, Sizes, Put, Encode, ShownOn, Shows, Ready, Broadcast.LastLogged,
      Broadcast.LastOf, Broadcast.LastOwn, Broadcast.Known;
    Keys(p, s);
    LinkAfter(p, s, x);
    LineAfter(p, s.link, x, c);
    OldShown(p, s, x, c);
    var s', l := Linked(p, s, x), s.link.lines[c];
    if x.Chunk? && x.to == Some(c) {
      var h := s.link.holder.value;
      var origin := Broadcast.LastLogged(s.link, h.frame);
      PutShown(s', c, l.wire, origin, Encode(h.frame), h.sent, x.size, h.sent > 0 && h.to == Some(c));
      assert origin.frame == h.frame by {
        FrameOfLast(s.link, h.frame);
      }
      if h.sent == 0 && h.frame.kind == CAMERA {
        ChunkKnown(p, s, x);
        KnownShows(p, s, x, c, origin);
      }
    } else if x.OwnChunk? && x.conn == c {
      var origin := Broadcast.LastOf(l);
      PutShown(s', c, l.wire, origin, Encode(Broadcast.LastOwn(l)), l.direct.value, x.size, l.direct.value > 0);
      OwnKnown(s.link, l);
      if l.direct.value == 0 && origin.frame.kind == CAMERA {
        KnownShows(p, s, x, c, origin);
      }
    }
    assert Shown(s, c) + [] == Shown(s, c);
  }

  lemma FrameOfLast(link: Broadcast.State, f: Frame)
    ensures Broadcast.LastLogged(link, f).frame == f
  {
  }

  lemma ChunkKnown(p: Broadcast.Programs, s: State, x: Broadcast.Step)
    requires Broadcast.Inv(p, s.link) && Broadcast.Enabled(p, s.link, x) && x.Chunk? && x.to.Some? && x.to.value in s.link.lines
    ensures Broadcast.Sending(s.link)
    ensures var f := s.link.holder.value.frame;
            Broadcast.Known(s.link, s.link.lines[x.to.value], Broadcast.LastLogged(s.link, f))
  {
    hide Broadcast.Lines, Broadcast.InProgramOrder, Acceptor.Inv, Broadcast.Length;
  }

  lemma OwnKnown(link: Broadcast.State, l: Broadcast.Line)
    requires Broadcast.Busy(l)
    ensures Broadcast.Known(link, l, Broadcast.LastOf(l)) && Broadcast.LastOf(l).frame == Broadcast.LastOwn(l)
  {
  }

  lemma LateAfter(p: Broadcast.Programs, s: State, x: Broadcast.Step)
    requires Broadcast.Enabled(p, s.link, x)
    ensures Linked(p, s, x).late == match Begins(s, x) case None => s.late case Some((c, v)) => Mark(s, c, v)
  {
    hide Broadcast.Next, Broadcast.Enabled, Begins, Mark;
  }

  lemma FlaggedKept(p: Broadcast.Programs, s: State, x: Broadcast.Step, c: Conn)
    requires Broadcast.Inv(p, s.link) && Sizes(s) && Enabled(p, s, Link(x)) && Flagged(s, c)
    ensures Flagged(Linked(p, s, x), c)
  {
    hide Broadcast.Inv, Broadcast.Enabled, Broadcast.Next, Linked, Sizes, Shown, Overtakes, Ready, Begins;
    LateAfter(p, s, x);
    var b := Begins(s, x);
    if c in s.link.lines {
      ShownAfter(p, s, x, c);
      if b.Some? && b.value.0 == c {
        MarkFlags(Shown(s, c), b.value.1);
      }
    } else {
      NothingYet(p, s, x, c);
    }
  }

  lemma NothingYet(p: Broadcast.Programs, s: State, x: Broadcast.Step, c: Conn)
    requires Broadcast.Inv(p, s.link) && Broadcast.Enabled(p, s.link, x) && c !in s.link.lines
    ensures Shown(s, c) == [] && Shown(Linked(p, s, x), c) == [] && (Begins(s, x).Some? ==> Begins(s, x).value.0 != c)
  {
    Keys(p, s);
    LinkAfter(p, s, x);
    if c in Broadcast.Next(p, s.link, x).lines {
      NewLineAfter(p, s.link, x, c);
    }
    hide Broadcast.Inv, Broadcast.Next, Linked;
  }

  lemma LinkKeeps(p: Broadcast.Programs, s: State, x: Broadcast.Step)
    requires Inv(p, s) && Enabled(p, s, Link(x))
    ensures Inv(p, Linked(p, s, x))
  {
    hide Broadcast.Inv, Broadcast.Enabled, Broadcast.Next, Linked, Sizes, Bounded, Pending, Welcomed, Flagged, Ready;
    LinkAfter(p, s, x);
    Broadcast.InvKept(p, s.link, x);
    SizesKept(p, s, x);
    BoundedKept(p, s, x);
    PendingKept(p, s, x);
    var s' := Linked(p, s, x);
    Keys(p, s);
    forall c | c in s'.link.lines
      ensures Welcomed(s', c)
    {
      if c in s.link.lines {
        WelcomedKept(p, s, x, c);
      } else {
        NewlyWelcomed(p, s, x, c);
      }
    }
    forall c
      ensures Flagged(s', c)
    {
      FlaggedKept(p, s, x, c);
    }
    forall c | c in s'.asked
      ensures c in s'.link.lines
    {
      AnswersAfter(p, s, x, c);
      LineAfter(p, s.link, x, c);
    }
  }

  lemma NewlyWelcomed(p: Broadcast.Programs, s: State, x: Broadcast.Step, c: Conn)
    requires Broadcast.Inv(p, s.link) && Broadcast.Enabled(p, s.link, x)
    requires c !in s.link.lines && c in Linked(p, s, x).link.lines && (forall d :: d in s.asked ==> d in s.link.lines)
    ensures Welcomed(Linked(p, s, x), c)
  {
    hide Broadcast.Inv, Broadcast.Enabled, Broadcast.Next, Linked;
    Keys(p, s);
    LinkAfter(p, s, x);
    NewLineAfter(p, s.link, x, c);
    AnswersAfter(p, s, x, c);
  }

  /** Changing the registry and reading the list do not touch the link. */
  lemma OtherStepKeeps(p: Broadcast.Programs, s: State, step: Step)
    requires Inv(p, s) && Enabled(p, s, step) && !step.Link?
    ensures Inv(p, Next(p, s, step))
  {
    hide Broadcast.Inv, Flagged, Welcomed, Pending, Bounded;
    var s' := Next(p, s, step);
    forall c
      ensures Flagged(s', c)
    {
      assert Flagged(s, c);
      FlaggedAsBefore(s, s', c);
    }
    forall c | c in s'.link.lines
      ensures Welcomed(s', c)
    {
      assert Welcomed(s, c);
      WelcomedAsBefore(p, s, step, c);
    }
    BoundedAsBefore(p, s, step);
    PendingAsBefore(p, s, step);
  }

  lemma FlaggedAsBefore(s: State, s': State, c: Conn)
    requires s'.link == s.link && s'.pushed == s.pushed && s'.answered == s.answered && s'.late == s.late && Flagged(s, c)
    ensures Flagged(s', c)
  {
    ShownAsBefore(s, s', c);
    hide Shown;
  }

  lemma WelcomedAsBefore(p: Broadcast.Programs, s: State, step: Step, c: Conn)
    requires Broadcast.Inv(p, s.link) && Bounded(s) && Enabled(p, s, step) && !step.Link? && c in s.link.lines && Welcomed(s, c)
    ensures Welcomed(Next(p, s, step), c)
  {
    hide Broadcast.Inv;
    var s' := Next(p, s, step);
    assert forall i: nat :: ListAt(s', i) <==> ListAt(s, i);
    if step == Ask(c) {
      SinceOfServing(p, s, c);
      assert forall i: nat :: ListAt(s, i) ==> s.pushed[i] in s.pushed;
    }
    hide ListAt;
  }

  lemma BoundedAsBefore(p: Broadcast.Programs, s: State, step: Step)
    requires Bounded(s) && Enabled(p, s, step) && !step.Link?
    ensures Bounded(Next(p, s, step))
  {
  }

  lemma PendingAsBefore(p: Broadcast.Programs, s: State, step: Step)
    requires Pending(s) && Enabled(p, s, step) && !step.Link?
    ensures Pending(Next(p, s, step))
  {
    var s' := Next(p, s, step);
    match step
    case Change(t) => assert t in s'.owing;
    case Read(t) => assert t in s'.read && s'.read[t] == s'.version;
    case Ask(c) => PendingStays(s, s');
  }

  lemma PendingStays(s: State, s': State)
    requires Pending(s) && s' == s.(asked := s'.asked)
    ensures Pending(s')
  {
    if i: nat :| ListAt(s, i) && s.pushed[i] == s.version {
      assert ListAt(s', i);
    }
  }

  lemma ShownAsBefore(s: State, s': State, c: Conn)
    requires s'.link == s.link && s'.pushed == s.pushed && s'.answered == s.answered
    ensures Shown(s', c) == Shown(s, c)
  {
    if c in s.link.lines {
      ShownStays(s, s', c, s.link.lines[c].wire);
    }
  }

  lemma SinceOfServing(p: Broadcast.Programs, s: State, c: Conn)
    requires Broadcast.Inv(p, s.link) && c in s.link.lines && Acceptor.In(s.link.server, c, Acceptor.Serving)
    ensures s.link.lines[c].since.Some?
  {
    assert Broadcast.Fine(s.link, c);
    hide Broadcast.Holds, Broadcast.InProgramOrder, Broadcast.Steady, Broadcast.Fits, Broadcast.Labels, Broadcast.Content,
      Broadcast.Length, Acceptor.Inv;
  }

  lemma InvKept(p: Broadcast.Programs, s: State, step: Step)
    requires Inv(p, s) && Enabled(p, s, step)
    ensures Inv(p, Next(p, s, step))
  {
    hide Inv, Linked;
    if step.Link? {
      LinkKeeps(p, s, step.step);
    } else {
      OtherStepKeeps(p, s, step);
    }
  }

  lemma InvInitially(p: Broadcast.Programs)
    ensures Inv(p, Init)
  {
    Broadcast.InvInitially(p);
  }

  lemma {:induction false} InvReached(p: Broadcast.Programs, s: State, steps: seq<Step>)
    requires Inv(p, s) && Possible(p, s, steps)
    ensures Inv(p, After(p, s, steps))
    decreases |steps|
  {
    if steps != [] {
      hide Inv, Enabled, Next;
      InvKept(p, s, steps[0]);
      InvReached(p, Next(p, s, steps[0]), steps[1..]);
    }
  }

  // ---- theorems ----

  /** No push is outstanding, and the connection has been welcomed and is being sent nothing. */
  predicate Settled(s: State, c: Conn) {
    && s.owing == {} && s.read == map[] && s.link.holder.None?
    && Broadcast.Sound(s.link, c) && s.link.lines[c].direct.None? && c !in s.asked && s.link.lines[c].own != []
  }

  /** A broadcast that begins on a wire shows what it shows there. */
  lemma {:induction false} LoggedIsShown(s: State, c: Conn, ps: seq<Piece<Broadcast.Origin>>, i: nat)
    requires i in Broadcast.IndexesOn(ps) && ListAt(s, i)
    requires forall piece <- ps :: piece.origin.Logged? && piece.origin.index == i ==> piece.origin.frame == s.link.log[i].1
    ensures s.pushed[i] in ShownOn(s, c, ps)
  {
    if i in Broadcast.IndexesOn(ps[..|ps| - 1]) {
      LoggedIsShown(s, c, ps[..|ps| - 1], i);
    } else {
      assert ps[|ps| - 1] in ps;
    }
  }

  lemma {:induction false} WelcomeIsShown(s: State, c: Conn, ps: seq<Piece<Broadcast.Origin>>)
    requires c in s.link.lines && s.link.lines[c].own != [] && s.link.lines[c].own[0].kind == CAMERA
    requires 0 in Broadcast.NumbersOn(ps) && |Answers(s, c)| > 0
    requires forall piece <- ps :: piece.origin.Own? && piece.origin.number == 0 ==> piece.origin.frame == s.link.lines[c].own[0]
    ensures Answers(s, c)[0] in ShownOn(s, c, ps)
  {
    if 0 in Broadcast.NumbersOn(ps[..|ps| - 1]) {
      WelcomeIsShown(s, c, ps[..|ps| - 1]);
    } else {
      assert ps[|ps| - 1] in ps;
    }
  }

  lemma {:induction false} ShownBounded(s: State, c: Conn, ps: seq<Piece<Broadcast.Origin>>)
    requires Bounded(s)
    ensures forall i :: 0 <= i < |ShownOn(s, c, ps)| ==> ShownOn(s, c, ps)[i] <= s.version
  {
    if ps != [] {
      ShownBounded(s, c, ps[..|ps| - 1]);
      ShowsBounded(s, c, ps[|ps| - 1].origin);
      hide Bounded, Shows;
    }
  }

  lemma ShowsBounded(s: State, c: Conn, origin: Broadcast.Origin)
    requires Bounded(s)
    ensures Shows(s, c, origin) <= s.version
  {
    match origin
    case Logged(i, _) => assert i < |s.pushed| ==> s.pushed[i] in s.pushed;
    case Own(j, _) => assert c in s.answered && j < |s.answered[c]| ==> s.answered[c][j] in s.answered[c];
  }

  lemma NewestIsThere(p: Broadcast.Programs, s: State, c: Conn)
    requires Inv(p, s) && Settled(s, c)
    ensures s.version in Shown(s, c)
  {
    hide Broadcast.Inv, Broadcast.Known, Broadcast.Fine, Flagged, ShownOn, Broadcast.IndexesOn, Broadcast.NumbersOn, Broadcast.FramesOn,
      Acceptor.Open;
    LabelsHold(p, s, c);
    LineHolds(p, s, c);
    Broadcast.AllBroadcastsThere(s.link, c);
    var l := s.link.lines[c];
    assert Welcomed(s, c);
    if i: nat :| ListAt(s, i) && s.pushed[i] == s.version && i >= l.since.value {
      assert Broadcast.Range(l.since.value, |s.link.log| - l.since.value)[i - l.since.value] == i;
      LoggedLabels(s, c, i);
      LoggedIsShown(s, c, l.wire, i);
    } else {
      assert Broadcast.Range(0, |l.own|)[0] == 0;
      OwnLabels(s, c);
      assert Answers(s, c)[0] == s.version by {
        assert Answers(s, c)[0] in s.answered[c];
      }
      WelcomeIsShown(s, c, l.wire);
    }
  }

  lemma LineHolds(p: Broadcast.Programs, s: State, c: Conn)
    requires Broadcast.Inv(p, s.link) && c in s.link.lines
    ensures Broadcast.Fine(s.link, c)
  {
    hide Broadcast.Fine;
  }

  lemma LoggedLabels(s: State, c: Conn, i: nat)
    requires c in s.link.lines && Broadcast.Labels(s.link, c) && i < |s.link.log|
    ensures forall piece <- s.link.lines[c].wire :: piece.origin.Logged? && piece.origin.index == i ==>
              piece.origin.frame == s.link.log[i].1
  {
    hide Encode;
  }

  lemma OwnLabels(s: State, c: Conn)
    requires c in s.link.lines && Broadcast.Labels(s.link, c) && s.link.lines[c].own != []
    ensures forall piece <- s.link.lines[c].wire :: piece.origin.Own? && piece.origin.number == 0 ==>
              piece.origin.frame == s.link.lines[c].own[0]
  {
    hide Encode;
  }

  /** The list begun to the connection last, which is the one its client ends up with. */
  function Last(s: State, c: Conn): nat
    requires Shown(s, c) != []
  {
    Shown(s, c)[|Shown(s, c)| - 1]
  }

  /**
    * Exactly when a client is up to date. In every run, for a connection opened at any moment, with any number of
    * threads that change the registry and push: once no push is outstanding the newest list has been sent to it, in
    * a broadcast or as its welcome, so no change is missed; and the list sent last is the newest if and only if it was
    * not read before one that was begun to this connection earlier.
    */
  lemma CurrentExactlyIfNotOvertaken(p: Broadcast.Programs, steps: seq<Step>, c: Conn)
    requires Possible(p, Init, steps) && Settled(After(p, Init, steps), c)
    ensures var s := After(p, Init, steps);
            && s.version in Shown(s, c) && (forall i :: 0 <= i < |Shown(s, c)| ==> Shown(s, c)[i] <= s.version)
            && (Last(s, c) == s.version <==> c !in s.late)
  {
    hide Possible, After, ShownOn, Broadcast.Inv, Sizes, Pending, Welcomed, Bounded, Overtakes, Broadcast.Sound;
    InvInitially(p);
    InvReached(p, Init, steps);
    var s := After(p, Init, steps);
    NewestIsThere(p, s, c);
    assert Flagged(s, c);
    assert forall i :: 0 <= i < |Shown(s, c)| ==> Shown(s, c)[i] <= s.version by {
      if c in s.link.lines {
        ShownBounded(s, c, s.link.lines[c].wire);
      }
    }
    hide Shown, Settled;
    LastIsNewest(Shown(s, c), s.version);
  }

  lemma LastIsNewest(shown: seq<nat>, v: nat)
    requires v in shown && forall i :: 0 <= i < |shown| ==> shown[i] <= v
    ensures shown[|shown| - 1] == v <==> !Overtakes(shown, shown[|shown| - 1])
  {
    var i :| 0 <= i < |shown| && shown[i] == v;
  }

  /** A list that is still current when it is begun to a connection puts it right, whatever was sent before. */
  lemma CurrentListRepairs(p: Broadcast.Programs, s: State, x: Broadcast.Step, c: Conn)
    requires Inv(p, s) && Enabled(p, s, Link(x)) && c in s.link.lines && Begins(s, x) == Some((c, s.version))
    ensures var s' := Next(p, s, Link(x)); Shown(s', c) != [] && Last(s', c) == s'.version && c !in s'.late
  {
    hide Broadcast.Inv, Broadcast.Enabled, Broadcast.Next, Linked, Sizes, Pending, Welcomed, Flagged, Ready, Begins, ShownOn;
    LinkAfter(p, s, x);
    LateAfter(p, s, x);
    ShownAfter(p, s, x, c);
    ShownBounded(s, c, s.link.lines[c].wire);
  }
}
