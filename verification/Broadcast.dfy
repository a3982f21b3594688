/**
  * The senders of the device server as a step machine, over the accept loop and the handler threads of
  * `Acceptor`. Any number of threads broadcast their frames under the client mutex, to the descriptors in
  * the list of clients; the handler of each connection sends its own welcome and response frames without
  * the mutex. One step is one lock operation, or one chunk accepted by one socket. What is sent on a
  * descriptor goes to whatever has that descriptor open at the time.
  */
module Broadcast {
  import opened Common
  import opened Wire
  import opened Pieces
  import Acceptor

  type Conn = Acceptor.Conn
  type Thread = nat

  /**
    * The holder of the client mutex: of the frame `sent` bytes have gone to the first descriptor of `todo`, the last
    * of them to connection `to`, if that was one of the clients.
    */
  datatype Holder = Holder(frame: Frame, todo: seq<int>, sent: nat, to: Option<Conn>)

  /** A broadcast by its place in the log, or a send of the connection's handler by its number. */
  datatype Origin = Logged(index: nat, frame: Frame) | Own(number: nat, frame: Frame)

  datatype Line = Line(
    wire: seq<Piece<Origin>>,          // everything the connection ever accepted
    own: seq<Frame>,                   // what its handler has begun to send
    direct: Option<nat>,               // how much of the last of these has been accepted, while it is being sent
    overlapped: bool,                  // it has accepted bytes of one send in the middle of another
    strayed: bool,                     // it has accepted the rest of a frame that began elsewhere
    broken: bool,                      // a send on it has failed, or was under way when it was closed
    since: Option<nat>,                // length of the log when its descriptor was entered
    until: Option<nat>)                // length of the log when it was closed

  datatype State = State(
    server: Acceptor.State,
    lines: map<Conn, Line>,
    holder: Option<Holder>,            // who is inside the mutex
    next: map<Thread, nat>,            // how many broadcasts a thread has begun
    log: seq<(Thread, Frame)>)         // broadcasts in the order of their critical sections

  datatype Step =
    | Serve(step: Acceptor.Step)
    | Lock(thread: Thread)
    | Chunk(to: Option<Conn>, size: nat)
    | SendFails(on: Option<Conn>)
    | NextClient
    | Unlock
    | OwnBegin(conn: Conn, frame: Frame)
    | OwnChunk(conn: Conn, size: nat)
    | OwnFails(conn: Conn)
    | OwnEnd(conn: Conn)

  /** What each thread broadcasts, in its own order. */
  type Programs = map<Thread, seq<Frame>>

  const Init := State(Acceptor.Init, map[], None, map[], [])

  const NewLine := Line([], [], None, false, false, false, None, None)

  function Begun(s: State, t: Thread): nat {
    if t in s.next then s.next[t] else 0
  }

  predicate Sending(s: State) {
    s.holder.Some? && s.holder.value.todo != []
  }

  function Length(f: Frame): nat {
    |Encode(f)|
  }

  function Fd(s: State, c: Conn): int {
    if c in s.server.conns then s.server.conns[c].fd else -1
  }

  /** Who has the descriptor open to which the broadcast is being sent: a client, or else nobody or a socket of another kind. */
  ghost predicate Target(s: State, to: Option<Conn>)
    requires Sending(s)
  {
    match to
    case Some(c) => c in s.lines && Acceptor.Open(s.server, c) && Fd(s, c) == s.holder.value.todo[0]
    case None => forall c :: Acceptor.Open(s.server, c) ==> Fd(s, c) != s.holder.value.todo[0]
  }

  /** The handler is sending the last of its own frames. */
  predicate Busy(l: Line) {
    l.direct.Some? && l.own != []
  }

  function LastOwn(l: Line): Frame
    requires Busy(l)
  {
    l.own[|l.own| - 1]
  }

  /** Entering and removing a descriptor takes the client mutex; a handler closes its descriptor when it is not sending. */
  ghost predicate Free(s: State, x: Acceptor.Step) {
    match x
    case Register => s.holder.None? && s.server.place.Registering? && s.server.place.conn in s.lines
    case Remove(_) => s.holder.None?
    case Close(c) => c in s.lines && s.lines[c].direct.None?
    case Abandon(_) => false
    case _ => true
  }

  ghost predicate Enabled(p: Programs, s: State, step: Step) {
    !s.server.place.Terminated? &&
    match step
    case Serve(x) => Acceptor.Enabled(s.server, x) && Free(s, x)
    case Lock(t) => s.holder.None? && t in p && Begun(s, t) < |p[t]|
    case Chunk(to, n) =>
      && Sending(s) && Target(s, to) && (to.Some? ==> !s.lines[to.value].broken)
      && 0 < n <= Length(s.holder.value.frame) - s.holder.value.sent
    case SendFails(on) => Sending(s) && Target(s, on) && s.holder.value.sent < Length(s.holder.value.frame)
    case NextClient => Sending(s) && s.holder.value.sent == Length(s.holder.value.frame)
    case Unlock => s.holder.Some? && s.holder.value.todo == []
    case OwnBegin(c, _) => c in s.lines && Acceptor.In(s.server, c, Acceptor.Serving) && s.lines[c].direct.None?
    case OwnChunk(c, n) =>
      c in s.lines && Busy(s.lines[c]) && !s.lines[c].broken && 0 < n <= Length(LastOwn(s.lines[c])) - s.lines[c].direct.value
    case OwnFails(c) => c in s.lines && Busy(s.lines[c]) && s.lines[c].direct.value < Length(LastOwn(s.lines[c]))
    case OwnEnd(c) => c in s.lines && Busy(s.lines[c]) && s.lines[c].direct.value == Length(LastOwn(s.lines[c]))
  }

  /** The handler is in the middle of a frame of its own. */
  predicate OwnMid(l: Line) {
    Busy(l) && 0 < l.direct.value < Length(LastOwn(l))
  }

  /** A broadcast is in the middle of its frame to `c`. */
  predicate Mid(s: State, c: Conn) {
    Sending(s) && s.holder.value.to == Some(c) && 0 < s.holder.value.sent < Length(s.holder.value.frame)
  }

  function LastLogged(s: State, f: Frame): Origin {
    Logged(if |s.log| > 0 then |s.log| - 1 else 0, f)
  }

  function LastOf(l: Line): Origin
    requires Busy(l)
  {
    Own(|l.own| - 1, LastOwn(l))
  }

  /** The line of connection `c` after it has accepted `n` more bytes of the broadcast. */
  function Received(s: State, c: Conn, n: nat): Line
    requires Sending(s) && c in s.lines
  {
    var h, l := s.holder.value, s.lines[c];
    l.(wire := Put(l.wire, LastLogged(s, h.frame), Encode(h.frame), h.sent, n, h.sent > 0 && h.to == Some(c)),
       overlapped := l.overlapped || OwnMid(l),
       strayed := l.strayed || (h.sent > 0 && h.to != Some(c)))
  }

  function AcceptChunk(s: State, to: Option<Conn>, n: nat): State
    requires Sending(s) && (to.Some? ==> to.value in s.lines)
  {
    var h := s.holder.value;
    s.(holder := Some(h.(sent := h.sent + n, to := to)),
       lines := if to.Some? then s.lines[to.value := Received(s, to.value, n)] else s.lines)
  }

  /** The line of connection `c` after it has accepted `n` more bytes of what its handler is sending. */
  function OwnReceived(s: State, c: Conn, n: nat): Line
    requires c in s.lines && Busy(s.lines[c])
  {
    var l := s.lines[c];
    l.(wire := Put(l.wire, LastOf(l), Encode(LastOwn(l)), l.direct.value, n, l.direct.value > 0),
       direct := Some(l.direct.value + n),
       overlapped := l.overlapped || Mid(s, c))
  }

  /** The broadcast under way has not been through with the descriptor of `c`. */
  predicate Due(s: State, c: Conn) {
    s.holder.Some? && Fd(s, c) in s.holder.value.todo
  }

  ghost function LinesAfter(s: State, x: Acceptor.Step): map<Conn, Line>
    requires Free(s, x)
  {
    match x
    case Accept(c, _) => s.lines[c := NewLine]
    case Register => s.lines[s.server.place.conn := s.lines[s.server.place.conn].(since := Some(|s.log|))]
    case Close(c) => s.lines[c := s.lines[c].(until := Some(|s.log|), broken := s.lines[c].broken || Due(s, c))]
    case _ => s.lines
  }

  ghost function Tended(s: State, x: Acceptor.Step): State
    requires Acceptor.Enabled(s.server, x) && Free(s, x)
  {
    s.(server := Acceptor.Next(s.server, x), lines := LinesAfter(s, x))
  }

  function Take(s: State, t: Thread, f: Frame): State {
    s.(holder := Some(Holder(f, s.server.list, 0, None)), log := s.log + [(t, f)], next := s.next[t := Begun(s, t) + 1])
  }

  /** On to the next descriptor, after a failure on connection `failed` if there is one. */
  function Skip(s: State, failed: Option<Conn>): State
    requires Sending(s) && (failed.Some? ==> failed.value in s.lines)
  {
    var h := s.holder.value;
    s.(holder := Some(h.(todo := h.todo[1..], sent := 0, to := None)),
       lines := if failed.Some? then s.lines[failed.value := s.lines[failed.value].(broken := true)] else s.lines)
  }

  function WithLine(s: State, c: Conn, l: Line): State {
    s.(lines := s.lines[c := l])
  }

  ghost function Next(p: Programs, s: State, step: Step): State
    requires Enabled(p, s, step)
  {
    match step
    case Serve(x) => Tended(s, x)
    case Lock(t) => Take(s, t, p[t][Begun(s, t)])
    case Chunk(to, n) => AcceptChunk(s, to, n)
    case SendFails(on) => Skip(s, on)
    case NextClient => Skip(s, None)
    case Unlock => s.(holder := None)
    case OwnBegin(c, f) => WithLine(s, c, s.lines[c].(own := s.lines[c].own + [f], direct := Some(0)))
    case OwnChunk(c, n) => WithLine(s, c, OwnReceived(s, c, n))
    case OwnFails(c) => WithLine(s, c, s.lines[c].(direct := None, broken := true))
    case OwnEnd(c) => WithLine(s, c, s.lines[c].(direct := None))
  }

  ghost predicate Possible(p: Programs, s: State, steps: seq<Step>)
    decreases |steps|
  {
    steps == [] || (Enabled(p, s, steps[0]) && Possible(p, Next(p, s, steps[0]), steps[1..]))
  }

  ghost function After(p: Programs, s: State, steps: seq<Step>): State
    requires Possible(p, s, steps)
    decreases |steps|
  {
    if steps == [] then s else After(p, Next(p, s, steps[0]), steps[1..])
  }

  function Frames(log: seq<(Thread, Frame)>): (fs: seq<Frame>) {
    seq(|log|, i requires 0 <= i < |log| => log[i].1)
  }

  /** The part of the log that one thread contributed. */
  function Only(log: seq<(Thread, Frame)>, t: Thread): seq<Frame> {
    if log == [] then [] else (if log[0].0 == t then [log[0].1] else []) + Only(log[1..], t)
  }

  // ---- what is on a wire ----

  /** The frames of all sends that begin on a wire. */
  function FramesOn(ps: seq<Piece<Origin>>): seq<Frame> {
    if ps == [] then []
    else FramesOn(ps[..|ps| - 1]) + if ps[|ps| - 1].from == 0 then [ps[|ps| - 1].origin.frame] else []
  }

  /** Those of them that are broadcasts. */
  function BroadcastsOn(ps: seq<Piece<Origin>>): seq<Frame> {
    if ps == [] then []
    else BroadcastsOn(ps[..|ps| - 1])
         + if ps[|ps| - 1].from == 0 && ps[|ps| - 1].origin.Logged? then [ps[|ps| - 1].origin.frame] else []
  }

  /** Those that the handler sent itself. */
  function OwnOn(ps: seq<Piece<Origin>>): seq<Frame> {
    if ps == [] then []
    else OwnOn(ps[..|ps| - 1])
         + if ps[|ps| - 1].from == 0 && ps[|ps| - 1].origin.Own? then [ps[|ps| - 1].origin.frame] else []
  }

  /** The places in the log of the broadcasts that begin on a wire. */
  function IndexesOn(ps: seq<Piece<Origin>>): seq<nat> {
    if ps == [] then []
    else IndexesOn(ps[..|ps| - 1])
         + if ps[|ps| - 1].from == 0 && ps[|ps| - 1].origin.Logged? then [ps[|ps| - 1].origin.index] else []
  }

  /** The numbers of the handler's own sends that do. */
  function NumbersOn(ps: seq<Piece<Origin>>): seq<nat> {
    if ps == [] then []
    else NumbersOn(ps[..|ps| - 1])
         + if ps[|ps| - 1].from == 0 && ps[|ps| - 1].origin.Own? then [ps[|ps| - 1].origin.number] else []
  }

  function Range(first: nat, count: nat): (ns: seq<nat>)
    ensures |ns| == count
  {
    seq(count, i requires 0 <= i < count => first + i)
  }

  lemma RangeGrows(first: nat, count: nat)
    ensures Range(first, count) + [first + count] == Range(first, count + 1)
  {
  }

  // ---- invariants ----

  /** Of the broadcast under way nothing has been sent to `c` yet. */
  predicate Owed(s: State, c: Conn) {
    Due(s, c) && (s.holder.value.todo[0] != Fd(s, c) || s.holder.value.sent == 0)
  }

  function Since(l: Line): nat {
    if l.since.Some? then l.since.value else 0
  }

  /** How long the log was when the connection was closed, or is now. */
  function End(s: State, c: Conn): nat
    requires c in s.lines
  {
    if s.lines[c].since.None? then 0 else if s.lines[c].until.Some? then s.lines[c].until.value else |s.log|
  }

  /** How much of the log has reached a connection at least in part, if no send to it failed. */
  function Upto(s: State, c: Conn): nat
    requires c in s.lines
  {
    if End(s, c) > 0 && s.lines[c].until.None? && Owed(s, c) then End(s, c) - 1 else End(s, c)
  }

  /** The broadcasts made from the moment its descriptor was entered until it was closed. */
  function Span(s: State, c: Conn): seq<(Thread, Frame)>
    requires c in s.lines
  {
    if Since(s.lines[c]) <= End(s, c) <= |s.log| then s.log[Since(s.lines[c])..End(s, c)] else []
  }

  /** How many of the handler's sends have reached the wire at least in part, if none failed. */
  function OwnReached(l: Line): nat {
    if l.direct == Some(0) && l.own != [] then |l.own| - 1 else |l.own|
  }

  /** When things happen to a connection. */
  ghost predicate Timed(s: State, c: Conn)
    requires c in s.lines
  {
    var l := s.lines[c];
    && c in s.server.conns
    && (l.since.Some? <==> !s.server.conns[c].phase.Accepted?)
    && (l.until.Some? <==> !Acceptor.Open(s.server, c))
    && (l.since.Some? ==> l.since.value <= |s.log| && (s.holder.Some? ==> l.since.value < |s.log|))
    && (l.until.Some? ==> l.since.Some? && l.since.value <= l.until.value <= |s.log|)
    && (l.direct.Some? ==> Acceptor.In(s.server, c, Acceptor.Serving) && l.own != [] && l.direct.value <= Length(l.own[|l.own| - 1]))
    && (l.since.None? ==> l.own == [] && (c !in s.server.stillListed ==> l.wire == [] && !l.broken))
  }

  /** What is being sent, and to whom. */
  ghost predicate Holds(s: State) {
    s.holder.Some? ==>
      var h := s.holder.value;
      && s.log != [] && s.log[|s.log| - 1].1 == h.frame && h.sent <= Length(h.frame)
      && |h.todo| <= |s.server.list| && h.todo == s.server.list[|s.server.list| - |h.todo|..]
      && (h.to.Some? ==> h.todo != [] && h.to.value in s.lines && Fd(s, h.to.value) == h.todo[0]
                         && (s.lines[h.to.value].broken || Acceptor.Open(s.server, h.to.value)))
  }

  /** The connection has the descriptor open to which the broadcast is being sent. */
  predicate Reaches(s: State, c: Conn) {
    Sending(s) && Acceptor.Open(s.server, c) && Fd(s, c) == s.holder.value.todo[0]
  }

  /** A frame that has been begun on the descriptor of `c` has been begun to `c`, unless the descriptor was still listed. */
  ghost predicate Steady(s: State, c: Conn) {
    Sending(s) && s.holder.value.sent > 0 && Reaches(s, c) && c !in s.server.stillListed ==> s.holder.value.to == Some(c)
  }

  /** The broadcasts since its registration and the handler's own sends begin on a wire each in order, none left out or repeated. */
  ghost predicate Content(s: State, c: Conn)
    requires c in s.lines
  {
    var l := s.lines[c];
    var k, j := |IndexesOn(l.wire)|, |NumbersOn(l.wire)|;
    && IndexesOn(l.wire) == Range(Since(l), k) && Since(l) + k <= End(s, c)
    && NumbersOn(l.wire) == Range(0, j) && j <= |l.own|
    && (!l.broken ==> Since(l) + k == Upto(s, c) && j == OwnReached(l))
  }

  function LoggedPiece(s: State): Piece<Origin>
    requires s.holder.Some?
  {
    Piece(LastLogged(s, s.holder.value.frame), Encode(s.holder.value.frame), 0, s.holder.value.sent)
  }

  function OwnPiece(l: Line): Piece<Origin>
    requires Busy(l)
  {
    Piece(LastOf(l), Encode(LastOwn(l)), 0, l.direct.value)
  }

  /** Without overlap, the frame being sent is the last on the wire and everything before it is complete. */
  ghost predicate Orderly(s: State, c: Conn)
    requires c in s.lines
  {
    var l := s.lines[c];
    && Whole(l.wire)
    && (!l.broken ==>
          && (Mid(s, c) ==> l.wire != [] && l.wire[|l.wire| - 1] == LoggedPiece(s))
          && (OwnMid(l) ==> l.wire != [] && l.wire[|l.wire| - 1] == OwnPiece(l))
          && (!Mid(s, c) && !OwnMid(l) && l.wire != [] ==> Complete(l.wire[|l.wire| - 1])))
  }

  ghost predicate Fits(s: State, c: Conn)
    requires c in s.lines
  {
    if s.lines[c].overlapped || s.lines[c].strayed then Torn(s.lines[c].wire) else Orderly(s, c)
  }

  /** A send has this frame. */
  predicate Known(s: State, l: Line, origin: Origin) {
    match origin
    case Logged(i, f) => i < |s.log| && s.log[i].1 == f
    case Own(j, f) => j < |l.own| && l.own[j] == f
  }

  /** The pieces on a wire are of the sends they say. */
  ghost predicate Labels(s: State, c: Conn)
    requires c in s.lines
  {
    forall piece <- s.lines[c].wire :: piece.bytes == Encode(piece.origin.frame) && Known(s, s.lines[c], piece.origin)
  }

  ghost predicate Fine(s: State, c: Conn)
    requires c in s.lines
  {
    && Timed(s, c) && Steady(s, c) && Fits(s, c) && Labels(s, c)
    && (c !in s.server.stillListed ==> Content(s, c) && !s.lines[c].strayed)
  }

  /** Every thread's frames are logged in that thread's order, none left out. */
  ghost predicate InProgramOrder(p: Programs, s: State) {
    && (forall t :: t in s.next ==> t in p && s.next[t] <= |p[t]|)
    && (forall t :: t in p ==> Begun(s, t) <= |p[t]| && Only(s.log, t) == p[t][..Begun(s, t)])
  }

  ghost predicate Lines(s: State) {
    && s.lines.Keys == s.server.conns.Keys
    && forall c :: c in s.lines ==> Fine(s, c)
  }

  ghost predicate Inv(p: Programs, s: State) {
    Acceptor.Inv(s.server) && Holds(s) && Lines(s) && InProgramOrder(p, s)
  }

  lemma {:induction false} OnlyAppend(log: seq<(Thread, Frame)>, more: seq<(Thread, Frame)>, t: Thread)
    ensures Only(log + more, t) == Only(log, t) + Only(more, t)
  {
    if log == [] {
      assert log + more == more;
    } else {
      OnlyAppend(log[1..], more, t);
      assert (log + more)[0] == log[0] && (log + more)[1..] == log[1..] + more;
      ConcatAssociative(if log[0].0 == t then [log[0].1] else [], Only(log[1..], t), Only(more, t));
    }
  }

  lemma FramesAppend(a: seq<(Thread, Frame)>, b: seq<(Thread, Frame)>)
    ensures Frames(a + b) == Frames(a) + Frames(b)
  {
  }


  lemma LengthPositive(f: Frame)
    ensures Length(f) >= 5
  {
  }

  // ---- what one more chunk does to a wire ----

  lemma PutOn(ps: seq<Piece<Origin>>, origin: Origin, from: nat, n: nat, on: bool)
    requires 0 < n && (on ==> from > 0)
    ensures var qs := Put(ps, origin, Encode(origin.frame), from, n, on);
            && IndexesOn(qs) == IndexesOn(ps) + (if from == 0 && origin.Logged? then [origin.index] else [])
            && NumbersOn(qs) == NumbersOn(ps) + (if from == 0 && origin.Own? then [origin.number] else [])
  {
    hide Encode;
    var qs := Put(ps, origin, Encode(origin.frame), from, n, on);
    if on && ps != [] && ps[|ps| - 1].origin == origin {
      assert qs[..|qs| - 1] == ps[..|ps| - 1];
    } else {
      assert qs[..|qs| - 1] == ps;
    }
  }

  /** A chunk of a known send keeps the labels. */
  lemma PutLabels(s: State, s': State, c: Conn, origin: Origin, from: nat, n: nat, on: bool)
    requires c in s.lines && c in s'.lines && Labels(s, c) && s.log <= s'.log && s.lines[c].own <= s'.lines[c].own
    requires s'.lines[c].wire == Put(s.lines[c].wire, origin, Encode(origin.frame), from, n, on) && Known(s', s'.lines[c], origin)
    ensures Labels(s', c)
  {
    hide Encode;
    var ps, qs := s.lines[c].wire, s'.lines[c].wire;
    forall i | 0 <= i < |qs|
      ensures qs[i].bytes == Encode(qs[i].origin.frame) && Known(s', s'.lines[c], qs[i].origin)
    {
      if i < |ps| {
        assert ps[i] in ps && qs[i].origin == ps[i].origin && qs[i].bytes == ps[i].bytes;
      }
    }
  }

  lemma SameLabels(s: State, s': State, c: Conn)
    requires c in s.lines && c in s'.lines && Labels(s, c) && s.log <= s'.log && s.lines[c].own <= s'.lines[c].own
    requires s'.lines[c].wire == s.lines[c].wire
    ensures Labels(s', c)
  {
    hide Encode;
  }

  // ---- connections that a step leaves alone ----

  /** The step changes neither the line of the connection nor anything else its invariant speaks of. */
  ghost predicate Same(s: State, s': State, c: Conn) {
    && c in s.lines && c in s'.lines && s'.lines[c] == s.lines[c]
    && c in s.server.conns && c in s'.server.conns && s'.server.conns[c].fd == s.server.conns[c].fd
    && (Acceptor.Open(s'.server, c) <==> Acceptor.Open(s.server, c))
    && (s'.server.conns[c].phase.Accepted? <==> s.server.conns[c].phase.Accepted?)
    && (Acceptor.In(s.server, c, Acceptor.Serving) ==> Acceptor.In(s'.server, c, Acceptor.Serving))
    && (c in s'.server.stillListed <==> c in s.server.stillListed)
  }

  lemma SameFine(s: State, s': State, c: Conn)
    requires Same(s, s', c) && Fine(s, c) && s'.holder == s.holder && s'.log == s.log
    ensures Fine(s', c)
  {
    SameLabels(s, s', c);
    hide Acceptor.Open, Acceptor.In, Length, Whole, Torn, Complete, OwnMid, Labels;
  }

  // ---- the accept loop and the ends of the handlers ----

  lemma TodoIsListed(s: State)
    requires Holds(s) && Sending(s)
    ensures s.holder.value.todo[0] in s.server.list
  {
    var h, list := s.holder.value, s.server.list;
    assert h.todo[0] == list[|list| - |h.todo|];
  }

  lemma AcceptedFine(s: State, c: Conn, fd: int)
    requires Holds(s) && s.lines.Keys == s.server.conns.Keys && Acceptor.Enabled(s.server, Acceptor.Accept(c, fd))
    ensures Fine(Tended(s, Acceptor.Accept(c, fd)), c)
  {
    if Sending(s) {
      TodoIsListed(s);
    }
    hide Encode;
  }

  lemma RegisteredFine(s: State, c: Conn)
    requires Acceptor.Inv(s.server) && Acceptor.Enabled(s.server, Acceptor.Register) && Free(s, Acceptor.Register)
    requires c == s.server.place.conn && Fine(s, c)
    ensures Fine(Tended(s, Acceptor.Register), c)
  {
    hide Length, Whole, Torn, Complete, Acceptor.Kernel, Acceptor.Threads, Acceptor.Reports, Acceptor.Doom, Acceptor.Entries;
    assert Acceptor.In(s.server, c, Acceptor.Accepted);
  }

  lemma ClosedFine(s: State, c: Conn)
    requires Holds(s) && Acceptor.Enabled(s.server, Acceptor.Close(c)) && Free(s, Acceptor.Close(c)) && Fine(s, c)
    ensures Fine(Tended(s, Acceptor.Close(c)), c)
  {
    SameLabels(s, Tended(s, Acceptor.Close(c)), c);
    hide Length, Whole, Torn, Complete, Labels;
  }

  lemma TendedFine(s: State, x: Acceptor.Step, c: Conn)
    requires Acceptor.Inv(s.server) && Holds(s) && s.lines.Keys == s.server.conns.Keys
    requires Acceptor.Enabled(s.server, x) && Free(s, x) && c in s.lines && Fine(s, c)
    ensures c in Tended(s, x).lines && Fine(Tended(s, x), c)
  {
    hide Fine, Holds;
    if x.Register? && c == s.server.place.conn {
      RegisteredFine(s, c);
    } else if x.Close? && c == x.conn {
      ClosedFine(s, c);
    } else {
      OthersSame(s, x, c);
      SameFine(s, Tended(s, x), c);
    }
  }

  lemma OthersSame(s: State, x: Acceptor.Step, c: Conn)
    requires Acceptor.Inv(s.server) && s.lines.Keys == s.server.conns.Keys
    requires Acceptor.Enabled(s.server, x) && Free(s, x) && c in s.lines
    requires !(x.Register? && c == s.server.place.conn) && !(x.Close? && c == x.conn)
    ensures Same(s, Tended(s, x), c)
  {
    hide Without, Count, Acceptor.Kernel, Acceptor.Doom, Acceptor.Entries, Acceptor.Reports;
  }

  // ---- the steps of a broadcast ----

  lemma LockedFine(s: State, t: Thread, f: Frame, c: Conn)
    requires Acceptor.Inv(s.server) && !s.server.place.Terminated? && s.holder.None? && c in s.lines && Fine(s, c)
    ensures Fine(Take(s, t, f), c)
  {
    SameLabels(s, Take(s, t, f), c);
    hide Length, Whole, Torn, Complete, OwnMid, Acceptor.Inv, Labels;
    if c !in s.server.stillListed {
      LockKeepsUpto(s, t, f, c);
    }
  }

  lemma LockKeepsUpto(s: State, t: Thread, f: Frame, c: Conn)
    requires Acceptor.Inv(s.server) && !s.server.place.Terminated? && s.holder.None?
    requires c in s.lines && Timed(s, c) && c !in s.server.stillListed
    ensures Upto(Take(s, t, f), c) == Upto(s, c) && End(s, c) <= End(Take(s, t, f), c)
  {
    hide Length, Acceptor.Kernel, Acceptor.Desk, Acceptor.Threads, Acceptor.Reports, Acceptor.Doom;
    if Acceptor.Open(s.server, c) && s.lines[c].since.Some? {
      assert Acceptor.Entry(s.server, c);
      CountMeansIn(s.server.list, Fd(s, c));
    }
  }

  lemma UnlockedFine(s: State, c: Conn)
    requires s.holder.Some? && s.holder.value.todo == [] && c in s.lines && Fine(s, c)
    ensures Fine(s.(holder := None), c)
  {
    SameLabels(s, s.(holder := None), c);
    hide Length, Whole, Torn, Complete, OwnMid, Acceptor.Open, Labels;
  }

  /** An undisturbed connection comes up once in the walk over the list. */
  lemma ComesUpOnce(s: State, c: Conn)
    requires Acceptor.Inv(s.server) && !s.server.place.Terminated? && Holds(s) && Sending(s)
    requires Acceptor.Open(s.server, c) && c !in s.server.stillListed && Fd(s, c) == s.holder.value.todo[0]
    ensures Acceptor.Registered(s.server, c) && Fd(s, c) !in s.holder.value.todo[1..]
  {
    var fd, list, todo := Fd(s, c), s.server.list, s.holder.value.todo;
    TodoIsListed(s);
    hide Length, Acceptor.Kernel, Acceptor.Desk, Acceptor.Threads, Acceptor.Reports, Acceptor.Doom;
    assert Acceptor.Entry(s.server, c);
    CountSplit(list[..|list| - |todo|], todo, fd);
    assert list == list[..|list| - |todo|] + todo;
    CountFirst(todo, fd);
    CountMeansIn(todo[1..], fd);
  }

  lemma {:induction false} CountSplit<T>(a: seq<T>, b: seq<T>, x: T)
    ensures Count(a + b, x) == Count(a, x) + Count(b, x)
  {
    if b == [] {
      assert a + b == a;
    } else {
      var n := |b| - 1;
      CountSplit(a, b[..n], x);
      assert (a + b)[..|a + b| - 1] == a + b[..n];
    }
  }

  /** Whoever else has the descriptor open is the same. */
  lemma SameTarget(s: State, to: Option<Conn>, c: Conn)
    requires Acceptor.Inv(s.server) && !s.server.place.Terminated? && Sending(s) && Target(s, to) && Reaches(s, c)
    ensures to == Some(c)
  {
    hide Acceptor.Desk, Acceptor.Threads, Acceptor.Reports, Acceptor.Doom, Acceptor.Entries;
  }

  /** How far the walk is: the end of a frame, or a failure on whoever has the descriptor. */
  ghost predicate Moves(s: State, failed: Option<Conn>) {
    Sending(s) && (s.holder.value.sent == Length(s.holder.value.frame) || Target(s, failed))
  }

  lemma SkipKeepsUpto(s: State, failed: Option<Conn>, c: Conn)
    requires Acceptor.Inv(s.server) && !s.server.place.Terminated? && Holds(s) && Moves(s, failed)
    requires failed.Some? ==> failed.value in s.lines
    requires c in s.lines && Timed(s, c) && c !in s.server.stillListed && failed != Some(c)
    ensures Upto(Skip(s, failed), c) == Upto(s, c) && End(Skip(s, failed), c) == End(s, c)
  {
    LengthPositive(s.holder.value.frame);
    var h := s.holder.value;
    assert h.todo == [h.todo[0]] + h.todo[1..];
    hide Length, Acceptor.Inv;
    if Reaches(s, c) {
      ComesUpOnce(s, c);
      if h.sent < Length(h.frame) {
        SameTarget(s, failed, c);
      }
    }
  }

  lemma SkippedFine(s: State, failed: Option<Conn>, c: Conn)
    requires Acceptor.Inv(s.server) && !s.server.place.Terminated? && Holds(s) && Moves(s, failed)
    requires failed.Some? ==> failed.value in s.lines && Reaches(s, failed.value)
    requires c in s.lines && Fine(s, c)
    ensures Fine(Skip(s, failed), c)
  {
    hide Acceptor.Inv, Length, Fits, Content, Acceptor.Open, Holds, Labels, Reaches;
    SameLabels(s, Skip(s, failed), c);
    if failed == Some(c) {
      FailedFine(s, c);
    } else {
      if c !in s.server.stillListed {
        SkippedContent(s, failed, c);
      }
      SkippedFits(s, failed, c);
    }
  }

  lemma SkippedContent(s: State, failed: Option<Conn>, c: Conn)
    requires Acceptor.Inv(s.server) && !s.server.place.Terminated? && Holds(s) && Moves(s, failed)
    requires failed.Some? ==> failed.value in s.lines
    requires c in s.lines && Timed(s, c) && c !in s.server.stillListed && failed != Some(c) && Content(s, c)
    ensures Content(Skip(s, failed), c)
  {
    hide Acceptor.Inv, Length, Upto, End, IndexesOn, NumbersOn, Range, Holds, Moves, Timed;
    SkipKeepsUpto(s, failed, c);
  }

  lemma SkippedFits(s: State, failed: Option<Conn>, c: Conn)
    requires Acceptor.Inv(s.server) && !s.server.place.Terminated? && Holds(s) && Moves(s, failed)
    requires failed.Some? ==> failed.value in s.lines
    requires c in s.lines && failed != Some(c) && Fits(s, c)
    ensures Fits(Skip(s, failed), c)
  {
    hide Acceptor.Inv, Length, Whole, Torn, Complete, OwnMid, Holds, Moves;
    if !s.lines[c].broken {
      MidMoves(s, failed, c);
    }
  }

  lemma MidMoves(s: State, failed: Option<Conn>, c: Conn)
    requires Acceptor.Inv(s.server) && !s.server.place.Terminated? && Holds(s) && Moves(s, failed)
    requires c in s.lines && failed != Some(c) && !s.lines[c].broken
    ensures !Mid(s, c)
  {
    hide Acceptor.Inv, Length;
    if Mid(s, c) {
      assert Reaches(s, c);
      SameTarget(s, failed, c);
    }
  }

  lemma FailedFine(s: State, c: Conn)
    requires Acceptor.Inv(s.server) && !s.server.place.Terminated? && Holds(s) && c in s.lines && Fine(s, c) && Reaches(s, c)
    ensures Fine(Skip(s, Some(c)), c)
  {
    SameLabels(s, Skip(s, Some(c)), c);
    hide Acceptor.Inv, Length, Whole, Torn, Complete, OwnMid, Holds, Labels;
    if c !in s.server.stillListed {
      ComesUpOnce(s, c);
    }
  }

  lemma OtherChunkFits(s: State, to: Option<Conn>, n: nat, c: Conn)
    requires Acceptor.Inv(s.server) && !s.server.place.Terminated? && Holds(s) && Sending(s) && Target(s, to)
    requires c in s.lines && Fits(s, c) && to != Some(c)
    ensures Fits(AcceptChunk(s, to, n), c)
  {
    if Mid(s, c) && !s.lines[c].broken {
      SameTarget(s, to, c);
    }
    hide Acceptor.Inv, Length, Whole, Torn, Complete, OwnMid, Received;
  }

  lemma OtherChunkContent(s: State, to: Option<Conn>, n: nat, c: Conn)
    requires Acceptor.Inv(s.server) && !s.server.place.Terminated? && Sending(s) && Target(s, to)
    requires c in s.lines && Timed(s, c) && to != Some(c)
    ensures Timed(AcceptChunk(s, to, n), c) && Steady(AcceptChunk(s, to, n), c)
    ensures Content(s, c) ==> Content(AcceptChunk(s, to, n), c)
  {
    if Reaches(s, c) {
      SameTarget(s, to, c);
    }
    hide Acceptor.Inv, Length, Received, Acceptor.Open, IndexesOn, NumbersOn, Range;
  }

  /** Others than the connection that accepts a chunk. */
  lemma OtherChunkFine(s: State, to: Option<Conn>, n: nat, c: Conn)
    requires Acceptor.Inv(s.server) && !s.server.place.Terminated? && Holds(s) && Sending(s) && Target(s, to)
    requires c in s.lines && Fine(s, c) && to != Some(c)
    ensures Fine(AcceptChunk(s, to, n), c)
  {
    SameLabels(s, AcceptChunk(s, to, n), c);
    OtherChunkFits(s, to, n, c);
    OtherChunkContent(s, to, n, c);
    hide Acceptor.Inv, Holds, Timed, Steady, Fits, Content, Labels, Received, Target;
  }

  lemma ChunkAdvances(s: State, c: Conn, n: nat)
    requires Holds(s) && Sending(s) && c in s.lines && Timed(s, c) && Reaches(s, c) && s.lines[c].since.Some? && n > 0
    ensures var s', h := AcceptChunk(s, Some(c), n), s.holder.value;
            && End(s', c) == End(s, c) == |s.log| && Since(s'.lines[c]) == Since(s.lines[c])
            && Upto(s', c) == |s.log| && Upto(s, c) == if h.sent == 0 then |s.log| - 1 else |s.log|
  {
    ReceivedKeeps(s, c, n);
    hide Length, Received, Acceptor.Open;
  }

  lemma ReceivedKeeps(s: State, c: Conn, n: nat)
    requires Sending(s) && c in s.lines
    ensures var l, l' := s.lines[c], Received(s, c, n);
            l' == l.(wire := l'.wire, overlapped := l'.overlapped, strayed := l'.strayed)
  {
  }

  lemma ChunkTimed(s: State, c: Conn, n: nat)
    requires Holds(s) && Sending(s) && Reaches(s, c) && c in s.lines && Timed(s, c)
    requires c !in s.server.stillListed ==> s.lines[c].since.Some?
    ensures Timed(AcceptChunk(s, Some(c), n), c) && Steady(AcceptChunk(s, Some(c), n), c)
  {
    ReceivedKeeps(s, c, n);
    hide Received, Length, Acceptor.Open;
  }

  lemma ChunkContent(s: State, c: Conn, n: nat)
    requires Holds(s) && Sending(s) && Reaches(s, c) && c in s.lines && Timed(s, c) && Steady(s, c) && Content(s, c) && n > 0
    requires c !in s.server.stillListed && s.lines[c].since.Some? && !s.lines[c].broken && !s.lines[c].strayed
    ensures Content(AcceptChunk(s, Some(c), n), c) && !AcceptChunk(s, Some(c), n).lines[c].strayed
  {
    var h, l := s.holder.value, s.lines[c];
    ChunkAdvances(s, c, n);
    PutOn(l.wire, LastLogged(s, h.frame), h.sent, n, h.sent > 0 && h.to == Some(c));
    RangeGrows(Since(l), |IndexesOn(l.wire)|);
    assert IndexesOn(l.wire) + [] == IndexesOn(l.wire) && NumbersOn(l.wire) + [] == NumbersOn(l.wire);
    hide Put, Length, Encode, IndexesOn, NumbersOn, Range, Upto, End, Timed, Fits, OwnMid, Acceptor.Open;
  }

  /** The wire is ready for the next bytes of the broadcast. */
  lemma Ready(s: State, c: Conn)
    requires Sending(s) && c in s.lines && !s.lines[c].broken && Orderly(s, c) && !OwnMid(s.lines[c])
    requires s.holder.value.sent < Length(s.holder.value.frame)
    requires s.holder.value.sent > 0 ==> s.holder.value.to == Some(c)
    ensures var ps, h := s.lines[c].wire, s.holder.value;
            && Whole(ps)
            && if h.sent == 0 then ps != [] ==> Complete(ps[|ps| - 1])
               else ps != [] && ps[|ps| - 1] == LoggedPiece(s)
  {
    hide Length, OwnMid, OwnPiece, Whole, Complete, Encode;
  }

  lemma ChunkOrderly(s: State, c: Conn, n: nat)
    requires Sending(s) && c in s.lines && !s.lines[c].broken && Orderly(s, c) && !OwnMid(s.lines[c])
    requires 0 < n <= Length(s.holder.value.frame) - s.holder.value.sent
    requires s.holder.value.sent > 0 ==> s.holder.value.to == Some(c)
    ensures Orderly(AcceptChunk(s, Some(c), n), c)
  {
    var h, s' := s.holder.value, AcceptChunk(s, Some(c), n);
    Ready(s, c);
    PutWhole(s.lines[c].wire, LastLogged(s, h.frame), Encode(h.frame), h.sent, n, h.sent > 0 && h.to == Some(c));
    assert s'.lines[c].wire[|s'.lines[c].wire| - 1] == LoggedPiece(s');
    assert !OwnMid(s'.lines[c]);
    hide Put, Whole, Encode, OwnMid, Orderly, Received;
    LastIsComplete(s', c);
  }

  /** What remains to be said of a wire to which a broadcast has just been sent. */
  lemma LastIsComplete(s: State, c: Conn)
    requires Sending(s) && c in s.lines && Whole(s.lines[c].wire) && s.lines[c].wire != [] && !OwnMid(s.lines[c])
    requires s.lines[c].wire[|s.lines[c].wire| - 1] == LoggedPiece(s)
    requires s.holder.value.to == Some(c) && 0 < s.holder.value.sent <= Length(s.holder.value.frame)
    ensures Orderly(s, c)
  {
    hide Encode, OwnMid, Whole, OwnPiece;
  }

  lemma ChunkFits(s: State, c: Conn, n: nat)
    requires Sending(s) && c in s.lines && !s.lines[c].broken && Fits(s, c)
    requires 0 < n <= Length(s.holder.value.frame) - s.holder.value.sent
    ensures Fits(AcceptChunk(s, Some(c), n), c)
  {
    var h, l, s' := s.holder.value, s.lines[c], AcceptChunk(s, Some(c), n);
    var origin, on := LastLogged(s, h.frame), h.sent > 0 && h.to == Some(c);
    if l.overlapped || l.strayed {
      hide Length, Encode, Put, Torn, Orderly, OwnMid;
      StaysTorn(l.wire, origin, Encode(h.frame), h.sent, n, on);
    } else if OwnMid(l) {
      LastTorn(l, s, c);
      hide Length, Encode, Put, Torn, Orderly, OwnMid, Complete;
      PutTorn(l.wire, origin, Encode(h.frame), h.sent, n, on);
    } else if h.sent > 0 && !on {
      hide Length, Encode, Put, Torn, Orderly, OwnMid;
      PutStray(l.wire, origin, Encode(h.frame), h.sent, n);
    } else {
      hide Length, Encode, Put, Torn, Orderly, OwnMid;
      ChunkOrderly(s, c, n);
    }
  }

  lemma LastTorn(l: Line, s: State, c: Conn)
    requires c in s.lines && l == s.lines[c] && !l.broken && Orderly(s, c) && OwnMid(l)
    ensures l.wire != [] && l.wire[|l.wire| - 1].origin == LastOf(l) && !Complete(l.wire[|l.wire| - 1])
  {
    hide Encode, Whole;
  }

  lemma ChunkFine(s: State, c: Conn, n: nat)
    requires Acceptor.Inv(s.server) && !s.server.place.Terminated? && Holds(s)
    requires Sending(s) && Target(s, Some(c)) && !s.lines[c].broken && Fine(s, c)
    requires 0 < n <= Length(s.holder.value.frame) - s.holder.value.sent
    ensures Fine(AcceptChunk(s, Some(c), n), c)
  {
    var h := s.holder.value;
    ChunkFits(s, c, n);
    ReceivedKeeps(s, c, n);
    PutLabels(s, AcceptChunk(s, Some(c), n), c, LastLogged(s, h.frame), h.sent, n, h.sent > 0 && h.to == Some(c));
    if c !in s.server.stillListed {
      ComesUpOnce(s, c);
      assert s.lines[c].since.Some?;
      ChunkContent(s, c, n);
    }
    ChunkTimed(s, c, n);
    hide Acceptor.Inv, Holds, Fits, Content, Timed, Steady, Put, Length, Labels;
  }

  // ---- the handler's own sends ----

  /** A step that changes only the line of the connection, and of that not when it was open. */
  ghost predicate OwnMove(s: State, c: Conn, l: Line)
    requires c in s.lines
  {
    var l0 := s.lines[c];
    l == l0.(wire := l.wire, own := l.own, direct := l.direct, overlapped := l.overlapped, broken := l.broken)
  }

  lemma OwnMoveKeepsUpto(s: State, c: Conn, l: Line)
    requires c in s.lines && OwnMove(s, c, l)
    ensures Upto(WithLine(s, c, l), c) == Upto(s, c) && End(WithLine(s, c, l), c) == End(s, c) && Since(l) == Since(s.lines[c])
    ensures Steady(s, c) ==> Steady(WithLine(s, c, l), c)
    ensures Mid(WithLine(s, c, l), c) == Mid(s, c)
  {
    hide Length, Acceptor.Open;
  }

  lemma BeganFine(s: State, c: Conn, f: Frame)
    requires c in s.lines && Fine(s, c) && Acceptor.In(s.server, c, Acceptor.Serving) && s.lines[c].direct.None?
    ensures Fine(WithLine(s, c, s.lines[c].(own := s.lines[c].own + [f], direct := Some(0))), c)
  {
    var l := s.lines[c].(own := s.lines[c].own + [f], direct := Some(0));
    OwnMoveKeepsUpto(s, c, l);
    SameLabels(s, WithLine(s, c, l), c);
    hide Length, Encode, Upto, End, Whole, Torn, Complete, IndexesOn, NumbersOn, Mid, Steady, Labels;
  }

  /** The end of a send of the handler. */
  lemma EndedFine(s: State, c: Conn, failed: bool)
    requires c in s.lines && Fine(s, c) && Busy(s.lines[c])
    requires failed || s.lines[c].direct.value == Length(LastOwn(s.lines[c]))
    ensures Fine(WithLine(s, c, s.lines[c].(direct := None, broken := s.lines[c].broken || failed)), c)
  {
    var l := s.lines[c].(direct := None, broken := s.lines[c].broken || failed);
    OwnMoveKeepsUpto(s, c, l);
    LengthPositive(LastOwn(s.lines[c]));
    SameLabels(s, WithLine(s, c, l), c);
    hide Length, Encode, Upto, End, Whole, Torn, Complete, IndexesOn, NumbersOn, Mid, Steady, Labels;
  }

  lemma OwnAdvances(s: State, c: Conn, n: nat)
    requires c in s.lines && Busy(s.lines[c]) && n > 0
    ensures var l0, l := s.lines[c], OwnReceived(s, c, n);
            && OwnMove(s, c, l) && l.own == l0.own && l.broken == l0.broken
            && OwnReached(l) == OwnReached(l0) + (if l0.direct.value == 0 then 1 else 0)
            && l.wire == Put(l0.wire, LastOf(l0), Encode(LastOwn(l0)), l0.direct.value, n, l0.direct.value > 0)
  {
    hide Put, Encode, Mid;
  }

  lemma OwnContent(s: State, c: Conn, n: nat)
    requires c in s.lines && Busy(s.lines[c]) && Content(s, c) && !s.lines[c].broken && n > 0
    ensures Content(WithLine(s, c, OwnReceived(s, c, n)), c)
  {
    var l0, l := s.lines[c], OwnReceived(s, c, n);
    OwnAdvances(s, c, n);
    OwnMoveKeepsUpto(s, c, l);
    PutOn(l0.wire, LastOf(l0), l0.direct.value, n, l0.direct.value > 0);
    RangeGrows(0, |NumbersOn(l0.wire)|);
    assert IndexesOn(l0.wire) + [] == IndexesOn(l0.wire) && NumbersOn(l0.wire) + [] == NumbersOn(l0.wire);
    hide Put, Encode, IndexesOn, NumbersOn, Range, Upto, End, Mid, OwnMove, Steady, OwnReceived;
  }

  /** The wire is ready for the next bytes of what the handler is sending. */
  lemma OwnReady(s: State, c: Conn)
    requires c in s.lines && Busy(s.lines[c]) && !s.lines[c].broken && Orderly(s, c) && !Mid(s, c)
    requires s.lines[c].direct.value < Length(LastOwn(s.lines[c]))
    ensures var l := s.lines[c];
            && Whole(l.wire)
            && if l.direct.value == 0 then l.wire != [] ==> Complete(l.wire[|l.wire| - 1])
               else l.wire != [] && l.wire[|l.wire| - 1] == OwnPiece(l)
  {
    hide Length, Mid, LoggedPiece, Whole, Complete, Encode;
  }

  lemma OwnOrderly(s: State, c: Conn, n: nat)
    requires c in s.lines && Busy(s.lines[c]) && !s.lines[c].broken && Orderly(s, c) && !Mid(s, c)
    requires 0 < n <= Length(LastOwn(s.lines[c])) - s.lines[c].direct.value
    ensures Orderly(WithLine(s, c, OwnReceived(s, c, n)), c)
  {
    var l0, l := s.lines[c], OwnReceived(s, c, n);
    OwnReady(s, c);
    PutWhole(l0.wire, LastOf(l0), Encode(LastOwn(l0)), l0.direct.value, n, l0.direct.value > 0);
    OwnMoveKeepsUpto(s, c, l);
    assert l.wire[|l.wire| - 1] == OwnPiece(l) && Busy(l);
    hide Put, Whole, Encode, Orderly, OwnReceived, Mid, Upto, End, Steady;
    OwnIsComplete(WithLine(s, c, l), c);
  }

  lemma OwnIsComplete(s: State, c: Conn)
    requires c in s.lines && Busy(s.lines[c]) && !Mid(s, c) && Whole(s.lines[c].wire) && s.lines[c].wire != []
    requires s.lines[c].wire[|s.lines[c].wire| - 1] == OwnPiece(s.lines[c])
    requires 0 < s.lines[c].direct.value <= Length(LastOwn(s.lines[c]))
    ensures Orderly(s, c)
  {
    hide Encode, Mid, Whole, LoggedPiece;
  }

  lemma MidTorn(s: State, c: Conn)
    requires c in s.lines && !s.lines[c].broken && Orderly(s, c) && Mid(s, c)
    ensures var ps := s.lines[c].wire; ps != [] && ps[|ps| - 1].origin.Logged? && !Complete(ps[|ps| - 1])
  {
    hide Encode, Whole, OwnMid;
  }

  lemma OwnFits(s: State, c: Conn, n: nat)
    requires c in s.lines && Busy(s.lines[c]) && !s.lines[c].broken && Fits(s, c)
    requires 0 < n <= Length(LastOwn(s.lines[c])) - s.lines[c].direct.value
    ensures Fits(WithLine(s, c, OwnReceived(s, c, n)), c)
  {
    var l := s.lines[c];
    var origin, bytes := LastOf(l), Encode(LastOwn(l));
    if l.overlapped || l.strayed {
      hide Length, Encode, Put, Torn, Orderly, Mid;
      StaysTorn(l.wire, origin, bytes, l.direct.value, n, l.direct.value > 0);
    } else if Mid(s, c) {
      MidTorn(s, c);
      hide Length, Encode, Put, Torn, Orderly, Mid, Complete;
      PutTorn(l.wire, origin, bytes, l.direct.value, n, l.direct.value > 0);
    } else {
      hide Length, Encode, Put, Torn, Orderly, Mid;
      OwnOrderly(s, c, n);
    }
  }

  lemma OwnTimed(s: State, c: Conn, n: nat)
    requires c in s.lines && Busy(s.lines[c]) && Timed(s, c) && n <= Length(LastOwn(s.lines[c])) - s.lines[c].direct.value
    ensures Timed(WithLine(s, c, OwnReceived(s, c, n)), c)
  {
    hide Put, Encode, Mid;
  }

  lemma OwnChunkFine(s: State, c: Conn, n: nat)
    requires c in s.lines && Busy(s.lines[c]) && !s.lines[c].broken && Fine(s, c)
    requires 0 < n <= Length(LastOwn(s.lines[c])) - s.lines[c].direct.value
    ensures Fine(WithLine(s, c, OwnReceived(s, c, n)), c)
  {
    OwnFits(s, c, n);
    OwnTimed(s, c, n);
    var l0, l := s.lines[c], OwnReceived(s, c, n);
    OwnAdvances(s, c, n);
    OwnMoveKeepsUpto(s, c, l);
    PutLabels(s, WithLine(s, c, l), c, LastOf(l0), l0.direct.value, n, l0.direct.value > 0);
    if c !in s.server.stillListed {
      OwnContent(s, c, n);
    }
    hide Fits, Content, Timed, Steady, Put, Length, Encode, Mid, Upto, End, Labels, OwnReceived;
  }

  // ---- every step keeps the invariants ----

  lemma WithLineFine(s: State, c: Conn, l: Line, o: Conn)
    requires c in s.lines && o in s.lines && Fine(s, o) && (o == c ==> Fine(WithLine(s, c, l), c))
    ensures Fine(WithLine(s, c, l), o)
  {
    hide Fine, Acceptor.Open;
    if o != c {
      assert o in s.server.conns by {
        KnownConn(s, o);
      }
      SameFine(s, WithLine(s, c, l), o);
    }
  }

  lemma KnownConn(s: State, c: Conn)
    requires c in s.lines && Fine(s, c)
    ensures c in s.server.conns
  {
    hide Length, Acceptor.Open, Fits, Content;
  }

  lemma OwnStepFine(p: Programs, s: State, step: Step, o: Conn)
    requires Enabled(p, s, step) && (step.OwnBegin? || step.OwnChunk? || step.OwnFails? || step.OwnEnd?)
    requires o in s.lines && Fine(s, o)
    ensures o in Next(p, s, step).lines && Fine(Next(p, s, step), o)
  {
    hide Fine, OwnReceived, Length;
    var c := step.conn;
    if o == c {
      match step
      case OwnBegin(_, f) => BeganFine(s, c, f);
      case OwnChunk(_, n) => OwnChunkFine(s, c, n);
      case OwnFails(_) => EndedFine(s, c, true);
      case OwnEnd(_) => EndedFine(s, c, false);
    }
    match step
    case OwnBegin(_, f) => WithLineFine(s, c, s.lines[c].(own := s.lines[c].own + [f], direct := Some(0)), o);
    case OwnChunk(_, n) => WithLineFine(s, c, OwnReceived(s, c, n), o);
    case OwnFails(_) => WithLineFine(s, c, s.lines[c].(direct := None, broken := true), o);
    case OwnEnd(_) => WithLineFine(s, c, s.lines[c].(direct := None), o);
  }

  lemma BroadcastStepFine(p: Programs, s: State, step: Step, c: Conn)
    requires Acceptor.Inv(s.server) && Holds(s) && Enabled(p, s, step) && c in s.lines && Fine(s, c)
    requires step.Lock? || step.Chunk? || step.SendFails? || step.NextClient? || step.Unlock?
    ensures c in Next(p, s, step).lines && Fine(Next(p, s, step), c)
  {
    hide Fine, Holds, Acceptor.Inv, Received, Length;
    match step
    case Lock(t) => LockedFine(s, t, p[t][Begun(s, t)], c);
    case Chunk(to, n) =>
      if to == Some(c) {
        ChunkFine(s, c, n);
      } else {
        OtherChunkFine(s, to, n, c);
      }
    case SendFails(on) => SkippedFine(s, on, c);
    case NextClient => SkippedFine(s, None, c);
    case Unlock => UnlockedFine(s, c);
  }

  lemma FineKept(p: Programs, s: State, step: Step, c: Conn)
    requires Acceptor.Inv(s.server) && Holds(s) && Lines(s) && Enabled(p, s, step) && c in s.lines
    ensures c in Next(p, s, step).lines && Fine(Next(p, s, step), c)
  {
    assert Fine(s, c);
    hide Fine, Holds, Acceptor.Inv, Acceptor.Enabled, Acceptor.Next, OwnReceived, Received, Length, LinesAfter, Free, Target;
    if step.Serve? {
      TendedFine(s, step.step, c);
    } else if step.OwnBegin? || step.OwnChunk? || step.OwnFails? || step.OwnEnd? {
      OwnStepFine(p, s, step, c);
    } else {
      BroadcastStepFine(p, s, step, c);
    }
  }

  lemma KeysKept(p: Programs, s: State, step: Step)
    requires s.lines.Keys == s.server.conns.Keys && Enabled(p, s, step)
    ensures Next(p, s, step).lines.Keys == Next(p, s, step).server.conns.Keys
    ensures Next(p, s, step).lines.Keys == s.lines.Keys + if step.Serve? && step.step.Accept? then {step.step.conn} else {}
  {
    hide Length, OwnReceived, Received, Acceptor.Next, Acceptor.Enabled;
    if step.Serve? {
      Acceptor.HistoryGrows(s.server, step.step);
    }
  }

  lemma LinesKept(p: Programs, s: State, step: Step)
    requires Acceptor.Inv(s.server) && Holds(s) && Lines(s) && Enabled(p, s, step)
    ensures Lines(Next(p, s, step))
  {
    KeysKept(p, s, step);
    forall c | c in Next(p, s, step).lines
      ensures Fine(Next(p, s, step), c)
    {
      if c in s.lines {
        FineKept(p, s, step, c);
      } else {
        assert step == Serve(Acceptor.Accept(c, step.step.fd));
        AcceptedFine(s, c, step.step.fd);
      }
    }
    hide Next, Enabled, Fine, Holds, Acceptor.Inv;
  }

  /** While the mutex is held the list does not change. */
  lemma TendedHolds(s: State, x: Acceptor.Step)
    requires Holds(s) && s.lines.Keys == s.server.conns.Keys && Acceptor.Enabled(s.server, x) && Free(s, x)
    requires Acceptor.Inv(s.server)
    ensures Holds(Tended(s, x))
  {
    hide Length, Without, Acceptor.Kernel, Acceptor.Threads, Acceptor.Reports, Acceptor.Doom, Acceptor.Entries;
  }

  lemma LockHolds(s: State, t: Thread, f: Frame)
    ensures Holds(Take(s, t, f))
  {
    hide Length;
  }

  lemma SkipHolds(s: State, failed: Option<Conn>)
    requires Holds(s) && Sending(s) && (failed.Some? ==> failed.value in s.lines)
    ensures Holds(Skip(s, failed))
  {
    hide Length;
    var h, list := s.holder.value, s.server.list;
    assert list[|list| - |h.todo|..][1..] == list[|list| - |h.todo| + 1..];
  }

  lemma ChunkHolds(s: State, to: Option<Conn>, n: nat)
    requires Holds(s) && Sending(s) && Target(s, to) && n <= Length(s.holder.value.frame) - s.holder.value.sent
    ensures Holds(AcceptChunk(s, to, n))
  {
    hide Length, Received, Acceptor.Open;
  }

  lemma WithLineHolds(s: State, c: Conn, l: Line)
    requires Holds(s) && c in s.lines && (s.lines[c].broken ==> l.broken)
    ensures Holds(WithLine(s, c, l))
  {
    hide Length, Acceptor.Open;
  }

  lemma HoldsKept(p: Programs, s: State, step: Step)
    requires Acceptor.Inv(s.server) && Holds(s) && s.lines.Keys == s.server.conns.Keys && Enabled(p, s, step)
    ensures Holds(Next(p, s, step))
  {
    hide Holds, Acceptor.Inv, Acceptor.Enabled, Acceptor.Next, Received, Length, LinesAfter, Free, Put, Mid, LastOf, LastOwn;
    match step
    case Serve(x) => TendedHolds(s, x);
    case Lock(t) => LockHolds(s, t, p[t][Begun(s, t)]);
    case Chunk(to, n) => ChunkHolds(s, to, n);
    case SendFails(on) => SkipHolds(s, on);
    case NextClient => SkipHolds(s, None);
    case Unlock => UnlockHolds(s);
    case OwnBegin(c, f) => WithLineHolds(s, c, s.lines[c].(own := s.lines[c].own + [f], direct := Some(0)));
    case OwnChunk(c, n) => WithLineHolds(s, c, OwnReceived(s, c, n));
    case OwnFails(c) => WithLineHolds(s, c, s.lines[c].(direct := None, broken := true));
    case OwnEnd(c) => WithLineHolds(s, c, s.lines[c].(direct := None));
  }

  lemma UnlockHolds(s: State)
    ensures Holds(s.(holder := None))
  {
  }

  lemma ServerKept(p: Programs, s: State, step: Step)
    requires Acceptor.Inv(s.server) && Enabled(p, s, step)
    ensures Acceptor.Inv(Next(p, s, step).server)
    ensures s.server.stillListed <= Next(p, s, step).server.stillListed && s.server.unjoined <= Next(p, s, step).server.unjoined
    ensures step.Serve? ==> Next(p, s, step).server == Acceptor.Next(s.server, step.step)
    ensures !step.Serve? ==> Next(p, s, step).server == s.server
  {
    hide Acceptor.Inv, Acceptor.Enabled, Acceptor.Next, Received, OwnReceived, Length, LinesAfter;
    if step.Serve? {
      Acceptor.InvKept(s.server, step.step);
      Acceptor.HistoryGrows(s.server, step.step);
    }
  }

  lemma OrderKept(p: Programs, s: State, step: Step)
    requires InProgramOrder(p, s) && Enabled(p, s, step)
    ensures InProgramOrder(p, Next(p, s, step))
  {
    var s' := Next(p, s, step);
    hide Received, OwnReceived, Length, LinesAfter, Acceptor.Next, Acceptor.Enabled, Only;
    if step.Lock? {
      forall t | t in p
        ensures Begun(s', t) <= |p[t]| && Only(s'.log, t) == p[t][..Begun(s', t)]
      {
        LockKeepsOrder(p, s, step.thread, t);
      }
    }
  }

  lemma OneFurther<T>(s: seq<T>, n: nat)
    requires n < |s|
    ensures s[..n] + [s[n]] == s[..n + 1]
  {
  }

  lemma OnlyOne(e: (Thread, Frame), t: Thread)
    ensures Only([e], t) == if e.0 == t then [e.1] else []
  {
    assert [e][1..] == [];
  }

  lemma LockKeepsOrder(p: Programs, s: State, who: Thread, t: Thread)
    requires InProgramOrder(p, s) && Enabled(p, s, Lock(who)) && t in p
    ensures var s' := Next(p, s, Lock(who));
            Begun(s', t) <= |p[t]| && Only(s'.log, t) == p[t][..Begun(s', t)]
  {
    var e := (who, p[who][Begun(s, who)]);
    OnlyAppend(s.log, [e], t);
    OnlyOne(e, t);
    hide Only;
    if who == t {
      OneFurther(p[t], Begun(s, t));
    } else {
      assert Only(s.log, t) + [] == Only(s.log, t);
    }
  }

  lemma InvKept(p: Programs, s: State, step: Step)
    requires Inv(p, s) && Enabled(p, s, step)
    ensures Inv(p, Next(p, s, step))
  {
    hide Enabled, Next, Lines, Holds, InProgramOrder, Acceptor.Inv;
    LinesHaveKeys(s);
    ServerKept(p, s, step);
    HoldsKept(p, s, step);
    LinesKept(p, s, step);
    OrderKept(p, s, step);
  }

  lemma LinesHaveKeys(s: State)
    requires Lines(s)
    ensures s.lines.Keys == s.server.conns.Keys
  {
    hide Fine;
  }

  lemma {:induction false} InvReached(p: Programs, s: State, steps: seq<Step>)
    requires Inv(p, s) && Possible(p, s, steps)
    ensures Inv(p, After(p, s, steps)) && s.server.stillListed <= After(p, s, steps).server.stillListed
    decreases |steps|
  {
    if steps != [] {
      hide Enabled, Next, Lines, Holds, InProgramOrder, Acceptor.Inv;
      ServerKept(p, s, steps[0]);
      InvKept(p, s, steps[0]);
      InvReached(p, Next(p, s, steps[0]), steps[1..]);
    }
  }

  lemma InvInitially(p: Programs)
    ensures Inv(p, Init)
  {
    Acceptor.InvInitially();
  }

  // ---- theorems ----

  lemma {:induction false} WholeFrames(ps: seq<Piece<Origin>>)
    requires Whole(ps)
    ensures |FramesOn(ps)| == |ps| && forall i :: 0 <= i < |ps| ==> FramesOn(ps)[i] == ps[i].origin.frame
  {
    if ps != [] {
      WholeInit(ps);
      WholeFrames(ps[..|ps| - 1]);
    }
  }

  lemma EncodeLast(fs: seq<Frame>, f: Frame)
    ensures EncodeAll(fs + [f]) == EncodeAll(fs) + Encode(f)
  {
    EncodeAllAppend(fs, [f]);
    assert EncodeAll([f]) == Encode(f) + EncodeAll([]);
    hide Encode;
    assert Encode(f) + [] == Encode(f);
  }


  /** All bytes of the sends on a wire are those of their frames. */
  lemma {:induction false} StartedFrames(ps: seq<Piece<Origin>>)
    requires forall piece <- ps :: piece.bytes == Encode(piece.origin.frame)
    ensures Started(ps) == EncodeAll(FramesOn(ps))
  {
    if ps != [] {
      var init, last := ps[..|ps| - 1], ps[|ps| - 1];
      assert last in ps;
      StartedFrames(init);
      if last.from == 0 {
        EncodeLast(FramesOn(init), last.origin.frame);
      }
      hide Encode, EncodeAll;
      assert Started(init) + [] == Started(init) && FramesOn(init) + [] == FramesOn(init);
    }
  }

  /** The frames on a wire are those of the log and of the handler at the places of their sends. */
  lemma {:induction false} FramesByPlace(s: State, l: Line, ps: seq<Piece<Origin>>)
    requires forall piece <- ps :: Known(s, l, piece.origin)
    ensures |BroadcastsOn(ps)| == |IndexesOn(ps)| && |OwnOn(ps)| == |NumbersOn(ps)|
    ensures forall i :: 0 <= i < |IndexesOn(ps)| ==> IndexesOn(ps)[i] < |s.log| && BroadcastsOn(ps)[i] == s.log[IndexesOn(ps)[i]].1
    ensures forall i :: 0 <= i < |NumbersOn(ps)| ==> NumbersOn(ps)[i] < |l.own| && OwnOn(ps)[i] == l.own[NumbersOn(ps)[i]]
  {
    if ps != [] {
      assert ps[|ps| - 1] in ps;
      FramesByPlace(s, l, ps[..|ps| - 1]);
    }
  }

  lemma FramesOfContent(s: State, c: Conn)
    requires c in s.lines && Labels(s, c) && Content(s, c) && End(s, c) <= |s.log|
    ensures var l := s.lines[c];
            var k, j := |IndexesOn(l.wire)|, |NumbersOn(l.wire)|;
            && Since(l) + k <= |s.log| && BroadcastsOn(l.wire) == Frames(s.log[Since(l)..Since(l) + k])
            && j <= |l.own| && OwnOn(l.wire) == l.own[..j]
  {
    FramesByPlace(s, s.lines[c], s.lines[c].wire);
    hide BroadcastsOn, OwnOn, IndexesOn, NumbersOn, Labels, Upto;
  }

  lemma LineFine(p: Programs, steps: seq<Step>, c: Conn)
    requires Possible(p, Init, steps) && c in After(p, Init, steps).lines
    ensures Fine(After(p, Init, steps), c)
  {
    InvInitially(p);
    InvReached(p, Init, steps);
    hide Possible, After, Holds, InProgramOrder, Fine, Acceptor.Inv;
  }

  /**
    * Exactly when the frames on a connection are whole. In every run, with sends cut into any chunks and descriptors
    * handed out again at any time after they were closed: what a connection has accepted is whole frames one after the
    * other, the last perhaps not all there yet, if and only if it never accepted bytes of one send in the middle of
    * another, and never the rest of a frame that had been begun on its descriptor before it got it.
    */
  lemma WholeExactly(p: Programs, steps: seq<Step>, c: Conn)
    requires Possible(p, Init, steps) && c in After(p, Init, steps).lines
    ensures var l := After(p, Init, steps).lines[c]; Whole(l.wire) <==> !l.overlapped && !l.strayed
  {
    LineFine(p, steps, c);
    hide Possible, After, Timed, Steady, Content, Labels, Whole;
    WholeIsNotTorn(After(p, Init, steps).lines[c].wire);
  }

  /** Nothing is being sent to the connection. */
  predicate Idle(s: State, c: Conn)
    requires c in s.lines
  {
    !Mid(s, c) && !OwnMid(s.lines[c])
  }

  /**
    * What is on a connection, in every run, unless its descriptor was still in the list when accept returned it: the
    * broadcasts made from its registration until it was closed and the handler's own sends, each in order and each exactly
    * once (a beginning of them after a failed send); nothing strays to it; and, if no two sends to it overlapped, the bytes
    * are those of these frames one after the other, up to part of the last while a send is in progress or after one
    * has failed.
    */
  lemma FramesAreAtomic(p: Programs, steps: seq<Step>, c: Conn)
    requires Possible(p, Init, steps) && c in After(p, Init, steps).lines && c !in After(p, Init, steps).server.stillListed
    ensures var s := After(p, Init, steps);
            var l := s.lines[c];
            && !l.strayed
            && IndexesOn(l.wire) == Range(Since(l), |IndexesOn(l.wire)|) && NumbersOn(l.wire) == Range(0, |NumbersOn(l.wire)|)
            && (if l.broken then BroadcastsOn(l.wire) <= Frames(Span(s, c)) && OwnOn(l.wire) <= l.own
                else (s.holder.None? || l.until.Some? ==> BroadcastsOn(l.wire) == Frames(Span(s, c)))
                     && (l.direct.None? ==> OwnOn(l.wire) == l.own))
            && (!l.overlapped ==>
                  && Bytes(l.wire) <= EncodeAll(FramesOn(l.wire))
                  && (!l.broken && Idle(s, c) ==> Bytes(l.wire) == EncodeAll(FramesOn(l.wire))))
  {
    LineFine(p, steps, c);
    hide Possible, After, Steady, Mid, OwnMid, FramesOn, EncodeAll, Bytes, Timed, Content, Fits, Labels;
    var s := After(p, Init, steps);
    ContentOf(s, c);
    hide BroadcastsOn, OwnOn, Frames, IndexesOn, NumbersOn, Range;
    if !s.lines[c].overlapped {
      BytesOfWire(s, c);
    }
  }

  lemma ContentOf(s: State, c: Conn)
    requires c in s.lines && Timed(s, c) && Labels(s, c) && Content(s, c)
    ensures var l := s.lines[c];
            IndexesOn(l.wire) == Range(Since(l), |IndexesOn(l.wire)|) && NumbersOn(l.wire) == Range(0, |NumbersOn(l.wire)|)
    ensures var l := s.lines[c];
            if l.broken then BroadcastsOn(l.wire) <= Frames(Span(s, c)) && OwnOn(l.wire) <= l.own
            else (s.holder.None? || l.until.Some? ==> BroadcastsOn(l.wire) == Frames(Span(s, c)))
                 && (l.direct.None? ==> OwnOn(l.wire) == l.own)
  {
    hide BroadcastsOn, OwnOn, IndexesOn, NumbersOn, Labels, Frames, Length, Acceptor.Open;
    EndInLog(s, c);
    FramesOfContent(s, c);
    var l := s.lines[c];
    var k := |IndexesOn(l.wire)|;
    FramesAppend(s.log[Since(l)..Since(l) + k], s.log[Since(l) + k..End(s, c)]);
    assert Span(s, c) == s.log[Since(l)..Since(l) + k] + s.log[Since(l) + k..End(s, c)];
    WhileFree(s, c);
  }

  lemma EndInLog(s: State, c: Conn)
    requires c in s.lines && Timed(s, c)
    ensures Since(s.lines[c]) <= End(s, c) <= |s.log|
  {
    hide Length, Acceptor.Open;
  }

  lemma WhileFree(s: State, c: Conn)
    requires c in s.lines
    ensures s.holder.None? || s.lines[c].until.Some? ==> Upto(s, c) == End(s, c)
    ensures s.lines[c].direct.None? ==> OwnReached(s.lines[c]) == |s.lines[c].own|
  {
  }

  lemma BytesOfWire(s: State, c: Conn)
    requires c in s.lines && Fits(s, c) && !s.lines[c].overlapped && !s.lines[c].strayed && Labels(s, c)
    ensures var l := s.lines[c];
            && Whole(l.wire) && Bytes(l.wire) <= EncodeAll(FramesOn(l.wire))
            && (!l.broken && Idle(s, c) ==> Bytes(l.wire) == EncodeAll(FramesOn(l.wire)))
  {
    hide Bytes, EncodeAll, FramesOn, Whole, Complete, Mid, OwnMid, Known, Encode;
    StartedFrames(s.lines[c].wire);
    WholeBytes(s.lines[c].wire);
  }

  /** An open connection that has been entered, not under a descriptor that was still in the list, and on which nothing has failed. */
  predicate Sound(s: State, c: Conn) {
    && c in s.lines && Acceptor.Open(s.server, c) && s.lines[c].since.Some?
    && c !in s.server.stillListed && !s.lines[c].broken
  }

  /** A registered connection on which nothing has failed has had, whenever the mutex is free, all broadcasts since its registration. */
  lemma AllBroadcastsThere(s: State, c: Conn)
    requires Sound(s, c) && Fine(s, c) && s.holder.None?
    ensures s.lines[c].since.value <= |s.log| && BroadcastsOn(s.lines[c].wire) == Frames(s.log[s.lines[c].since.value..])
    ensures IndexesOn(s.lines[c].wire) == Range(s.lines[c].since.value, |s.log| - s.lines[c].since.value)
    ensures s.lines[c].direct.None? ==> NumbersOn(s.lines[c].wire) == Range(0, |s.lines[c].own|)
  {
    EndInLog(s, c);
    FramesOfContent(s, c);
    WhileFree(s, c);
    hide BroadcastsOn, OwnOn, IndexesOn, NumbersOn, Labels, Frames, Length, Fits, Steady;
  }

  /** Two sound connections get the same broadcasts in the same order from the later registration on. */
  lemma SameOrderEverywhere(p: Programs, steps: seq<Step>, a: Conn, b: Conn)
    requires Possible(p, Init, steps)
    requires var s := After(p, Init, steps);
             && s.holder.None? && Sound(s, a) && Sound(s, b)
             && s.lines[a].since.value <= s.lines[b].since.value
    ensures var s := After(p, Init, steps);
            && s.lines[b].since.value <= |s.log|
            && BroadcastsOn(s.lines[a].wire) ==
               Frames(s.log[s.lines[a].since.value..s.lines[b].since.value]) + BroadcastsOn(s.lines[b].wire)
  {
    LineFine(p, steps, a);
    LineFine(p, steps, b);
    hide Possible, After, BroadcastsOn, Frames, Fine;
    var s := After(p, Init, steps);
    AllBroadcastsThere(s, a);
    AllBroadcastsThere(s, b);
    hide *;
    SplitLog(s.log, s.lines[a].since.value, s.lines[b].since.value);
  }

  lemma SplitLog(log: seq<(Thread, Frame)>, i: nat, j: nat)
    requires i <= j <= |log|
    ensures Frames(log[i..]) == Frames(log[i..j]) + Frames(log[j..])
  {
    assert log[i..] == log[i..j] + log[j..];
    FramesAppend(log[i..j], log[j..]);
  }

  /** The broadcasts of one thread are logged in the order the thread made them, each exactly once. */
  lemma ThreadOrderKept(p: Programs, steps: seq<Step>, t: Thread)
    requires Possible(p, Init, steps) && t in p
    ensures var s := After(p, Init, steps);
            Begun(s, t) <= |p[t]| && Only(s.log, t) == p[t][..Begun(s, t)]
  {
    InvInitially(p);
    InvReached(p, Init, steps);
  }

  // ---- the accept loop within a run ----

  /** The steps of the accept loop and of the ends of the handlers. */
  function ServerSteps(steps: seq<Step>): seq<Acceptor.Step> {
    if steps == [] then [] else (if steps[0].Serve? then [steps[0].step] else []) + ServerSteps(steps[1..])
  }

  lemma {:induction false} RunOfServer(p: Programs, s: State, steps: seq<Step>)
    requires Acceptor.Inv(s.server) && Possible(p, s, steps)
    ensures Acceptor.Possible(s.server, ServerSteps(steps))
    ensures After(p, s, steps).server == Acceptor.After(s.server, ServerSteps(steps))
    decreases |steps|
  {
    hide Enabled, Next, Acceptor.Inv, Acceptor.Next, Acceptor.Enabled;
    if steps != [] {
      var rest := ServerSteps(steps[1..]);
      ServerKept(p, s, steps[0]);
      RunOfServer(p, Next(p, s, steps[0]), steps[1..]);
      if steps[0].Serve? {
        StepOfServer(p, s, steps[0]);
        assert ([steps[0].step] + rest)[1..] == rest;
      } else {
        assert [] + rest == rest;
      }
    }
  }

  lemma StepOfServer(p: Programs, s: State, step: Step)
    requires Enabled(p, s, step) && step.Serve?
    ensures Acceptor.Enabled(s.server, step.step)
  {
    hide Acceptor.Enabled;
  }

  /**
    * Exactly when each broadcast is sent to a connection once, in every run: at every moment at which it is open, a broadcast
    * begun then goes to it once, or not at all before it has been entered, if and only if accept did not return its
    * descriptor while that was still in the list.
    */
  lemma SentOnceExactly(p: Programs, steps: seq<Step>, c: Conn)
    requires Possible(p, Init, steps)
    ensures Acceptor.Possible(Acceptor.Init, ServerSteps(steps))
    ensures Acceptor.AlwaysOnce(Acceptor.Init, ServerSteps(steps), c) <==> c !in After(p, Init, steps).server.stillListed
  {
    hide Possible, After, Acceptor.Possible, Acceptor.After, Acceptor.AlwaysOnce, Acceptor.Inv;
    Acceptor.InvInitially();
    RunOfServer(p, Init, steps);
    Acceptor.ListedExactlyOnce(ServerSteps(steps), c);
  }

  /**
    * Exactly when the device server survives its reconnects, in every run: it has ended if and only if accept returned a
    * descriptor one of whose handlers had not been joined in a pass before, unless the accept thread is still on its
    * way to the assignment. As long as that has not happened no descriptor is returned that is still in the list.
    */
  lemma AliveExactly(p: Programs, steps: seq<Step>)
    requires Possible(p, Init, steps)
    ensures Acceptor.Possible(Acceptor.Init, ServerSteps(steps))
    ensures var s, careful := After(p, Init, steps), Acceptor.Careful(Acceptor.Init, ServerSteps(steps));
            && (s.server.place.Terminated? <==> !careful && !Acceptor.Underway(s.server))
            && (careful ==> s.server.stillListed == {})
  {
    hide Possible, After, Acceptor.Possible, Acceptor.After, Acceptor.Careful, Acceptor.Inv;
    Acceptor.InvInitially();
    RunOfServer(p, Init, steps);
    Acceptor.AliveExactly(ServerSteps(steps));
  }

  // ---- later on ----

  /** Later on: the log has only grown, and connections entered since have missed what was in it. */
  ghost predicate Later(s: State, s': State) {
    && s.log <= s'.log
    && (forall c :: c in s.lines && s.lines[c].since.Some? ==> c in s'.lines && s'.lines[c].since == s.lines[c].since)
    && (forall c :: c in s'.lines && s'.lines[c].since.Some? && !(c in s.lines && s.lines[c].since.Some?)
          ==> |s.log| <= s'.lines[c].since.value)
  }

  lemma LineIsLater(p: Programs, s: State, step: Step)
    requires Inv(p, s) && Enabled(p, s, step)
    ensures Later(s, Next(p, s, step))
  {
    hide Length, Put, Mid, Lines, Holds, InProgramOrder, Acceptor.Next, Acceptor.Enabled, Acceptor.Inv, Encode;
    LinesHaveKeys(s);
    if step.Serve? {
      TendedIsLater(p, s, step.step);
    }
  }

  lemma TendedIsLater(p: Programs, s: State, x: Acceptor.Step)
    requires Inv(p, s) && Enabled(p, s, Serve(x))
    ensures Later(s, Tended(s, x))
  {
    hide Acceptor.Next, Acceptor.Enabled, Acceptor.Inv, Lines, Holds, InProgramOrder, Due, Later;
    LinesHaveKeys(s);
    if x.Register? {
      NotEnteredBefore(p, s);
      OneLineLater(s, Tended(s, x), s.server.place.conn);
    } else if x.Accept? {
      NewConnection(s, x);
      OneLineLater(s, Tended(s, x), x.conn);
    } else {
      OneLineLater(s, Tended(s, x), if x.Close? then x.conn else 0);
    }
  }

  /** At most one line has changed, and that was entered now, if it was not before. */
  lemma OneLineLater(s: State, s': State, c: Conn)
    requires s'.log == s.log && s.lines.Keys <= s'.lines.Keys
    requires forall o :: o in s'.lines && o != c ==> o in s.lines && s'.lines[o].since == s.lines[o].since
    requires c in s.lines && s.lines[c].since.Some? ==> s'.lines[c].since == s.lines[c].since
    requires c in s'.lines && s'.lines[c].since.Some? && !(c in s.lines && s.lines[c].since.Some?) ==> s'.lines[c].since.value == |s.log|
    ensures Later(s, s')
  {
  }

  lemma NewConnection(s: State, x: Acceptor.Step)
    requires s.lines.Keys == s.server.conns.Keys && Acceptor.Enabled(s.server, x) && x.Accept?
    ensures x.conn !in s.lines
  {
  }

  lemma NotEnteredBefore(p: Programs, s: State)
    requires Inv(p, s) && Enabled(p, s, Serve(Acceptor.Register))
    ensures s.server.place.conn in s.lines && s.lines[s.server.place.conn].since.None?
  {
    hide Holds, InProgramOrder, Steady, Fits, Content, Length, Acceptor.Kernel, Acceptor.Threads, Acceptor.Reports, Acceptor.Entries,
      Acceptor.Doom;
    assert Acceptor.In(s.server, s.server.place.conn, Acceptor.Accepted);
    assert Fine(s, s.server.place.conn);
  }

  lemma {:induction false} RunIsLater(p: Programs, s: State, steps: seq<Step>)
    requires Inv(p, s) && Possible(p, s, steps)
    ensures Later(s, After(p, s, steps))
    decreases |steps|
  {
    if steps != [] {
      hide Enabled, Next, Inv;
      InvKept(p, s, steps[0]);
      LineIsLater(p, s, steps[0]);
      RunIsLater(p, Next(p, s, steps[0]), steps[1..]);
    }
  }
}
