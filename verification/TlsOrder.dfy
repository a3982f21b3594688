/**
  * The sends to the Qt clients as a step machine. Any number of threads send. Whether a message is encrypted is
  * decided under the TLS mutex: once the handshake of the connection is complete it is encrypted and sent in that
  * same section; before that it is sent in the clear after the mutex has been released, and so are the replies of the
  * handshake. The client mutex that broadcasts also hold only removes interleavings, so the runs here include those
  * of the source.
  */
module TlsOrder {
  import opened Common
  import opened Wire
  import opened Pieces

  type Conn = nat
  type Thread = nat

  /** A message before encryption; only images have a tail, which is sent unencrypted. */
  datatype Message = Message(kind: byte, text: seq<byte>, jpeg: seq<byte>)

  /** `seal(c, n, text)` is the ciphertext of record n of connection c, empty if encryption fails. */
  type Cipher = (Conn, nat, seq<byte>) -> seq<byte>

  /** A send in the clear, and how much of it has been accepted. */
  datatype Clear = Clear(bytes: seq<byte>, sent: nat)

  /** A send in the clear by its number, or a record by its sequence number. */
  datatype Origin = InClear(number: nat) | OfRecord(number: nat)

  datatype Line = Line(
    wire: seq<Piece<Origin>>,          // everything the connection ever accepted
    clears: seq<Clear>,                // the sends in the clear decided on so far
    reply: Option<nat>,                // which of them is the handshake reply its handler is sending
    secured: bool,                     // the handshake is complete
    sealed: seq<Message>,              // what its session has encrypted, in order
    tangled: bool,                     // it has accepted bytes of one send in the middle of another
    early: bool,                       // it has accepted bytes of a record before all of what was decided on in the clear
    broken: bool,                      // a send on it has failed
    closed: bool)

  /** The holder of the TLS mutex: `sent` bytes of the last record of `conn` have been accepted. */
  datatype Holder = Holder(conn: Conn, sent: nat)

  datatype State = State(
    lines: map<Conn, Line>,
    holder: Option<Holder>,
    plain: map<Thread, (Conn, nat)>,   // the sends in the clear that threads are in
    next: map<Thread, nat>)            // how many messages a thread has begun to send

  datatype Step =
    | Open(conn: Conn)
    | Handshake(conn: Conn, reply: seq<byte>, done: bool)
    | ReplyChunk(conn: Conn, size: nat)
    | ReplyFails(conn: Conn)
    | ReplyEnd(conn: Conn)
    | Begin(thread: Thread)
    | PlainChunk(thread: Thread, size: nat)
    | PlainFails(thread: Thread)
    | PlainEnd(thread: Thread)
    | Chunk(size: nat)
    | SendFails
    | Release
    | Close(conn: Conn)

  /** What each thread sends to whom, in its own order. */
  type Programs = map<Thread, seq<(Conn, Message)>>

  const Init := State(map[], None, map[], map[])

  const NewLine := Line([], [], None, false, [], false, false, false, false)

  function Begun(s: State, t: Thread): nat {
    if t in s.next then s.next[t] else 0
  }

  /** Record n of a session as it goes over the wire. */
  function Record(seal: Cipher, c: Conn, n: nat, m: Message): seq<byte> {
    EncodeLE(Frame(m.kind, seal(c, n, m.text), m.jpeg))
  }

  /** The last record of a connection. */
  function LastRecord(seal: Cipher, c: Conn, l: Line): seq<byte>
    requires l.sealed != []
  {
    Record(seal, c, |l.sealed| - 1, l.sealed[|l.sealed| - 1])
  }

  /** Send number k in the clear can go on. */
  predicate Speaking(s: State, c: Conn, k: nat) {
    c in s.lines && k < |s.lines[c].clears|
  }

  function Rest(s: State, c: Conn, k: nat): int
    requires Speaking(s, c, k)
  {
    |s.lines[c].clears[k].bytes| - s.lines[c].clears[k].sent
  }

  predicate Replying(s: State, c: Conn) {
    c in s.lines && s.lines[c].reply.Some? && Speaking(s, c, s.lines[c].reply.value)
  }

  predicate Plainly(s: State, t: Thread) {
    t in s.plain && Speaking(s, s.plain[t].0, s.plain[t].1)
  }

  predicate Sealing(s: State) {
    s.holder.Some? && s.holder.value.conn in s.lines && s.lines[s.holder.value.conn].sealed != []
  }

  predicate Enabled(p: Programs, seal: Cipher, s: State, step: Step) {
    match step
    case Open(c) => c !in s.lines
    case Handshake(c, _, _) =>
      s.holder.None? && c in s.lines && !s.lines[c].secured && !s.lines[c].closed && s.lines[c].reply.None?
    case ReplyChunk(c, n) => Replying(s, c) && !s.lines[c].broken && 0 < n <= Rest(s, c, s.lines[c].reply.value)
    case ReplyFails(c) => Replying(s, c) && Rest(s, c, s.lines[c].reply.value) > 0
    case ReplyEnd(c) => Replying(s, c) && Rest(s, c, s.lines[c].reply.value) == 0
    case Begin(t) => s.holder.None? && t in p && Begun(s, t) < |p[t]| && t !in s.plain
    case PlainChunk(t, n) =>
      && Plainly(s, t) && !s.lines[s.plain[t].0].broken && !s.lines[s.plain[t].0].closed
      && 0 < n <= Rest(s, s.plain[t].0, s.plain[t].1)
    case PlainFails(t) => Plainly(s, t) && Rest(s, s.plain[t].0, s.plain[t].1) > 0
    case PlainEnd(t) => Plainly(s, t) && Rest(s, s.plain[t].0, s.plain[t].1) == 0
    case Chunk(n) =>
      && Sealing(s) && !s.lines[s.holder.value.conn].broken && !s.lines[s.holder.value.conn].closed
      && 0 < n <= |LastRecord(seal, s.holder.value.conn, s.lines[s.holder.value.conn])| - s.holder.value.sent
    case SendFails =>
      Sealing(s) && s.holder.value.sent < |LastRecord(seal, s.holder.value.conn, s.lines[s.holder.value.conn])|
    case Release =>
      Sealing(s) && s.holder.value.sent == |LastRecord(seal, s.holder.value.conn, s.lines[s.holder.value.conn])|
    case Close(c) => c in s.lines && s.lines[c].reply.None?
  }

  /** A send in the clear other than number `but` is in its middle. */
  predicate ClearMid(l: Line, but: int) {
    exists k :: 0 <= k < |l.clears| && k != but && 0 < l.clears[k].sent < |l.clears[k].bytes|
  }

  /** Something decided on in the clear has not been accepted to the end. */
  predicate Unfinished(l: Line) {
    exists k :: 0 <= k < |l.clears| && l.clears[k].sent < |l.clears[k].bytes|
  }

  /** A record to `c` is in its middle. */
  predicate RecordMid(seal: Cipher, s: State, c: Conn) {
    && Sealing(s) && s.holder.value.conn == c
    && 0 < s.holder.value.sent < |LastRecord(seal, c, s.lines[c])|
  }

  /** The line of `c` after it has accepted `n` more bytes of send number `k` in the clear. */
  function Spoken(seal: Cipher, s: State, c: Conn, k: nat, n: nat): Line
    requires Speaking(s, c, k)
  {
    var l := s.lines[c];
    var clear := l.clears[k];
    l.(wire := Put(l.wire, InClear(k), clear.bytes, clear.sent, n, clear.sent > 0),
       clears := l.clears[k := clear.(sent := clear.sent + n)],
       tangled := l.tangled || ClearMid(l, k) || RecordMid(seal, s, c))
  }

  /** The line after it has accepted `n` more bytes of the record being sent. */
  function Recorded(seal: Cipher, s: State, n: nat): Line
    requires Sealing(s)
  {
    var c, sent := s.holder.value.conn, s.holder.value.sent;
    var l := s.lines[c];
    l.(wire := Put(l.wire, OfRecord(|l.sealed| - 1), LastRecord(seal, c, l), sent, n, sent > 0),
       tangled := l.tangled || ClearMid(l, -1),
       early := l.early || Unfinished(l))
  }

  function WithLine(s: State, c: Conn, l: Line): State {
    s.(lines := s.lines[c := l])
  }

  /** A handshake packet has been processed: its reply is still to be sent. */
  function Answered(l: Line, reply: seq<byte>, done: bool): Line {
    if reply == [] then l.(secured := done)
    else l.(secured := done, clears := l.clears + [Clear(EncodeLE(Frame(HANDSHAKE, reply, [])), 0)], reply := Some(|l.clears|))
  }

  /** A thread turns to its next message: on a closed descriptor it fails at once, and so it does if encryption fails. */
  function Decide(seal: Cipher, s: State, t: Thread, c: Conn, m: Message): State {
    var next := s.next[t := Begun(s, t) + 1];
    if c !in s.lines || s.lines[c].closed then s.(next := next)
    else
      var l := s.lines[c];
      if !l.secured then
        s.(next := next, plain := s.plain[t := (c, |l.clears|)],
           lines := s.lines[c := l.(clears := l.clears + [Clear(EncodeLE(Frame(m.kind, m.text, m.jpeg)), 0)])])
      else if seal(c, |l.sealed|, m.text) == [] then s.(next := next)
      else s.(next := next, holder := Some(Holder(c, 0)), lines := s.lines[c := l.(sealed := l.sealed + [m])])
  }

  function Fail(l: Line): Line {
    l.(broken := true)
  }

  function Next(p: Programs, seal: Cipher, s: State, step: Step): State
    requires Enabled(p, seal, s, step)
  {
    match step
    case Open(c) => WithLine(s, c, NewLine)
    case Handshake(c, reply, done) => WithLine(s, c, Answered(s.lines[c], reply, done))
    case ReplyChunk(c, n) => WithLine(s, c, Spoken(seal, s, c, s.lines[c].reply.value, n))
    case ReplyFails(c) => WithLine(s, c, Fail(s.lines[c]).(reply := None))
    case ReplyEnd(c) => WithLine(s, c, s.lines[c].(reply := None))
    case Begin(t) => Decide(seal, s, t, p[t][Begun(s, t)].0, p[t][Begun(s, t)].1)
    case PlainChunk(t, n) => WithLine(s, s.plain[t].0, Spoken(seal, s, s.plain[t].0, s.plain[t].1, n))
    case PlainFails(t) => WithLine(s, s.plain[t].0, Fail(s.lines[s.plain[t].0])).(plain := s.plain - {t})
    case PlainEnd(t) => s.(plain := s.plain - {t})
    case Chunk(n) =>
      WithLine(s, s.holder.value.conn, Recorded(seal, s, n)).(holder := Some(s.holder.value.(sent := s.holder.value.sent + n)))
    case SendFails => WithLine(s, s.holder.value.conn, Fail(s.lines[s.holder.value.conn])).(holder := None)
    case Release => s.(holder := None)
    case Close(c) => WithLine(s, c, s.lines[c].(closed := true))
  }

  predicate Possible(p: Programs, seal: Cipher, s: State, steps: seq<Step>)
    decreases |steps|
  {
    steps == [] || (Enabled(p, seal, s, steps[0]) && Possible(p, seal, Next(p, seal, s, steps[0]), steps[1..]))
  }

  function After(p: Programs, seal: Cipher, s: State, steps: seq<Step>): State
    requires Possible(p, seal, s, steps)
    decreases |steps|
  {
    if steps == [] then s else After(p, seal, Next(p, seal, s, steps[0]), steps[1..])
  }

  // ---- what is on a wire ----

  /** The records of a session with their sequence numbers, none skipped, none repeated. */
  function Records(seal: Cipher, c: Conn, ms: seq<Message>): seq<byte> {
    if ms == [] then []
    else Records(seal, c, ms[..|ms| - 1]) + Record(seal, c, |ms| - 1, ms[|ms| - 1])
  }

  function Unsent(seal: Cipher, s: State, c: Conn): seq<byte> {
    if Sealing(s) && s.holder.value.conn == c && s.holder.value.sent <= |LastRecord(seal, c, s.lines[c])|
    then LastRecord(seal, c, s.lines[c])[s.holder.value.sent..] else []
  }

  function ClearBytes(ps: seq<Piece<Origin>>): seq<byte> {
    if ps == [] then []
    else ClearBytes(ps[..|ps| - 1]) + if ps[|ps| - 1].origin.InClear? then BytesOf(ps[|ps| - 1]) else []
  }

  function RecordBytes(ps: seq<Piece<Origin>>): seq<byte> {
    if ps == [] then []
    else RecordBytes(ps[..|ps| - 1]) + if ps[|ps| - 1].origin.OfRecord? then BytesOf(ps[|ps| - 1]) else []
  }

  /** Nothing in the clear comes after a byte of a record. */
  predicate ClearFirst(ps: seq<Piece<Origin>>) {
    forall i, j :: 0 <= i < j < |ps| && ps[i].origin.OfRecord? ==> ps[j].origin.OfRecord?
  }

  predicate HasRecords(ps: seq<Piece<Origin>>) {
    exists i :: 0 <= i < |ps| && ps[i].origin.OfRecord?
  }

  /** Every byte of a record comes after all of what was decided on in the clear. */
  predicate Separate(l: Line) {
    ClearFirst(l.wire) && (HasRecords(l.wire) ==> !Unfinished(l))
  }

  // ---- invariants ----

  function ClearPiece(l: Line, k: nat): Piece<Origin>
    requires k < |l.clears|
  {
    Piece(InClear(k), l.clears[k].bytes, 0, l.clears[k].sent)
  }

  function RecordPiece(seal: Cipher, s: State): Piece<Origin>
    requires Sealing(s)
  {
    var c := s.holder.value.conn;
    Piece(OfRecord(|s.lines[c].sealed| - 1), LastRecord(seal, c, s.lines[c]), 0, s.holder.value.sent)
  }

  predicate LastIs(ps: seq<Piece<Origin>>, piece: Piece<Origin>) {
    ps != [] && ps[|ps| - 1] == piece
  }

  /** Unless sends have been mixed, the one in progress is the last on the wire and everything before it is complete. */
  ghost predicate Orderly(seal: Cipher, s: State, c: Conn)
    requires c in s.lines
  {
    var l := s.lines[c];
    && Whole(l.wire)
    && (!l.broken ==>
          && (forall k :: 0 <= k < |l.clears| && 0 < l.clears[k].sent < |l.clears[k].bytes| ==> LastIs(l.wire, ClearPiece(l, k)))
          && (RecordMid(seal, s, c) ==> LastIs(l.wire, RecordPiece(seal, s)))
          && (!ClearMid(l, -1) && !RecordMid(seal, s, c) && l.wire != [] ==> Complete(l.wire[|l.wire| - 1])))
  }

  ghost predicate Fits(seal: Cipher, s: State, c: Conn)
    requires c in s.lines
  {
    if s.lines[c].tangled then Torn(s.lines[c].wire) else Orderly(seal, s, c)
  }

  ghost predicate Counts(l: Line) {
    && (forall k :: 0 <= k < |l.clears| ==> l.clears[k].sent <= |l.clears[k].bytes|)
    && (l.reply.Some? ==> l.reply.value < |l.clears|)
    && (!l.secured ==> l.sealed == [])
    && (l.sealed == [] ==> !HasRecords(l.wire))
    && (forall i :: 0 <= i < |l.wire| && l.wire[i].origin.InClear? ==> l.wire[i].origin.number < |l.clears|)
  }

  /** The last piece on a wire ends where its send has got to. */
  ghost predicate Tail(seal: Cipher, s: State, c: Conn)
    requires c in s.lines
  {
    var l := s.lines[c];
    l.wire != [] ==>
      var q := l.wire[|l.wire| - 1];
      && q.from <= q.to <= |q.bytes|
      && match q.origin
         case InClear(k) => k < |l.clears| && q.bytes == l.clears[k].bytes && q.to == l.clears[k].sent
         case OfRecord(n) =>
           && n < |l.sealed|
           && (Sealing(s) && s.holder.value.conn == c && n == |l.sealed| - 1 ==>
                 q.bytes == LastRecord(seal, c, l) && q.to == s.holder.value.sent)
  }

  /** The bytes of each send in the clear are on the wire in order and once. */
  ghost predicate ClearContent(l: Line) {
    forall k :: 0 <= k < |l.clears| && l.clears[k].sent <= |l.clears[k].bytes| ==>
      Of(l.wire, InClear(k)) == l.clears[k].bytes[..l.clears[k].sent]
  }

  /** So are those of the records. */
  ghost predicate RecordContent(seal: Cipher, s: State, c: Conn)
    requires c in s.lines
  {
    var l := s.lines[c];
    if l.broken then RecordBytes(l.wire) <= Records(seal, c, l.sealed)
    else RecordBytes(l.wire) + Unsent(seal, s, c) == Records(seal, c, l.sealed)
  }

  ghost predicate Content(seal: Cipher, s: State, c: Conn)
    requires c in s.lines
  {
    ClearContent(s.lines[c]) && RecordContent(seal, s, c)
  }

  ghost predicate Fine(seal: Cipher, s: State, c: Conn)
    requires c in s.lines
  {
    && Counts(s.lines[c]) && Tail(seal, s, c) && Content(seal, s, c) && Fits(seal, s, c)
    && (Separate(s.lines[c]) <==> !s.lines[c].early)
  }

  ghost predicate Holds(seal: Cipher, s: State) {
    && (s.holder.Some? ==>
          && Sealing(s) && s.lines[s.holder.value.conn].secured
          && s.holder.value.sent <= |LastRecord(seal, s.holder.value.conn, s.lines[s.holder.value.conn])|)
    && (forall t :: t in s.plain ==> Speaking(s, s.plain[t].0, s.plain[t].1))
  }

  ghost predicate Inv(seal: Cipher, s: State) {
    Holds(seal, s) && forall c :: c in s.lines ==> Fine(seal, s, c)
  }

  // ---- bytes of a wire ----

  lemma OneMore(ps: seq<Piece<Origin>>, q: Piece<Origin>)
    ensures ClearBytes(ps + [q]) == ClearBytes(ps) + (if q.origin.InClear? then BytesOf(q) else [])
    ensures RecordBytes(ps + [q]) == RecordBytes(ps) + (if q.origin.OfRecord? then BytesOf(q) else [])
  {
    assert (ps + [q])[..|ps|] == ps;
  }

  lemma PutAddsRecord(ps: seq<Piece<Origin>>, origin: Origin, bytes: seq<byte>, from: nat, n: nat, on: bool)
    requires from + n <= |bytes| && !(on && ps != [] && ps[|ps| - 1].origin == origin)
    ensures RecordBytes(Put(ps, origin, bytes, from, n, on)) ==
            RecordBytes(ps) + if origin.OfRecord? then bytes[from..from + n] else []
  {
    hide RecordBytes, ClearBytes, BytesOf, Put;
    PutIsNew(ps, origin, bytes, from, n, on);
    OneMore(ps, Piece(origin, bytes, from, from + n));
  }

  lemma GrownRecord(init: seq<Piece<Origin>>, q: Piece<Origin>, n: nat)
    requires q.from <= q.to && q.to + n <= |q.bytes|
    ensures RecordBytes(init + [q.(to := q.to + n)]) ==
            RecordBytes(init + [q]) + if q.origin.OfRecord? then q.bytes[q.to..q.to + n] else []
  {
    OneMore(init, q);
    OneMore(init, q.(to := q.to + n));
    GrownBytes(q, n);
    hide RecordBytes, ClearBytes, BytesOf;
    if q.origin.OfRecord? {
      ConcatAssociative(RecordBytes(init), BytesOf(q), q.bytes[q.to..q.to + n]);
    } else {
      assert RecordBytes(init + [q]) + [] == RecordBytes(init + [q]);
    }
  }

  lemma PutGrowsRecord(ps: seq<Piece<Origin>>, origin: Origin, from: nat, n: nat)
    requires ps != [] && ps[|ps| - 1].origin == origin
    requires var q := ps[|ps| - 1]; q.from <= q.to == from && from + n <= |q.bytes|
    ensures var q := ps[|ps| - 1];
            RecordBytes(Put(ps, origin, q.bytes, from, n, true)) ==
            RecordBytes(ps) + if origin.OfRecord? then q.bytes[from..from + n] else []
  {
    GrownRecord(ps[..|ps| - 1], ps[|ps| - 1], n);
    assert ps[..|ps| - 1] + [ps[|ps| - 1]] == ps;
  }

  lemma PutRecord(ps: seq<Piece<Origin>>, origin: Origin, bytes: seq<byte>, from: nat, n: nat, on: bool)
    requires from + n <= |bytes| && Follows(ps, origin, bytes, from, on)
    ensures RecordBytes(Put(ps, origin, bytes, from, n, on)) ==
            RecordBytes(ps) + if origin.OfRecord? then bytes[from..from + n] else []
  {
    hide RecordBytes, Put;
    if on && ps != [] && ps[|ps| - 1].origin == origin {
      PutGrowsRecord(ps, origin, from, n);
    } else {
      PutAddsRecord(ps, origin, bytes, from, n, on);
    }
  }

  lemma OneMoreRecord(seal: Cipher, c: Conn, ms: seq<Message>, m: Message)
    ensures Records(seal, c, ms + [m]) == Records(seal, c, ms) + Record(seal, c, |ms|, m)
  {
    assert (ms + [m])[..|ms|] == ms;
  }

  lemma Continued(bytes: seq<byte>, from: nat, n: nat)
    requires from + n <= |bytes|
    ensures bytes[..from] + bytes[from..from + n] == bytes[..from + n]
    ensures bytes[from..] == bytes[from..from + n] + bytes[from + n..]
  {
  }

  // ---- order of clear and encrypted ----

  /** A chunk in the clear keeps a wire separate only if there is no record on it yet. */
  lemma SpokenSeparate(l: Line, l': Line, k: nat, n: nat)
    requires k < |l.clears| && 0 < n && l.clears[k].sent + n <= |l.clears[k].bytes|
    requires l'.wire == Put(l.wire, InClear(k), l.clears[k].bytes, l.clears[k].sent, n, l.clears[k].sent > 0)
    requires l'.clears == l.clears[k := l.clears[k].(sent := l.clears[k].sent + n)]
    ensures Separate(l') <==> Separate(l)
    ensures HasRecords(l'.wire) <==> HasRecords(l.wire)
  {
    var ps, qs := l.wire, l'.wire;
    assert |ps| <= |qs| && qs[|qs| - 1].origin == InClear(k);
    assert forall i :: 0 <= i < |ps| ==> qs[i].origin == ps[i].origin;
    assert forall i :: 0 <= i < |qs| && qs[i].origin.OfRecord? ==> i < |ps|;
    if HasRecords(ps) {
      var i :| 0 <= i < |ps| && ps[i].origin.OfRecord?;
      assert qs[i].origin.OfRecord? && i < |qs| - 1;
      assert !ClearFirst(qs);
      assert Unfinished(l) by {
        assert l.clears[k].sent < |l.clears[k].bytes|;
      }
    }
  }

  /** A chunk of a record does, unless something in the clear is unfinished. */
  lemma RecordedSeparate(l: Line, l': Line, n: nat, bytes: seq<byte>, from: nat, m: nat)
    requires l'.wire == Put(l.wire, OfRecord(n), bytes, from, m, from > 0) && l'.clears == l.clears
    ensures Separate(l') <==> Separate(l) && !Unfinished(l)
    ensures HasRecords(l'.wire)
  {
    var ps, qs := l.wire, l'.wire;
    assert |ps| <= |qs| && qs[|qs| - 1].origin == OfRecord(n);
    assert forall i :: 0 <= i < |ps| ==> qs[i].origin == ps[i].origin;
    assert Unfinished(l') <==> Unfinished(l);
    if ClearFirst(ps) {
      assert ClearFirst(qs);
    } else {
      var i, j :| 0 <= i < j < |ps| && ps[i].origin.OfRecord? && !ps[j].origin.OfRecord?;
      assert qs[i].origin.OfRecord? && !qs[j].origin.OfRecord?;
    }
    if HasRecords(ps) {
    }
  }

  /** Before there are records, deciding on a send in the clear changes nothing. */
  lemma DecidedSeparate(l: Line, l': Line)
    requires l'.wire == l.wire && !HasRecords(l.wire)
    ensures Separate(l') <==> Separate(l)
  {
  }

  // ---- every step keeps the invariants ----

  /** What the invariant of a connection says of the holder of the mutex: whether it is sending to that connection, and how far it is. */
  ghost predicate SameHolder(s: State, s': State, c: Conn) {
    || s'.holder == s.holder
    || ((s.holder.None? || s.holder.value.conn != c) && (s'.holder.None? || s'.holder.value.conn != c))
  }

  lemma SameFine(seal: Cipher, s: State, s': State, c: Conn)
    requires c in s.lines && c in s'.lines && s'.lines[c] == s.lines[c] && SameHolder(s, s', c) && Fine(seal, s, c)
    ensures Fine(seal, s', c)
  {
    hide Record, Records, RecordBytes, Of, Whole, Torn, Separate, Counts, Unfinished;
  }

  lemma FreshFine(seal: Cipher, s: State, c: Conn)
    requires Holds(seal, s) && c !in s.lines
    ensures Fine(seal, WithLine(s, c, NewLine), c)
  {
    hide Record;
  }

  /** More sends in the clear have been decided on, of which nothing has been accepted yet. */
  ghost predicate Decides(l: Line, l': Line) {
    && l' == l.(clears := l'.clears, reply := l'.reply, secured := l'.secured)
    && l.clears <= l'.clears && (forall k :: |l.clears| <= k < |l'.clears| ==> l'.clears[k].sent == 0)
    && (l'.reply.Some? ==> l'.reply.value < |l'.clears|) && !l.secured
  }

  lemma DecidedMids(l: Line, l': Line)
    requires Decides(l, l')
    ensures ClearMid(l', -1) <==> ClearMid(l, -1)
    ensures forall k :: 0 <= k < |l'.clears| && 0 < l'.clears[k].sent < |l'.clears[k].bytes| ==>
              k < |l.clears| && ClearPiece(l', k) == ClearPiece(l, k) && 0 < l.clears[k].sent < |l.clears[k].bytes|
  {
    assert forall k :: 0 <= k < |l.clears| ==> l'.clears[k] == l.clears[k];
  }

  lemma DecidedFits(seal: Cipher, s: State, c: Conn, l': Line)
    requires c in s.lines && Decides(s.lines[c], l') && Fits(seal, s, c)
    ensures Fits(seal, WithLine(s, c, l'), c)
  {
    DecidedMids(s.lines[c], l');
    hide Record, Whole, Torn, ClearMid, ClearPiece, Complete, LastIs;
  }

  lemma DecidedContent(seal: Cipher, s: State, c: Conn, l': Line)
    requires c in s.lines && Decides(s.lines[c], l') && Content(seal, s, c) && Counts(s.lines[c])
    ensures Content(seal, WithLine(s, c, l'), c) && Counts(l')
  {
    var l := s.lines[c];
    forall k | |l.clears| <= k < |l'.clears|
      ensures Of(l.wire, InClear(k)) == l'.clears[k].bytes[..0]
    {
      OfNothing(l.wire, InClear(k));
    }
    assert forall k :: 0 <= k < |l.clears| ==> l'.clears[k] == l.clears[k];
    hide Record, Records, RecordBytes, Of, HasRecords;
  }

  lemma DecidedFine(seal: Cipher, s: State, c: Conn, l': Line)
    requires c in s.lines && Decides(s.lines[c], l') && Fine(seal, s, c)
    ensures Fine(seal, WithLine(s, c, l'), c)
  {
    var l := s.lines[c];
    DecidedFits(seal, s, c, l');
    DecidedContent(seal, s, c, l');
    assert !HasRecords(l.wire);
    DecidedSeparate(l, l');
    hide Record, Fits, Content, HasRecords, Separate;
    assert forall k :: 0 <= k < |l.clears| ==> l'.clears[k] == l.clears[k];
  }

  lemma AnsweredFine(seal: Cipher, s: State, c: Conn, reply: seq<byte>, done: bool)
    requires c in s.lines && !s.lines[c].secured && Fine(seal, s, c)
    ensures Fine(seal, WithLine(s, c, Answered(s.lines[c], reply, done)), c)
  {
    hide EncodeLE, Fits, Content, Tail, Separate;
    DecidedFine(seal, s, c, Answered(s.lines[c], reply, done));
  }

  /** A thread has decided to send something in the clear. */
  lemma PlainFine(seal: Cipher, s: State, t: Thread, c: Conn, m: Message)
    requires c in s.lines && !s.lines[c].closed && !s.lines[c].secured && Fine(seal, s, c)
    ensures Fine(seal, Decide(seal, s, t, c, m), c)
  {
    hide EncodeLE;
    var l := s.lines[c];
    var l' := l.(clears := l.clears + [Clear(EncodeLE(Frame(m.kind, m.text, m.jpeg)), 0)]);
    assert l.reply.Some? ==> l.reply.value < |l.clears| by {
      RepliesKnown(seal, s, c);
    }
    hide Fine;
    DecidedFine(seal, s, c, l');
    SameFine(seal, WithLine(s, c, l'), Decide(seal, s, t, c, m), c);
  }

  lemma RepliesKnown(seal: Cipher, s: State, c: Conn)
    requires c in s.lines && Fine(seal, s, c)
    ensures s.lines[c].reply.Some? ==> s.lines[c].reply.value < |s.lines[c].clears|
  {
    hide Tail, Content, Fits, Separate;
  }

  /** The state after a thread has encrypted a message and begun to send it. */
  function Sealed(s: State, c: Conn, m: Message): State
    requires c in s.lines
  {
    s.(lines := s.lines[c := s.lines[c].(sealed := s.lines[c].sealed + [m])], holder := Some(Holder(c, 0)))
  }

  lemma SealedContent(seal: Cipher, s: State, c: Conn, m: Message)
    requires s.holder.None? && c in s.lines && Content(seal, s, c)
    ensures Content(seal, Sealed(s, c, m), c)
  {
    var l, bytes := s.lines[c], Record(seal, c, |s.lines[c].sealed|, m);
    OneMoreRecord(seal, c, l.sealed, m);
    hide Record, Records, RecordBytes, Of;
    assert RecordBytes(l.wire) + [] == RecordBytes(l.wire);
    assert LastRecord(seal, c, Sealed(s, c, m).lines[c]) == bytes && bytes[0..] == bytes;
    assert RecordBytes(l.wire) <= Records(seal, c, l.sealed) ==> RecordBytes(l.wire) <= Records(seal, c, l.sealed) + bytes;
  }

  lemma SealedTail(seal: Cipher, s: State, c: Conn, m: Message)
    requires s.holder.None? && c in s.lines && Tail(seal, s, c)
    ensures Tail(seal, Sealed(s, c, m), c)
  {
    hide Record;
  }

  lemma SealedFits(seal: Cipher, s: State, c: Conn, m: Message)
    requires s.holder.None? && c in s.lines && Fits(seal, s, c)
    ensures Fits(seal, Sealed(s, c, m), c)
  {
    hide Record, Whole, Torn, Complete;
    assert ClearMid(Sealed(s, c, m).lines[c], -1) <==> ClearMid(s.lines[c], -1);
    hide ClearMid;
  }

  lemma SealedFine(seal: Cipher, s: State, c: Conn, m: Message)
    requires s.holder.None? && c in s.lines && s.lines[c].secured && Fine(seal, s, c)
    ensures Fine(seal, Sealed(s, c, m), c)
  {
    hide Content, Tail, Fits, Record;
    SealedContent(seal, s, c, m);
    SealedTail(seal, s, c, m);
    SealedFits(seal, s, c, m);
  }

  /** A thread has turned to its next message. */
  lemma BegunFine(seal: Cipher, s: State, t: Thread, d: Conn, m: Message, c: Conn)
    requires s.holder.None? && c in s.lines && Fine(seal, s, c)
    ensures c in Decide(seal, s, t, d, m).lines && Fine(seal, Decide(seal, s, t, d, m), c)
  {
    var s' := Decide(seal, s, t, d, m);
    hide Fine, EncodeLE;
    if s'.lines == s.lines || c != d {
      hide Sealing;
      assert SameHolder(s, s', c);
      SameFine(seal, s, s', c);
    } else if !s.lines[c].secured {
      PlainFine(seal, s, t, c, m);
    } else {
      SealedFine(seal, s, c, m);
      SameFine(seal, Sealed(s, c, m), s', c);
    }
  }

  /** The end of a send and the end of a connection put nothing on a wire. */
  lemma EndedFine(seal: Cipher, s: State, s': State, c: Conn)
    requires c in s.lines && c in s'.lines && Fine(seal, s, c)
    requires s'.lines[c] == s.lines[c].(reply := s'.lines[c].reply, broken := s'.lines[c].broken, closed := s'.lines[c].closed)
    requires s.lines[c].broken ==> s'.lines[c].broken
    requires s'.lines[c].reply.None? || s'.lines[c].reply == s.lines[c].reply
    requires SameHolder(s, s', c) || (s'.holder.None? && (Unsent(seal, s, c) != [] ==> s'.lines[c].broken))
    ensures Fine(seal, s', c)
  {
    hide Record, Records, RecordBytes, Of, Whole, Torn, ClearMid, Separate, Counts, Tail, Content, Fits;
    EndedContent(seal, s, s', c);
    EndedFits(seal, s, s', c);
    EndedTail(seal, s, s', c);
    EndedCounts(s.lines[c], s'.lines[c]);
  }

  lemma EndedCounts(l: Line, l': Line)
    requires l' == l.(reply := l'.reply, broken := l'.broken, closed := l'.closed) && (l'.reply.None? || l'.reply == l.reply)
    ensures Counts(l) ==> Counts(l')
    ensures Separate(l') <==> Separate(l)
  {
  }

  lemma EndedTail(seal: Cipher, s: State, s': State, c: Conn)
    requires c in s.lines && c in s'.lines && Tail(seal, s, c)
    requires s'.lines[c] == s.lines[c].(reply := s'.lines[c].reply, broken := s'.lines[c].broken, closed := s'.lines[c].closed)
    requires SameHolder(s, s', c) || s'.holder.None?
    ensures Tail(seal, s', c)
  {
    hide Record;
  }

  lemma EndedContent(seal: Cipher, s: State, s': State, c: Conn)
    requires c in s.lines && c in s'.lines && Content(seal, s, c)
    requires s'.lines[c] == s.lines[c].(reply := s'.lines[c].reply, broken := s'.lines[c].broken, closed := s'.lines[c].closed)
    requires s.lines[c].broken ==> s'.lines[c].broken
    requires SameHolder(s, s', c) || (s'.holder.None? && (Unsent(seal, s, c) != [] ==> s'.lines[c].broken))
    ensures Content(seal, s', c)
  {
    hide Record, Records, RecordBytes, Of;
    assert RecordBytes(s.lines[c].wire) <= RecordBytes(s.lines[c].wire) + Unsent(seal, s, c);
    assert RecordBytes(s.lines[c].wire) + [] == RecordBytes(s.lines[c].wire);
  }

  lemma EndedFits(seal: Cipher, s: State, s': State, c: Conn)
    requires c in s.lines && c in s'.lines && Fits(seal, s, c)
    requires s'.lines[c] == s.lines[c].(reply := s'.lines[c].reply, broken := s'.lines[c].broken, closed := s'.lines[c].closed)
    requires s.lines[c].broken ==> s'.lines[c].broken
    requires SameHolder(s, s', c) || (s'.holder.None? && (Unsent(seal, s, c) != [] ==> s'.lines[c].broken))
    ensures Fits(seal, s', c)
  {
    hide Record, Whole, Torn, Complete;
    assert ClearMid(s'.lines[c], -1) <==> ClearMid(s.lines[c], -1);
    hide ClearMid;
  }

  // ---- a chunk in the clear ----

  /** What a chunk in the clear does, without the flag. */
  lemma SpokenEffect(seal: Cipher, s: State, c: Conn, k: nat, n: nat)
    requires Speaking(s, c, k)
    ensures var l, l' := s.lines[c], Spoken(seal, s, c, k, n);
            && l' == l.(wire := l'.wire, clears := l'.clears, tangled := l'.tangled)
            && l'.wire == Put(l.wire, InClear(k), l.clears[k].bytes, l.clears[k].sent, n, l.clears[k].sent > 0)
            && l'.clears == l.clears[k := l.clears[k].(sent := l.clears[k].sent + n)]
  {
    hide Put, ClearMid, RecordMid;
  }

  predicate Fitting(s: State, c: Conn, k: nat, n: nat) {
    Speaking(s, c, k) && !s.lines[c].broken && 0 < n <= Rest(s, c, k)
  }

  lemma TailFollows(seal: Cipher, s: State, c: Conn, k: nat)
    requires Speaking(s, c, k) && Tail(seal, s, c)
    ensures var l := s.lines[c]; Follows(l.wire, InClear(k), l.clears[k].bytes, l.clears[k].sent, l.clears[k].sent > 0)
  {
    hide Record;
  }

  lemma SpokenTail(seal: Cipher, s: State, c: Conn, k: nat, n: nat)
    requires Fitting(s, c, k, n) && Tail(seal, s, c) && Counts(s.lines[c])
    ensures Tail(seal, WithLine(s, c, Spoken(seal, s, c, k, n)), c) && Counts(Spoken(seal, s, c, k, n))
  {
    var l, l' := s.lines[c], Spoken(seal, s, c, k, n);
    SpokenEffect(seal, s, c, k, n);
    TailFollows(seal, s, c, k);
    SpokenSeparate(l, l', k, n);
    hide Spoken, HasRecords, Separate, Record;
    assert forall i :: 0 <= i < |l.wire| ==> l'.wire[i].origin == l.wire[i].origin;
  }

  lemma SpokenClear(seal: Cipher, s: State, c: Conn, k: nat, n: nat, j: nat)
    requires Fitting(s, c, k, n) && Tail(seal, s, c) && ClearContent(s.lines[c]) && j < |s.lines[c].clears|
    requires s.lines[c].clears[j].sent <= |s.lines[c].clears[j].bytes|
    ensures var l' := Spoken(seal, s, c, k, n); Of(l'.wire, InClear(j)) == l'.clears[j].bytes[..l'.clears[j].sent]
  {
    var l := s.lines[c];
    var clear := l.clears[k];
    SpokenEffect(seal, s, c, k, n);
    TailFollows(seal, s, c, k);
    PutOf(l.wire, InClear(k), clear.bytes, clear.sent, n, clear.sent > 0, InClear(j));
    hide Spoken, Put, Of, Follows, Tail;
    if j == k {
      Continued(clear.bytes, clear.sent, n);
    } else {
      assert Of(l.wire, InClear(j)) + [] == Of(l.wire, InClear(j));
    }
  }

  lemma SpokenRecords(seal: Cipher, s: State, c: Conn, k: nat, n: nat)
    requires Fitting(s, c, k, n) && Tail(seal, s, c) && RecordContent(seal, s, c)
    ensures RecordContent(seal, WithLine(s, c, Spoken(seal, s, c, k, n)), c)
  {
    hide Spoken, Put, Record, Records, RecordBytes, Follows, Tail, Unsent;
    var l, s' := s.lines[c], WithLine(s, c, Spoken(seal, s, c, k, n));
    var clear := l.clears[k];
    SpokenEffect(seal, s, c, k, n);
    TailFollows(seal, s, c, k);
    PutRecord(l.wire, InClear(k), clear.bytes, clear.sent, n, clear.sent > 0);
    assert Unsent(seal, s', c) == Unsent(seal, s, c) by {
      SpokenUnsent(seal, s, c, k, n);
    }
    assert RecordBytes(l.wire) + [] == RecordBytes(l.wire);
  }

  lemma SpokenUnsent(seal: Cipher, s: State, c: Conn, k: nat, n: nat)
    requires Speaking(s, c, k)
    ensures Unsent(seal, WithLine(s, c, Spoken(seal, s, c, k, n)), c) == Unsent(seal, s, c)
  {
    hide Spoken, Put, Record;
    SpokenEffect(seal, s, c, k, n);
  }

  lemma SpokenContent(seal: Cipher, s: State, c: Conn, k: nat, n: nat)
    requires Fitting(s, c, k, n) && Tail(seal, s, c) && Content(seal, s, c)
    ensures Content(seal, WithLine(s, c, Spoken(seal, s, c, k, n)), c)
  {
    var l' := Spoken(seal, s, c, k, n);
    SpokenEffect(seal, s, c, k, n);
    SpokenRecords(seal, s, c, k, n);
    hide Spoken, Put, Of, Follows, Tail, RecordContent;
    forall j | 0 <= j < |l'.clears| && l'.clears[j].sent <= |l'.clears[j].bytes|
      ensures Of(l'.wire, InClear(j)) == l'.clears[j].bytes[..l'.clears[j].sent]
    {
      SpokenClear(seal, s, c, k, n, j);
    }
  }

  /** If another send is in its middle, it is the last on the wire, and torn by this chunk. */
  lemma OtherMidIsLast(seal: Cipher, s: State, c: Conn, k: nat)
    requires Speaking(s, c, k) && !s.lines[c].broken && Orderly(seal, s, c)
    requires ClearMid(s.lines[c], k) || RecordMid(seal, s, c)
    ensures var ps := s.lines[c].wire; ps != [] && ps[|ps| - 1].origin != InClear(k) && !Complete(ps[|ps| - 1])
  {
    hide Record, Whole;
  }

  /** Otherwise the wire is ready for the chunk. */
  lemma SpeakingReady(seal: Cipher, s: State, c: Conn, k: nat)
    requires Speaking(s, c, k) && !s.lines[c].broken && Orderly(seal, s, c) && Rest(s, c, k) > 0
    requires !ClearMid(s.lines[c], k) && !RecordMid(seal, s, c)
    ensures var l := s.lines[c];
            && Whole(l.wire)
            && if l.clears[k].sent == 0 then l.wire != [] ==> Complete(l.wire[|l.wire| - 1])
               else LastIs(l.wire, ClearPiece(l, k))
  {
    hide Record, Whole, Complete, RecordMid;
  }

  lemma SpokenOrderly(seal: Cipher, s: State, c: Conn, k: nat, n: nat)
    requires Fitting(s, c, k, n) && Orderly(seal, s, c) && !ClearMid(s.lines[c], k) && !RecordMid(seal, s, c)
    ensures Orderly(seal, WithLine(s, c, Spoken(seal, s, c, k, n)), c)
  {
    var l, l' := s.lines[c], Spoken(seal, s, c, k, n);
    SpeakingReady(seal, s, c, k);
    SpokenEffect(seal, s, c, k, n);
    PutWhole(l.wire, InClear(k), l.clears[k].bytes, l.clears[k].sent, n, l.clears[k].sent > 0);
    assert LastIs(l'.wire, ClearPiece(l', k));
    assert forall j :: 0 <= j < |l.clears| && j != k ==> l'.clears[j] == l.clears[j];
    assert !RecordMid(seal, WithLine(s, c, l'), c);
    assert 0 < l'.clears[k].sent < |l'.clears[k].bytes| ==> ClearMid(l', -1);
    hide Spoken, Put, Whole, RecordMid, Record;
  }

  lemma SpokenFits(seal: Cipher, s: State, c: Conn, k: nat, n: nat)
    requires Fitting(s, c, k, n) && Fits(seal, s, c)
    ensures Fits(seal, WithLine(s, c, Spoken(seal, s, c, k, n)), c)
  {
    var l := s.lines[c];
    var clear := l.clears[k];
    if l.tangled {
      StaysTorn(l.wire, InClear(k), clear.bytes, clear.sent, n, clear.sent > 0);
    } else if ClearMid(l, k) || RecordMid(seal, s, c) {
      OtherMidIsLast(seal, s, c, k);
      PutTorn(l.wire, InClear(k), clear.bytes, clear.sent, n, clear.sent > 0);
    } else {
      SpokenOrderly(seal, s, c, k, n);
    }
    hide Put, ClearMid, RecordMid, Torn, Orderly, Record;
  }

  lemma SpokenFine(seal: Cipher, s: State, c: Conn, k: nat, n: nat)
    requires Fitting(s, c, k, n) && Fine(seal, s, c)
    ensures Fine(seal, WithLine(s, c, Spoken(seal, s, c, k, n)), c)
  {
    hide Spoken, Put, Tail, Counts, Content, Fits, Separate, HasRecords;
    assert Fits(seal, s, c) && Tail(seal, s, c) && Counts(s.lines[c]) && Content(seal, s, c);
    SpokenTail(seal, s, c, k, n);
    SpokenContent(seal, s, c, k, n);
    SpokenFits(seal, s, c, k, n);
    SpokenEffect(seal, s, c, k, n);
    SpokenSeparate(s.lines[c], Spoken(seal, s, c, k, n), k, n);
  }

  // ---- a chunk of a record ----

  predicate Enough(seal: Cipher, s: State, n: nat) {
    && Sealing(s) && !s.lines[s.holder.value.conn].broken
    && 0 < n <= |LastRecord(seal, s.holder.value.conn, s.lines[s.holder.value.conn])| - s.holder.value.sent
  }

  function Advanced(seal: Cipher, s: State, n: nat): State
    requires Sealing(s)
  {
    WithLine(s, s.holder.value.conn, Recorded(seal, s, n)).(holder := Some(s.holder.value.(sent := s.holder.value.sent + n)))
  }

  lemma RecordedEffect(seal: Cipher, s: State, n: nat)
    requires Sealing(s)
    ensures var c, sent := s.holder.value.conn, s.holder.value.sent;
            var l, l' := s.lines[c], Recorded(seal, s, n);
            && l' == l.(wire := l'.wire, tangled := l'.tangled, early := l.early || Unfinished(l))
            && l'.wire == Put(l.wire, OfRecord(|l.sealed| - 1), LastRecord(seal, c, l), sent, n, sent > 0)
            && LastRecord(seal, c, l') == LastRecord(seal, c, l)
  {
    hide Put, ClearMid, Unfinished, Record;
  }

  lemma RecordFollows(seal: Cipher, s: State)
    requires Sealing(s) && Tail(seal, s, s.holder.value.conn)
    ensures var c, sent := s.holder.value.conn, s.holder.value.sent;
            var l := s.lines[c];
            Follows(l.wire, OfRecord(|l.sealed| - 1), LastRecord(seal, c, l), sent, sent > 0)
  {
    hide Record;
  }

  lemma RecordedTail(seal: Cipher, s: State, n: nat)
    requires Enough(seal, s, n) && Tail(seal, s, s.holder.value.conn) && Counts(s.lines[s.holder.value.conn])
    ensures Tail(seal, Advanced(seal, s, n), s.holder.value.conn) && Counts(Recorded(seal, s, n))
  {
    RecordedEffect(seal, s, n);
    RecordFollows(seal, s);
    hide Recorded, Record, HasRecords;
    var c := s.holder.value.conn;
    var l, l' := s.lines[c], Recorded(seal, s, n);
    assert forall i :: 0 <= i < |l.wire| ==> l'.wire[i].origin == l.wire[i].origin;
  }

  lemma RecordedClear(seal: Cipher, s: State, n: nat)
    requires Enough(seal, s, n) && Tail(seal, s, s.holder.value.conn) && ClearContent(s.lines[s.holder.value.conn])
    ensures ClearContent(Recorded(seal, s, n))
  {
    var c, sent := s.holder.value.conn, s.holder.value.sent;
    var l, l' := s.lines[c], Recorded(seal, s, n);
    RecordedEffect(seal, s, n);
    RecordFollows(seal, s);
    hide Recorded, Put, Of, Follows, Tail, Record;
    forall j | 0 <= j < |l.clears|
      ensures Of(l'.wire, InClear(j)) == Of(l.wire, InClear(j))
    {
      PutOf(l.wire, OfRecord(|l.sealed| - 1), LastRecord(seal, c, l), sent, n, sent > 0, InClear(j));
      assert Of(l.wire, InClear(j)) + [] == Of(l.wire, InClear(j));
    }
  }

  lemma RecordedRecords(seal: Cipher, s: State, n: nat)
    requires Enough(seal, s, n) && Tail(seal, s, s.holder.value.conn) && RecordContent(seal, s, s.holder.value.conn)
    ensures RecordContent(seal, Advanced(seal, s, n), s.holder.value.conn)
  {
    hide Recorded, Put, Record, Records, RecordBytes, Follows, Tail, Unsent;
    var c, sent := s.holder.value.conn, s.holder.value.sent;
    var l := s.lines[c];
    var bytes := LastRecord(seal, c, l);
    RecordedEffect(seal, s, n);
    RecordFollows(seal, s);
    PutRecord(l.wire, OfRecord(|l.sealed| - 1), bytes, sent, n, sent > 0);
    UnsentMoves(seal, s, n);
    ConcatAssociative(RecordBytes(l.wire), bytes[sent..sent + n], bytes[sent + n..]);
  }

  lemma UnsentMoves(seal: Cipher, s: State, n: nat)
    requires Enough(seal, s, n)
    ensures var c, sent := s.holder.value.conn, s.holder.value.sent;
            var bytes := LastRecord(seal, c, s.lines[c]);
            && Unsent(seal, s, c) == bytes[sent..sent + n] + bytes[sent + n..]
            && Unsent(seal, Advanced(seal, s, n), c) == bytes[sent + n..]
  {
    hide Recorded, Record;
    RecordedEffect(seal, s, n);
  }

  lemma ClearMidIsLast(seal: Cipher, s: State, c: Conn)
    requires c in s.lines && !s.lines[c].broken && Orderly(seal, s, c) && ClearMid(s.lines[c], -1)
    ensures var ps := s.lines[c].wire; ps != [] && ps[|ps| - 1].origin.InClear? && !Complete(ps[|ps| - 1])
  {
    hide Record, Whole, RecordMid;
  }

  lemma SealingReady(seal: Cipher, s: State, n: nat)
    requires Enough(seal, s, n) && Orderly(seal, s, s.holder.value.conn) && !ClearMid(s.lines[s.holder.value.conn], -1)
    ensures var l := s.lines[s.holder.value.conn];
            && Whole(l.wire)
            && if s.holder.value.sent == 0 then l.wire != [] ==> Complete(l.wire[|l.wire| - 1])
               else LastIs(l.wire, RecordPiece(seal, s))
  {
    hide Record, Whole, Complete, ClearMid;
  }

  lemma RecordedOrderly(seal: Cipher, s: State, n: nat)
    requires Enough(seal, s, n) && Orderly(seal, s, s.holder.value.conn) && !ClearMid(s.lines[s.holder.value.conn], -1)
    ensures Orderly(seal, Advanced(seal, s, n), s.holder.value.conn)
  {
    var c, sent := s.holder.value.conn, s.holder.value.sent;
    var l, l', s' := s.lines[c], Recorded(seal, s, n), Advanced(seal, s, n);
    SealingReady(seal, s, n);
    RecordedEffect(seal, s, n);
    hide Recorded, Record;
    PutWhole(l.wire, OfRecord(|l.sealed| - 1), LastRecord(seal, c, l), sent, n, sent > 0);
    assert LastIs(l'.wire, RecordPiece(seal, s'));
    assert !ClearMid(l', -1);
    assert forall k :: 0 <= k < |l'.clears| ==> !(0 < l'.clears[k].sent < |l'.clears[k].bytes|);
    hide Put, Whole, ClearMid;
  }

  lemma RecordedFits(seal: Cipher, s: State, n: nat)
    requires Enough(seal, s, n) && Fits(seal, s, s.holder.value.conn)
    ensures Fits(seal, Advanced(seal, s, n), s.holder.value.conn)
  {
    var c, sent := s.holder.value.conn, s.holder.value.sent;
    var l := s.lines[c];
    var origin, bytes := OfRecord(|l.sealed| - 1), LastRecord(seal, c, l);
    if l.tangled {
      StaysTorn(l.wire, origin, bytes, sent, n, sent > 0);
    } else if ClearMid(l, -1) {
      ClearMidIsLast(seal, s, c);
      PutTorn(l.wire, origin, bytes, sent, n, sent > 0);
    } else {
      RecordedOrderly(seal, s, n);
    }
    hide Put, ClearMid, Torn, Orderly, Record, Unfinished;
  }

  lemma RecordedFine(seal: Cipher, s: State, n: nat)
    requires Enough(seal, s, n) && Fine(seal, s, s.holder.value.conn)
    ensures Fine(seal, Advanced(seal, s, n), s.holder.value.conn)
  {
    var c, sent := s.holder.value.conn, s.holder.value.sent;
    var l := s.lines[c];
    hide Recorded, Put, Tail, Counts, ClearContent, RecordContent, Fits, Separate, HasRecords, Unfinished, Record;
    RecordedTail(seal, s, n);
    RecordedClear(seal, s, n);
    RecordedRecords(seal, s, n);
    RecordedFits(seal, s, n);
    RecordedEffect(seal, s, n);
    RecordedSeparate(l, Recorded(seal, s, n), |l.sealed| - 1, LastRecord(seal, c, l), sent, n);
  }

  // ---- every step keeps the invariant ----

  lemma WithLineFine(seal: Cipher, s: State, d: Conn, l: Line, c: Conn)
    requires c in s.lines && d in s.lines && Fine(seal, s, c) && (c == d ==> Fine(seal, WithLine(s, d, l), c))
    ensures Fine(seal, WithLine(s, d, l), c)
  {
    hide Fine;
    if c != d {
      SameFine(seal, s, WithLine(s, d, l), c);
    }
  }

  lemma OpenFine(seal: Cipher, s: State, d: Conn, c: Conn)
    requires Holds(seal, s) && d !in s.lines && (c in s.lines ==> Fine(seal, s, c)) && (c in s.lines || c == d)
    ensures Fine(seal, WithLine(s, d, NewLine), c)
  {
    hide Fine;
    if c == d {
      FreshFine(seal, s, c);
    } else {
      SameFine(seal, s, WithLine(s, d, NewLine), c);
    }
  }

  /** Threads' own bookkeeping does not matter to a connection. */
  lemma ForgotFine(seal: Cipher, s: State, s': State, c: Conn)
    requires c in s.lines && s'.lines == s.lines && s'.holder == s.holder && Fine(seal, s, c)
    ensures Fine(seal, s', c)
  {
    hide Fine;
    SameFine(seal, s, s', c);
  }

  lemma ChunkFine(seal: Cipher, s: State, n: nat, c: Conn)
    requires Enough(seal, s, n) && c in s.lines && Fine(seal, s, c)
    ensures Fine(seal, Advanced(seal, s, n), c)
  {
    hide Fine, Recorded;
    if c == s.holder.value.conn {
      RecordedFine(seal, s, n);
    } else {
      SameFine(seal, s, Advanced(seal, s, n), c);
    }
  }

  /** The end of a record, after a failure or when it has been sent. */
  lemma DoneFine(seal: Cipher, s: State, failed: bool, c: Conn)
    requires Holds(seal, s) && Sealing(s) && c in s.lines && Fine(seal, s, c)
    requires failed || s.holder.value.sent == |LastRecord(seal, s.holder.value.conn, s.lines[s.holder.value.conn])|
    ensures var d := s.holder.value.conn;
            var l := if failed then Fail(s.lines[d]) else s.lines[d];
            Fine(seal, WithLine(s, d, l).(holder := None), c)
  {
    hide Fine, Record;
    var d := s.holder.value.conn;
    var s' := WithLine(s, d, if failed then Fail(s.lines[d]) else s.lines[d]).(holder := None);
    EndedFine(seal, s, s', c);
  }

  lemma ChunkInClearFine(seal: Cipher, s: State, d: Conn, k: nat, n: nat, c: Conn)
    requires Fitting(s, d, k, n) && c in s.lines && Fine(seal, s, c)
    ensures Fine(seal, WithLine(s, d, Spoken(seal, s, d, k, n)), c)
  {
    hide Fine, Spoken;
    if c == d {
      SpokenFine(seal, s, c, k, n);
    }
    WithLineFine(seal, s, d, Spoken(seal, s, d, k, n), c);
  }

  lemma HandlerStepFine(p: Programs, seal: Cipher, s: State, step: Step, c: Conn)
    requires Holds(seal, s) && Enabled(p, seal, s, step) && c in s.lines && Fine(seal, s, c)
    requires step.Handshake? || step.ReplyChunk? || step.ReplyFails? || step.ReplyEnd? || step.Close?
    ensures c in Next(p, seal, s, step).lines && Fine(seal, Next(p, seal, s, step), c)
  {
    hide Fine, Holds, Record, Spoken, Answered;
    match step
    case Handshake(d, reply, done) =>
      if c == d {
        AnsweredFine(seal, s, c, reply, done);
      }
      WithLineFine(seal, s, d, Answered(s.lines[d], reply, done), c);
    case ReplyChunk(d, n) => ChunkInClearFine(seal, s, d, s.lines[d].reply.value, n, c);
    case ReplyFails(d) => EndedFine(seal, s, Next(p, seal, s, step), c);
    case ReplyEnd(d) => EndedFine(seal, s, Next(p, seal, s, step), c);
    case Close(d) => EndedFine(seal, s, Next(p, seal, s, step), c);
  }

  lemma ThreadStepFine(p: Programs, seal: Cipher, s: State, step: Step, c: Conn)
    requires Holds(seal, s) && Enabled(p, seal, s, step) && c in s.lines && Fine(seal, s, c)
    requires step.Begin? || step.PlainChunk? || step.PlainFails? || step.PlainEnd?
    ensures c in Next(p, seal, s, step).lines && Fine(seal, Next(p, seal, s, step), c)
  {
    hide Fine, Holds, Record, Spoken, Decide;
    match step
    case Begin(t) => BegunFine(seal, s, t, p[t][Begun(s, t)].0, p[t][Begun(s, t)].1, c);
    case PlainChunk(t, n) => ChunkInClearFine(seal, s, s.plain[t].0, s.plain[t].1, n, c);
    case PlainFails(t) => EndedFine(seal, s, Next(p, seal, s, step), c);
    case PlainEnd(t) => ForgotFine(seal, s, Next(p, seal, s, step), c);
  }

  lemma RecordStepFine(p: Programs, seal: Cipher, s: State, step: Step, c: Conn)
    requires Holds(seal, s) && Enabled(p, seal, s, step) && c in s.lines && Fine(seal, s, c)
    requires step.Chunk? || step.SendFails? || step.Release?
    ensures c in Next(p, seal, s, step).lines && Fine(seal, Next(p, seal, s, step), c)
  {
    hide Fine, Holds, Record, Recorded;
    match step
    case Chunk(n) => ChunkFine(seal, s, n, c);
    case SendFails => DoneFine(seal, s, true, c);
    case Release =>
      DoneFine(seal, s, false, c);
      assert s.lines[s.holder.value.conn := s.lines[s.holder.value.conn]] == s.lines;
  }

  lemma OldConnection(p: Programs, seal: Cipher, s: State, step: Step, c: Conn)
    requires Enabled(p, seal, s, step) && c in Next(p, seal, s, step).lines && step != Open(c) && Holds(seal, s)
    ensures c in s.lines
  {
    hide Record, Spoken, Recorded, Answered, EncodeLE;
  }

  lemma FineKept(p: Programs, seal: Cipher, s: State, step: Step, c: Conn)
    requires Inv(seal, s) && Enabled(p, seal, s, step) && c in Next(p, seal, s, step).lines
    ensures Fine(seal, Next(p, seal, s, step), c)
  {
    assert c in s.lines ==> Fine(seal, s, c);
    hide Fine, Holds;
    if step != Open(c) {
      OldConnection(p, seal, s, step, c);
    }
    match step
    case Open(d) => OpenFine(seal, s, d, c);
    case Handshake(_, _, _) => HandlerStepFine(p, seal, s, step, c);
    case ReplyChunk(_, _) => HandlerStepFine(p, seal, s, step, c);
    case ReplyFails(_) => HandlerStepFine(p, seal, s, step, c);
    case ReplyEnd(_) => HandlerStepFine(p, seal, s, step, c);
    case Close(_) => HandlerStepFine(p, seal, s, step, c);
    case Chunk(_) => RecordStepFine(p, seal, s, step, c);
    case SendFails => RecordStepFine(p, seal, s, step, c);
    case Release => RecordStepFine(p, seal, s, step, c);
    case _ => ThreadStepFine(p, seal, s, step, c);
  }

  /** Sends in the clear are not forgotten. */
  lemma ClearsGrow(p: Programs, seal: Cipher, s: State, step: Step, c: Conn)
    requires Holds(seal, s) && Enabled(p, seal, s, step) && c in s.lines
    ensures c in Next(p, seal, s, step).lines && |s.lines[c].clears| <= |Next(p, seal, s, step).lines[c].clears|
  {
    hide Record, Put, ClearMid, RecordMid, Unfinished, EncodeLE;
  }

  /** Sends that threads are in stay known. */
  lemma PlainKept(p: Programs, seal: Cipher, s: State, step: Step)
    requires Holds(seal, s) && Enabled(p, seal, s, step)
    ensures var s' := Next(p, seal, s, step); forall t :: t in s'.plain ==> Speaking(s', s'.plain[t].0, s'.plain[t].1)
  {
    var s' := Next(p, seal, s, step);
    forall t | t in s'.plain
      ensures Speaking(s', s'.plain[t].0, s'.plain[t].1)
    {
      if t in s.plain && s'.plain[t] == s.plain[t] {
        assert Speaking(s, s.plain[t].0, s.plain[t].1);
        ClearsGrow(p, seal, s, step, s.plain[t].0);
      }
    }
    hide Record, Put, ClearMid, RecordMid, Unfinished, EncodeLE, Spoken, Recorded, Holds;
  }

  /** The record being sent fits. */
  lemma HolderKept(p: Programs, seal: Cipher, s: State, step: Step)
    requires Holds(seal, s) && Enabled(p, seal, s, step) && Next(p, seal, s, step).holder.Some?
    ensures var s' := Next(p, seal, s, step);
            && Sealing(s') && s'.lines[s'.holder.value.conn].secured
            && s'.holder.value.sent <= |LastRecord(seal, s'.holder.value.conn, s'.lines[s'.holder.value.conn])|
  {
    hide Record, Put, ClearMid, RecordMid, Unfinished, EncodeLE;
  }

  lemma HoldsKept(p: Programs, seal: Cipher, s: State, step: Step)
    requires Holds(seal, s) && Enabled(p, seal, s, step)
    ensures Holds(seal, Next(p, seal, s, step))
  {
    hide Next, Enabled, Record;
    PlainKept(p, seal, s, step);
    if Next(p, seal, s, step).holder.Some? {
      HolderKept(p, seal, s, step);
    }
  }

  lemma InvKept(p: Programs, seal: Cipher, s: State, step: Step)
    requires Inv(seal, s) && Enabled(p, seal, s, step)
    ensures Inv(seal, Next(p, seal, s, step))
  {
    hide Fine, Holds, Next, Enabled;
    HoldsKept(p, seal, s, step);
    forall c | c in Next(p, seal, s, step).lines
      ensures Fine(seal, Next(p, seal, s, step), c)
    {
      FineKept(p, seal, s, step, c);
    }
  }

  lemma {:induction false} InvReached(p: Programs, seal: Cipher, s: State, steps: seq<Step>)
    requires Inv(seal, s) && Possible(p, seal, s, steps)
    ensures Inv(seal, After(p, seal, s, steps))
    decreases |steps|
  {
    if steps != [] {
      hide Inv, Enabled, Next;
      InvKept(p, seal, s, steps[0]);
      InvReached(p, seal, Next(p, seal, s, steps[0]), steps[1..]);
    }
  }

  lemma InvInitially(seal: Cipher)
    ensures Inv(seal, Init)
  {
  }

  // ---- theorem ----

  lemma ClearFirstInit(ps: seq<Piece<Origin>>)
    requires ClearFirst(ps) && ps != []
    ensures ClearFirst(ps[..|ps| - 1])
    ensures HasRecords(ps[..|ps| - 1]) ==> ps[|ps| - 1].origin.OfRecord? && HasRecords(ps)
    ensures !HasRecords(ps) ==> !ps[|ps| - 1].origin.OfRecord? && !HasRecords(ps[..|ps| - 1])
  {
    var init, last := ps[..|ps| - 1], ps[|ps| - 1];
    assert forall i :: 0 <= i < |init| ==> init[i] == ps[i];
    if HasRecords(init) {
      var i :| 0 <= i < |init| && init[i].origin.OfRecord?;
      assert ps[i].origin.OfRecord?;
    }
  }

  lemma {:induction false} InTwoParts(ps: seq<Piece<Origin>>)
    requires ClearFirst(ps)
    ensures Bytes(ps) == ClearBytes(ps) + RecordBytes(ps)
    ensures !HasRecords(ps) ==> RecordBytes(ps) == []
  {
    hide ClearFirst, HasRecords, Bytes, ClearBytes, RecordBytes;
    if ps == [] {
      NoPieces();
    } else {
      var init, last := ps[..|ps| - 1], ps[|ps| - 1];
      assert init + [last] == ps;
      ClearFirstInit(ps);
      InTwoParts(init);
      if HasRecords(init) {
        LastIsRecord(init, last);
      } else {
        LastIsNew(init, last);
      }
    }
  }

  lemma NoPieces()
    ensures Bytes<Origin>([]) == [] && ClearBytes([]) == [] && RecordBytes([]) == []
  {
  }

  lemma LastIsRecord(init: seq<Piece<Origin>>, last: Piece<Origin>)
    requires Bytes(init) == ClearBytes(init) + RecordBytes(init) && last.origin.OfRecord?
    ensures Bytes(init + [last]) == ClearBytes(init + [last]) + RecordBytes(init + [last])
  {
    OneMore(init, last);
    OfOneMore(init, last, last.origin);
    hide Bytes, BytesOf, ClearBytes, RecordBytes;
    ConcatAssociative(ClearBytes(init), RecordBytes(init), BytesOf(last));
    assert ClearBytes(init) + [] == ClearBytes(init);
  }

  lemma LastIsNew(init: seq<Piece<Origin>>, last: Piece<Origin>)
    requires Bytes(init) == ClearBytes(init) + RecordBytes(init) && RecordBytes(init) == []
    ensures Bytes(init + [last]) == ClearBytes(init + [last]) + RecordBytes(init + [last])
    ensures !last.origin.OfRecord? ==> RecordBytes(init + [last]) == []
  {
    OneMore(init, last);
    OfOneMore(init, last, last.origin);
    hide Bytes, BytesOf, ClearBytes, RecordBytes;
    assert ClearBytes(init) + [] == ClearBytes(init);
  }

  /**
    * What is on the wire of a Qt client, in every run. The bytes of its records are those the session produced, in the
    * order they were encrypted, the n-th under sequence number n, which is how the peer counts them; missing is only
    * the rest of the one being sent, or after a failed send an end. The bytes of each send in the clear are there in
    * order and once. Exactly when no bytes of one send were accepted in the middle of another, all packets are whole.
    * Exactly when no byte of a record was accepted while a message or a reply decided on in the clear was unfinished,
    * everything in the clear comes first and the records after all of it.
    */
  lemma RecordsArriveInOrder(p: Programs, seal: Cipher, steps: seq<Step>, c: Conn)
    requires Possible(p, seal, Init, steps) && c in After(p, seal, Init, steps).lines
    ensures var s := After(p, seal, Init, steps);
            var l := s.lines[c];
            && (!l.broken ==> RecordBytes(l.wire) + Unsent(seal, s, c) == Records(seal, c, l.sealed))
            && RecordBytes(l.wire) <= Records(seal, c, l.sealed)
            && (forall k :: 0 <= k < |l.clears| ==>
                  l.clears[k].sent <= |l.clears[k].bytes| && Of(l.wire, InClear(k)) == l.clears[k].bytes[..l.clears[k].sent])
            && (Whole(l.wire) <==> !l.tangled)
            && (Separate(l) <==> !l.early)
            && (!l.early ==> Bytes(l.wire) == ClearBytes(l.wire) + RecordBytes(l.wire))
            && (!l.early && !l.broken && s.holder.None? ==>
                  Bytes(l.wire) == ClearBytes(l.wire) + Records(seal, c, l.sealed))
  {
    InvInitially(seal);
    InvReached(p, seal, Init, steps);
    hide Possible, After, Holds, Tail, Bytes, ClearBytes, RecordBytes, Records, Of, Whole, ClearFirst, HasRecords, Unfinished, Record;
    var s := After(p, seal, Init, steps);
    var l := s.lines[c];
    assert Fine(seal, s, c);
    WholeIsNotTorn(l.wire);
    RecordsMean(seal, s, c);
    if !l.early {
      InTwoParts(l.wire);
    }
  }

  lemma RecordsMean(seal: Cipher, s: State, c: Conn)
    requires c in s.lines && RecordContent(seal, s, c)
    ensures RecordBytes(s.lines[c].wire) <= Records(seal, c, s.lines[c].sealed)
    ensures !s.lines[c].broken && s.holder.None? ==> RecordBytes(s.lines[c].wire) == Records(seal, c, s.lines[c].sealed)
  {
    hide Records, RecordBytes;
    assert RecordBytes(s.lines[c].wire) <= RecordBytes(s.lines[c].wire) + Unsent(seal, s, c);
    assert RecordBytes(s.lines[c].wire) + [] == RecordBytes(s.lines[c].wire);
  }
}
