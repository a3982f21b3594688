/** Runs in which what a Qt client gets is out of order or mixed up. */
module TlsExamples {
  import opened Common
  import opened Wire
  import opened Pieces
  import opened TlsOrder

  lemma {:induction false} Extend(p: Programs, seal: Cipher, s: State, steps: seq<Step>, step: Step)
    requires Possible(p, seal, s, steps) && Enabled(p, seal, After(p, seal, s, steps), step)
    ensures Possible(p, seal, s, steps + [step])
    ensures After(p, seal, s, steps + [step]) == Next(p, seal, After(p, seal, s, steps), step)
    decreases |steps|
  {
    hide Enabled, Next;
    if steps == [] {
      assert steps + [step] == [step];
      assert Possible(p, seal, Next(p, seal, s, step), []);
    } else {
      Extend(p, seal, Next(p, seal, s, steps[0]), steps[1..], step);
      assert (steps + [step])[0] == steps[0] && (steps + [step])[1..] == steps[1..] + [step];
    }
  }

  ghost predicate Reached(p: Programs, seal: Cipher, s: State) {
    exists steps :: Possible(p, seal, Init, steps) && After(p, seal, Init, steps) == s
  }

  /** One step further. */
  lemma Onward(p: Programs, seal: Cipher, s: State, step: Step, s': State)
    requires Reached(p, seal, s) && Enabled(p, seal, s, step) && Next(p, seal, s, step) == s'
    ensures Reached(p, seal, s')
  {
    hide Enabled, Next;
    var steps :| Possible(p, seal, Init, steps) && After(p, seal, Init, steps) == s;
    Extend(p, seal, Init, steps, step);
  }

  lemma StartReached(p: Programs, seal: Cipher)
    ensures Reached(p, seal, Init)
  {
    assert Possible(p, seal, Init, []) && After(p, seal, Init, []) == Init;
  }

  function Packet(reply: seq<byte>): seq<byte> {
    EncodeLE(Frame(HANDSHAKE, reply, []))
  }

  lemma PacketLength(f: Frame)
    ensures |EncodeLE(f)| == 5 + |f.body| + |f.tail|
  {
  }

  // ---- a broadcast between the completion of the handshake and its last reply ----

  /** Thread 0 broadcasts one message to connection 0. */
  function One(m: Message): Programs { map[0 := [(0, m)]] }

  /** The handshake is complete, its last reply not yet sent. */
  function Completed(reply: seq<byte>): Line {
    NewLine.(clears := [Clear(Packet(reply), 0)], reply := Some(0), secured := true)
  }

  lemma CompletedReached(p: Programs, seal: Cipher, reply: seq<byte>)
    requires reply != []
    ensures Reached(p, seal, Init.(lines := map[0 := Completed(reply)]))
  {
    hide Reached;
    StartReached(p, seal);
    hide EncodeLE;
    var s := Init.(lines := map[0 := NewLine]);
    Onward(p, seal, Init, Open(0), s);
    assert NewLine.clears + [Clear(Packet(reply), 0)] == [Clear(Packet(reply), 0)];
    Onward(p, seal, s, Handshake(0, reply, true), Init.(lines := map[0 := Completed(reply)]));
  }

  /** The record of the broadcast has been sent. */
  function Overtaken(seal: Cipher, m: Message, reply: seq<byte>): Line {
    var record := Record(seal, 0, 0, m);
    Completed(reply).(wire := [Piece(OfRecord(0), record, 0, |record|)], sealed := [m], early := true)
  }

  lemma OvertakenReached(seal: Cipher, m: Message, reply: seq<byte>)
    requires reply != [] && seal(0, 0, m.text) != []
    ensures Reached(One(m), seal, State(map[0 := Overtaken(seal, m, reply)], None, map[], map[0 := 1]))
  {
    hide Reached;
    var p, record := One(m), Record(seal, 0, 0, m);
    CompletedReached(p, seal, reply);
    PacketLength(Frame(HANDSHAKE, reply, []));
    assert |record| >= 5;
    hide EncodeLE, Record;
    var s0 := Init.(lines := map[0 := Completed(reply)]);
    var l1 := Completed(reply).(sealed := [m]);
    var s1 := State(map[0 := l1], Some(Holder(0, 0)), map[], map[0 := 1]);
    assert Completed(reply).sealed + [m] == [m];
    Onward(p, seal, s0, Begin(0), s1);
    var s2 := State(map[0 := Overtaken(seal, m, reply)], Some(Holder(0, |record|)), map[], map[0 := 1]);
    assert Put([], OfRecord(0), record, 0, |record|, false) == [Piece(OfRecord(0), record, 0, |record|)];
    assert Unfinished(l1) by {
      assert l1.clears[0].sent < |l1.clears[0].bytes|;
    }
    assert !ClearMid(l1, -1);
    assert LastRecord(seal, 0, l1) == record;
    hide Unfinished, ClearMid;
    Onward(p, seal, s1, Chunk(|record|), s2);
    Onward(p, seal, s2, Release, State(map[0 := Overtaken(seal, m, reply)], None, map[], map[0 := 1]));
  }

  /**
    * The handshake is complete as soon as its last packet has been processed, but the reply to it is sent after
    * the mutex has been released: a broadcast can be sent in between, and then its record arrives first.
    */
  lemma ReplyOvertaken(seal: Cipher, m: Message, reply: seq<byte>)
    requires reply != [] && seal(0, 0, m.text) != []
    ensures exists s :: Reached(One(m), seal, s) && 0 in s.lines
              && var l := s.lines[0];
                 && l.secured && l.early && !l.tangled && !l.broken && s.holder.None? && l.reply.None? && !Unfinished(l)
                 && Bytes(l.wire) == Record(seal, 0, 0, m) + Packet(reply)
  {
    hide Reached;
    var p, record, packet := One(m), Record(seal, 0, 0, m), Packet(reply);
    OvertakenReached(seal, m, reply);
    PacketLength(Frame(HANDSHAKE, reply, []));
    hide EncodeLE, Record;
    var l0 := Overtaken(seal, m, reply);
    var s0 := State(map[0 := l0], None, map[], map[0 := 1]);
    var wire := [Piece(OfRecord(0), record, 0, |record|), Piece(InClear(0), packet, 0, |packet|)];
    var l1 := l0.(wire := wire, clears := [Clear(packet, |packet|)]);
    assert Put(l0.wire, InClear(0), packet, 0, |packet|, false) == wire;
    assert l0.clears[0 := Clear(packet, |packet|)] == l1.clears;
    assert !ClearMid(l0, 0);
    Onward(p, seal, s0, ReplyChunk(0, |packet|), s0.(lines := map[0 := l1]));
    Onward(p, seal, s0.(lines := map[0 := l1]), ReplyEnd(0), s0.(lines := map[0 := l1.(reply := None)]));
    TwoPieces(wire[0], wire[1]);
    assert record[0..|record|] == record && packet[0..|packet|] == packet;
  }

  lemma TwoPieces(a: Piece<Origin>, b: Piece<Origin>)
    ensures Bytes([a, b]) == BytesOf(a) + BytesOf(b)
  {
    var none: seq<Piece<Origin>> := [];
    OfOneMore(none, a, a.origin);
    OfOneMore([a], b, b.origin);
    assert none + [a] == [a] && [a] + [b] == [a, b];
    hide BytesOf;
    assert [] + BytesOf(a) == BytesOf(a);
  }

  // ---- a broadcast in the clear that is still going on when the handshake is complete ----

  /** Thread 0 broadcasts one message to connection 0, thread 1 answers a request of it. */
  function Two(m: Message, answer: Message): Programs { map[0 := [(0, m)], 1 := [(0, answer)]] }

  function InPlain(m: Message): seq<byte> {
    EncodeLE(Frame(m.kind, m.text, m.jpeg))
  }

  /** The broadcast has sent the header of its message in the clear. */
  function HalfPlain(m: Message): State {
    State(map[0 := NewLine.(wire := [Piece(InClear(0), InPlain(m), 0, 5)], clears := [Clear(InPlain(m), 5)])], None,
          map[0 := (0, 0)], map[0 := 1])
  }

  lemma HalfPlainReached(seal: Cipher, m: Message, answer: Message)
    requires m.text != []
    ensures Reached(Two(m, answer), seal, HalfPlain(m))
  {
    hide Reached;
    var p, bytes := Two(m, answer), InPlain(m);
    StartReached(p, seal);
    PacketLength(Frame(m.kind, m.text, m.jpeg));
    hide EncodeLE;
    var s1 := Init.(lines := map[0 := NewLine]);
    Onward(p, seal, Init, Open(0), s1);
    var s2 := State(map[0 := NewLine.(clears := [Clear(bytes, 0)])], None, map[0 := (0, 0)], map[0 := 1]);
    assert NewLine.clears + [Clear(bytes, 0)] == [Clear(bytes, 0)];
    Onward(p, seal, s1, Begin(0), s2);
    assert Put([], InClear(0), bytes, 0, 5, false) == [Piece(InClear(0), bytes, 0, 5)];
    assert s2.lines[0].clears[0 := Clear(bytes, 5)] == [Clear(bytes, 5)];
    Onward(p, seal, s2, PlainChunk(0, 5), HalfPlain(m));
  }

  /** The handshake has been completed without a further reply, and the answer to a first request encrypted. */
  function Answering(m: Message, answer: Message, wire: seq<Piece<Origin>>, plain: nat, sent: nat, mixed: bool): State {
    State(map[0 := NewLine.(wire := wire, clears := [Clear(InPlain(m), plain)], secured := true, sealed := [answer],
                            tangled := mixed, early := mixed)],
          Some(Holder(0, sent)), map[0 := (0, 0)], map[0 := 1, 1 := 1])
  }

  lemma AnsweringReached(seal: Cipher, m: Message, answer: Message)
    requires m.text != [] && seal(0, 0, answer.text) != []
    ensures Reached(Two(m, answer), seal, Answering(m, answer, [Piece(InClear(0), InPlain(m), 0, 5)], 5, 0, false))
  {
    hide Reached;
    var p := Two(m, answer);
    HalfPlainReached(seal, m, answer);
    hide EncodeLE;
    var s0 := HalfPlain(m);
    var s1 := s0.(lines := map[0 := s0.lines[0].(secured := true)]);
    Onward(p, seal, s0, Handshake(0, [], true), s1);
    assert s1.lines[0].sealed + [answer] == [answer];
    Onward(p, seal, s1, Begin(1), Answering(m, answer, [Piece(InClear(0), InPlain(m), 0, 5)], 5, 0, false));
  }

  /** The header of the record, the rest of the message in the clear, the rest of the record. */
  function Torn4(m: Message, record: seq<byte>): seq<Piece<Origin>> {
    var bytes := InPlain(m);
    [Piece(InClear(0), bytes, 0, 5), Piece(OfRecord(0), record, 0, 5), Piece(InClear(0), bytes, 5, |bytes|),
     Piece(OfRecord(0), record, 5, |record|)]
  }

  lemma HeaderReached(seal: Cipher, m: Message, answer: Message)
    requires m.text != [] && seal(0, 0, answer.text) != []
    ensures Reached(Two(m, answer), seal, Answering(m, answer, Torn4(m, Record(seal, 0, 0, answer))[..2], 5, 5, true))
  {
    hide Reached;
    var p, record := Two(m, answer), Record(seal, 0, 0, answer);
    AnsweringReached(seal, m, answer);
    PacketLength(Frame(m.kind, m.text, m.jpeg));
    PacketLength(Frame(answer.kind, seal(0, 0, answer.text), answer.jpeg));
    var s0 := Answering(m, answer, [Piece(InClear(0), InPlain(m), 0, 5)], 5, 0, false);
    var l0 := s0.lines[0];
    hide EncodeLE;
    assert LastRecord(seal, 0, l0) == record;
    hide Record;
    assert ClearMid(l0, -1) && Unfinished(l0) by {
      assert 0 < l0.clears[0].sent < |l0.clears[0].bytes|;
    }
    hide ClearMid, Unfinished;
    assert Put(l0.wire, OfRecord(0), record, 0, 5, false) == Torn4(m, record)[..2];
    Onward(p, seal, s0, Chunk(5), Answering(m, answer, Torn4(m, record)[..2], 5, 5, true));
  }

  lemma RestReached(seal: Cipher, m: Message, answer: Message)
    requires m.text != [] && seal(0, 0, answer.text) != []
    ensures Reached(Two(m, answer), seal, Answering(m, answer, Torn4(m, Record(seal, 0, 0, answer))[..3], |InPlain(m)|, 5, true))
  {
    hide Reached;
    var p, record, bytes := Two(m, answer), Record(seal, 0, 0, answer), InPlain(m);
    hide EncodeLE, Record, ClearMid, Unfinished, RecordMid;
    HeaderReached(seal, m, answer);
    PacketLength(Frame(m.kind, m.text, m.jpeg));
    var s0 := Answering(m, answer, Torn4(m, record)[..2], 5, 5, true);
    assert Put(s0.lines[0].wire, InClear(0), bytes, 5, |bytes| - 5, true) == Torn4(m, record)[..3];
    assert s0.lines[0].clears[0 := Clear(bytes, |bytes|)] == [Clear(bytes, |bytes|)];
    Onward(p, seal, s0, PlainChunk(0, |bytes| - 5), Answering(m, answer, Torn4(m, record)[..3], |bytes|, 5, true));
  }

  lemma AnswerIsRecord(seal: Cipher, m: Message, answer: Message, wire: seq<Piece<Origin>>, plain: nat, sent: nat)
    ensures LastRecord(seal, 0, Answering(m, answer, wire, plain, sent, true).lines[0]) == Record(seal, 0, 0, answer)
    ensures |Record(seal, 0, 0, answer)| >= 5
  {
    PacketLength(Frame(answer.kind, seal(0, 0, answer.text), answer.jpeg));
    hide EncodeLE;
  }

  lemma MixedReached(seal: Cipher, m: Message, answer: Message)
    requires m.text != [] && seal(0, 0, answer.text) != []
    ensures Reached(Two(m, answer), seal,
                    Answering(m, answer, Torn4(m, Record(seal, 0, 0, answer)), |InPlain(m)|, |Record(seal, 0, 0, answer)|, true))
  {
    hide Reached;
    var p, record, bytes := Two(m, answer), Record(seal, 0, 0, answer), InPlain(m);
    RecordLonger(seal, answer);
    hide EncodeLE, Record, ClearMid, Unfinished, RecordMid;
    RestReached(seal, m, answer);
    AnswerIsRecord(seal, m, answer, Torn4(m, record)[..3], |bytes|, 5);
    var s1 := Answering(m, answer, Torn4(m, record)[..3], |bytes|, 5, true);
    assert Put(s1.lines[0].wire, OfRecord(0), record, 5, |record| - 5, true) == Torn4(m, record);
    Onward(p, seal, s1, Chunk(|record| - 5), Answering(m, answer, Torn4(m, record), |bytes|, |record|, true));
  }

  lemma RecordLonger(seal: Cipher, answer: Message)
    requires seal(0, 0, answer.text) != []
    ensures |Record(seal, 0, 0, answer)| > 5
  {
    PacketLength(Frame(answer.kind, seal(0, 0, answer.text), answer.jpeg));
    hide EncodeLE;
  }

  /** Nothing is being sent any more. */
  function AfterAll(seal: Cipher, m: Message, answer: Message): State {
    Answering(m, answer, Torn4(m, Record(seal, 0, 0, answer)), |InPlain(m)|, |Record(seal, 0, 0, answer)|, true)
      .(holder := None, plain := map[])
  }

  lemma AfterAllReached(seal: Cipher, m: Message, answer: Message)
    requires m.text != [] && seal(0, 0, answer.text) != []
    ensures Reached(Two(m, answer), seal, AfterAll(seal, m, answer))
  {
    hide Reached, EncodeLE, Record;
    var p, record, bytes := Two(m, answer), Record(seal, 0, 0, answer), InPlain(m);
    MixedReached(seal, m, answer);
    AnswerIsRecord(seal, m, answer, Torn4(m, record), |bytes|, |record|);
    var s0 := Answering(m, answer, Torn4(m, record), |bytes|, |record|, true);
    Onward(p, seal, s0, Release, s0.(holder := None));
    Onward(p, seal, s0.(holder := None), PlainEnd(0), AfterAll(seal, m, answer));
  }

  lemma TornBytes(seal: Cipher, m: Message, answer: Message)
    requires m.text != [] && seal(0, 0, answer.text) != []
    ensures var ps, record, bytes := Torn4(m, Record(seal, 0, 0, answer)), Record(seal, 0, 0, answer), InPlain(m);
            && |bytes| > 5 && |record| > 5 && !Whole(ps)
            && Bytes(ps) == (bytes[..5] + record[..5]) + (bytes[5..] + record[5..])
  {
    var ps, record, bytes := Torn4(m, Record(seal, 0, 0, answer)), Record(seal, 0, 0, answer), InPlain(m);
    PacketLength(Frame(m.kind, m.text, m.jpeg));
    RecordLonger(seal, answer);
    hide EncodeLE, Record;
    FourPieces(ps);
    assert BytesOf(ps[0]) == bytes[..5] && BytesOf(ps[1]) == record[..5] && BytesOf(ps[2]) == bytes[5..] && BytesOf(ps[3]) == record[5..];
    assert !Complete(ps[0]);
  }

  /**
    * A broadcast decides to send in the clear and has sent the header; the handshake is completed; the answer to the
    * first request is encrypted, and its header goes out before the rest of the broadcast. At the end nothing has
    * failed and nothing is being sent, yet the record on the wire is torn.
    */
  lemma PlainTearsRecord(seal: Cipher, m: Message, answer: Message)
    requires m.text != [] && seal(0, 0, answer.text) != []
    ensures exists s :: Reached(Two(m, answer), seal, s) && 0 in s.lines
              && var l, record, bytes := s.lines[0], Record(seal, 0, 0, answer), InPlain(m);
                 && !l.broken && s.holder.None? && s.plain == map[] && !Unfinished(l) && l.sealed == [answer]
                 && |bytes| > 5 && |record| > 5 && !Whole(l.wire)
                 && Bytes(l.wire) == (bytes[..5] + record[..5]) + (bytes[5..] + record[5..])
  {
    AfterAllReached(seal, m, answer);
    TornBytes(seal, m, answer);
    hide Reached, EncodeLE, Record, Bytes, Whole, Torn4;
    assert !Unfinished(AfterAll(seal, m, answer).lines[0]);
  }

  lemma FourPieces(ps: seq<Piece<Origin>>)
    requires |ps| == 4
    ensures Bytes(ps) == (BytesOf(ps[0]) + BytesOf(ps[1])) + (BytesOf(ps[2]) + BytesOf(ps[3]))
  {
    TwoPieces(ps[0], ps[1]);
    OfOneMore([ps[0], ps[1]], ps[2], ps[2].origin);
    OfOneMore([ps[0], ps[1], ps[2]], ps[3], ps[3].origin);
    assert [ps[0], ps[1]] + [ps[2]] == [ps[0], ps[1], ps[2]] && [ps[0], ps[1], ps[2]] + [ps[3]] == ps;
    hide BytesOf, Bytes;
    ConcatAssociative(BytesOf(ps[0]) + BytesOf(ps[1]), BytesOf(ps[2]), BytesOf(ps[3]));
  }

  // ---- if encryption and transmission were two sections ----

  /** One session: what it encrypted, the records threads have encrypted and not yet sent, the wire. */
  datatype Split = Split(sealed: seq<Message>, held: map<Thread, seq<byte>>, wire: seq<byte>)

  datatype SplitStep = SplitEncrypt(thread: Thread, message: Message) | SplitSend(thread: Thread)

  predicate SplitEnabled(s: Split, step: SplitStep) {
    match step
    case SplitEncrypt(t, _) => t !in s.held
    case SplitSend(t) => t in s.held
  }

  function SplitDo(seal: Cipher, c: Conn, s: Split, step: SplitStep): Split
    requires SplitEnabled(s, step)
  {
    match step
    case SplitEncrypt(t, m) =>
      s.(sealed := s.sealed + [m], held := s.held[t := Record(seal, c, |s.sealed|, m)])
    case SplitSend(t) => s.(held := s.held - {t}, wire := s.wire + s.held[t])
  }

  predicate SplitValid(seal: Cipher, c: Conn, s: Split, steps: seq<SplitStep>)
    decreases |steps|
  {
    steps == [] || (SplitEnabled(s, steps[0]) && SplitValid(seal, c, SplitDo(seal, c, s, steps[0]), steps[1..]))
  }

  function SplitAfter(seal: Cipher, c: Conn, s: Split, steps: seq<SplitStep>): Split
    requires SplitValid(seal, c, s, steps)
    decreases |steps|
  {
    if steps == [] then s else SplitAfter(seal, c, SplitDo(seal, c, s, steps[0]), steps[1..])
  }

  lemma SplitOnward(seal: Cipher, c: Conn, s: Split, step: SplitStep, steps: seq<SplitStep>)
    requires SplitEnabled(s, step) && SplitValid(seal, c, SplitDo(seal, c, s, step), steps)
    ensures SplitValid(seal, c, s, [step] + steps)
    ensures SplitAfter(seal, c, s, [step] + steps) == SplitAfter(seal, c, SplitDo(seal, c, s, step), steps)
  {
    hide SplitEnabled, SplitDo;
    assert ([step] + steps)[1..] == steps;
  }

  /**
    * If encryption and transmission were two sections, two threads could each encrypt a record and send them the
    * other way round; unless the two records commute, the wire is then not what the session encrypted.
    */
  lemma SplitSectionsReorder(seal: Cipher, c: Conn, m: Message, n: Message)
    ensures exists steps :: SplitValid(seal, c, Split([], map[], []), steps)
              && var s := SplitAfter(seal, c, Split([], map[], []), steps);
                 && s.sealed == [m, n] && s.held == map[]
                 && s.wire == Record(seal, c, 1, n) + Record(seal, c, 0, m)
                 && (s.wire == Records(seal, c, s.sealed) <==>
                       Record(seal, c, 0, m) + Record(seal, c, 1, n) == Record(seal, c, 1, n) + Record(seal, c, 0, m))
  {
    var a, b := Record(seal, c, 0, m), Record(seal, c, 1, n);
    BothRecords(seal, c, m, n);
    hide Record, Records;
    var s0: Split := Split([], map[], []);
    var s1 := Split([m], map[0 := a], []);
    var s2 := Split([m, n], map[0 := a, 1 := b], []);
    var s3 := Split([m, n], map[0 := a], b);
    var s4 := Split([m, n], map[], b + a);
    assert SplitDo(seal, c, s0, SplitEncrypt(0, m)) == s1;
    assert [m] + [n] == [m, n];
    assert SplitDo(seal, c, s1, SplitEncrypt(1, n)) == s2;
    assert SplitDo(seal, c, s2, SplitSend(1)) == s3;
    assert SplitDo(seal, c, s3, SplitSend(0)) == s4;
    assert SplitValid(seal, c, s4, []);
    var none: seq<SplitStep> := [];
    SplitOnward(seal, c, s3, SplitSend(0), none);
    SplitOnward(seal, c, s2, SplitSend(1), [SplitSend(0)] + none);
    SplitOnward(seal, c, s1, SplitEncrypt(1, n), [SplitSend(1)] + ([SplitSend(0)] + none));
    SplitOnward(seal, c, s0, SplitEncrypt(0, m), [SplitEncrypt(1, n)] + ([SplitSend(1)] + ([SplitSend(0)] + none)));
  }

  lemma BothRecords(seal: Cipher, c: Conn, m: Message, n: Message)
    ensures Records(seal, c, [m, n]) == Record(seal, c, 0, m) + Record(seal, c, 1, n)
  {
    assert [m, n][..1] == [m];
    OneMoreRecord(seal, c, [], m);
    OneMoreRecord(seal, c, [m], n);
    assert [] + [m] == [m] && [m] + [n] == [m, n];
  }
}
