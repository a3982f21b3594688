/** The thread that serves one Qt client: framing, the TLS handshake, and what reaches the controller. */
module QtReader {
  import opened Common
  import opened Json
  import opened NetUtil
  import opened Wire

  datatype Exit = Disconnected | TooLarge | Rejected

  datatype Event = HandshakeReply(data: seq<byte>) | ParseFailure | Message(kind: byte, body: Json)

  datatype Mode = Plain | Handshaking | Secured

  /**
    * The TLS library as an oracle: the answer to the k-th packet fed to a session, whether the
    * handshake is complete after it, and the plaintext the k-th packet decrypts to.
    */
  datatype Tls = Tls(reply: nat -> seq<byte>, done: nat -> bool, decrypt: (nat, seq<byte>) -> seq<byte>)

  datatype State = State(input: seq<byte>, mode: Mode, fed: nat, events: seq<Event>, exit: Option<Exit>)

  function Emit(st: State, e: Event): State {
    st.(events := st.events + [e])
  }

  function OnText(c: Codec, st: State, kind: byte, text: seq<byte>): State {
    match c.parse(text)
    case None => Emit(st, ParseFailure)
    case Some(j) => Emit(st, Message(kind, j))
  }

  function OnBody(c: Codec, tls: Tls, st: State, kind: byte, body: seq<byte>): State {
    match st.mode
    case Plain =>
      if body == [] then Emit(st, Message(kind, Object(map[]))) else OnText(c, st, kind, body)
    case Handshaking =>
      if kind != HANDSHAKE then st.(exit := Some(Rejected))
      else
        var next := st.(fed := st.fed + 1, mode := if tls.done(st.fed) then Secured else Handshaking);
        if tls.reply(st.fed) == [] then next else Emit(next, HandshakeReply(tls.reply(st.fed)))
    case Secured =>
      var plain, next := tls.decrypt(st.fed, body), st.(fed := st.fed + 1);
      if plain == [] then next else OnText(c, next, kind, plain)
  }

  function Step(c: Codec, tls: Tls, st: State): State {
    match ReadHeadLE(st.input)
    case Short => st.(input := [], exit := Some(Disconnected))
    case Head(kind, length, rest) =>
      if length > MIB then st.(input := rest, exit := Some(TooLarge))
      else if |rest| < length then st.(input := [], exit := Some(Disconnected))
      else OnBody(c, tls, st.(input := rest[length..]), kind, rest[..length])
  }

  function Run(c: Codec, tls: Tls, st: State, rounds: nat): State
    decreases rounds
  {
    if rounds == 0 || st.exit.Some? then st else Run(c, tls, Step(c, tls, st), rounds - 1)
  }

  class Handler {
    const codec: Codec
    const tls: Tls
    const sock: Socket
    var mode: Mode
    var fed: nat
    var events: seq<Event>
    var exit: Option<Exit>

    constructor (codec: Codec, tls: Tls, secure: bool, sock: Socket)
      ensures this.codec == codec && this.tls == tls && this.sock == sock
      ensures Now() == State(sock.incoming, if secure then Handshaking else Plain, 0, [], None)
    {
      this.codec, this.tls, this.sock := codec, tls, sock;
      mode := if secure then Handshaking else Plain;
      fed, events, exit := 0, [], None;
    }

    ghost function Now(): State
      reads this, sock
    {
      State(sock.incoming, mode, fed, events, exit)
    }

    method Deliver(kind: byte, text: seq<byte>)
      modifies this`events
      ensures Now() == OnText(codec, old(Now()), kind, text)
    {
      var parsed := codec.parse(text);
      events := events + [if parsed.None? then ParseFailure else Message(kind, parsed.value)];
    }

    method HandleBody(kind: byte, body: seq<byte>)
      modifies this
      ensures Now() == OnBody(codec, tls, old(Now()), kind, body)
    {
      if mode == Handshaking {
        if kind != HANDSHAKE {
          exit := Some(Rejected);
          return;
        }
        var answer := tls.reply(fed);
        mode := if tls.done(fed) then Secured else Handshaking;
        fed := fed + 1;
        if answer != [] {
          events := events + [HandshakeReply(answer)];
        }
      } else if mode == Secured {
        var plain := tls.decrypt(fed, body);
        fed := fed + 1;
        if plain != [] {
          Deliver(kind, plain);
        }
      } else if body == [] {
        events := events + [Message(kind, Object(map[]))];
      } else {
        Deliver(kind, body);
      }
    }

    method ReadPacket()
      modifies this, sock`incoming, sock`calls
      ensures Now() == Step(codec, tls, old(Now()))
    {
      var header := new byte[5];
      var ok := RecvExact(sock, header, 5);
      if !ok {
        exit := Some(Disconnected);
        return;
      }
      assert header[..] == header[..5];
      assert header[1..] == old(sock.incoming)[1..5];
      var length := FromLittleEndian(header[1..]);
      if length > MIB {
        exit := Some(TooLarge);
        return;
      }
      var buf := new byte[length];
      ok := RecvExact(sock, buf, length);
      if !ok {
        exit := Some(Disconnected);
        return;
      }
      assert buf[..] == buf[..length];
      HandleBody(header[0], buf[..]);
    }

    /** The handler loop; the server stops running after `rounds` passes. */
    method Serve(rounds: nat)
      requires exit.None?
      modifies this, sock`incoming, sock`calls
      ensures Now() == Run(codec, tls, old(Now()), rounds)
    {
      var i := 0;
      while i < rounds && exit.None?
        invariant 0 <= i <= rounds
        invariant Run(codec, tls, Now(), rounds - i) == Run(codec, tls, old(Now()), rounds)
      {
        ReadPacket();
        i := i + 1;
      }
    }
  }

  function EncodeAllLE(fs: seq<Frame>): seq<byte> {
    if fs == [] then [] else EncodeLE(fs[0]) + EncodeAllLE(fs[1..])
  }

  predicate Sendable(f: Frame) {
    f.tail == [] && |f.body| < LIMIT
  }

  /** One packet, whatever it holds: the reader is at the next packet, or it has hung up on an oversized one. */
  lemma AlwaysAligned(c: Codec, tls: Tls, st: State, f: Frame, rest: seq<byte>)
    requires st.exit.None? && Sendable(f) && st.input == EncodeLE(f) + rest
    ensures var next := Step(c, tls, st);
            && (next.exit == Some(TooLarge) <==> |f.body| > MIB)
            && next.exit != Some(Disconnected)
            && (next.exit != Some(TooLarge) ==>
                  next.input == rest && next == OnBody(c, tls, st.(input := rest), f.kind, f.body))
  {
    hide EncodeLE, ReadHeadLE;
    HeadOfFrame(f, rest);
  }

  lemma NothingLeft(c: Codec, tls: Tls, st: State)
    requires st.input == []
    ensures Step(c, tls, st) == st.(exit := Some(Disconnected))
  {
  }

  /** At every loop head, for every sequence of packets, the unread bytes are a whole number of packets. */
  lemma {:induction false} BoundaryAtEveryLoopHead(c: Codec, tls: Tls, st: State, fs: seq<Frame>, rounds: nat)
    requires st.exit.None? && (forall f <- fs :: Sendable(f)) && st.input == EncodeAllLE(fs)
    ensures var end := Run(c, tls, st, rounds);
            && (end.exit.None? ==> rounds <= |fs| && end.input == EncodeAllLE(fs[rounds..]))
            && (end.exit == Some(TooLarge) ==> exists f :: f in fs && |f.body| > MIB)
    decreases rounds
  {
    if rounds != 0 {
      hide OnBody, EncodeLE, ReadHeadLE, Sendable;
      RunOnce(c, tls, st, rounds);
      if fs == [] {
        NothingLeft(c, tls, st);
        hide Step, Run;
      } else {
        AlwaysAligned(c, tls, st, fs[0], EncodeAllLE(fs[1..]));
        hide Step, Run;
        var next := Step(c, tls, st);
        if next.exit.None? {
          BoundaryAtEveryLoopHead(c, tls, next, fs[1..], rounds - 1);
          assert rounds <= |fs| ==> fs[1..][rounds - 1..] == fs[rounds..];
        }
      }
    }
  }

  /** What lies between two positions in the stream is n whole packets within the size limit. */
  ghost predicate WholePackets(from: seq<byte>, to: seq<byte>, n: nat) {
    exists fs: seq<Frame> :: |fs| == n && (forall f <- fs :: f.tail == [] && |f.body| <= MIB) && from == EncodeAllLE(fs) + to
  }

  lemma OneMorePacket(f: Frame, from: seq<byte>, mid: seq<byte>, to: seq<byte>, n: nat)
    requires f.tail == [] && |f.body| <= MIB && from == EncodeLE(f) + mid && WholePackets(mid, to, n)
    ensures WholePackets(from, to, n + 1)
  {
    hide EncodeLE;
    var fs: seq<Frame> :| |fs| == n && (forall g <- fs :: g.tail == [] && |g.body| <= MIB) && mid == EncodeAllLE(fs) + to;
    ConcatAssociative(EncodeLE(f), EncodeAllLE(fs), to);
    assert ([f] + fs)[1..] == fs && EncodeAllLE([f] + fs) == EncodeLE(f) + EncodeAllLE(fs);
  }

  /** For every input whatever: at a loop head the reader has consumed whole packets, one for each pass so far. */
  lemma {:induction false} ConsumesWholePackets(c: Codec, tls: Tls, st: State, rounds: nat)
    requires st.exit.None?
    ensures Run(c, tls, st, rounds).exit.None? ==> WholePackets(st.input, Run(c, tls, st, rounds).input, rounds)
    decreases rounds
  {
    hide *;
    if rounds == 0 {
      RunNever(c, tls, st);
      NoPackets(st.input);
    } else {
      var next := Step(c, tls, st);
      RunOnce(c, tls, st, rounds);
      if next.exit.None? {
        var f := OnePacket(c, tls, st);
        ConsumesWholePackets(c, tls, next, rounds - 1);
        var end := Run(c, tls, next, rounds - 1);
        if end.exit.None? {
          OneMorePacket(f, st.input, next.input, end.input, rounds - 1);
        }
      }
    }
  }

  lemma NoPackets(input: seq<byte>)
    ensures WholePackets(input, input, 0)
  {
    assert input == EncodeAllLE([]) + input;
  }

  lemma RunNever(c: Codec, tls: Tls, st: State)
    ensures Run(c, tls, st, 0) == st
  {
  }

  lemma RunOnce(c: Codec, tls: Tls, st: State, rounds: nat)
    requires st.exit.None? && rounds > 0
    ensures Run(c, tls, st, rounds) == Run(c, tls, Step(c, tls, st), rounds - 1)
    ensures Step(c, tls, st).exit.Some? ==> Run(c, tls, st, rounds) == Step(c, tls, st)
  {
    hide Step;
    var next := Step(c, tls, st);
    assert next.exit.Some? ==> Run(c, tls, next, rounds - 1) == next;
  }

  lemma OnePacket(c: Codec, tls: Tls, st: State) returns (f: Frame)
    requires st.exit.None? && Step(c, tls, st).exit.None?
    ensures f.tail == [] && |f.body| <= MIB && st.input == EncodeLE(f) + Step(c, tls, st).input
  {
    hide EncodeLE, ReadHeadLE;
    var head := ReadHeadLE(st.input);
    f := Frame(head.kind, head.rest[..head.length], []);
    PacketOfHead(st.input, head.kind, head.length, head.rest);
  }

  /** Until the handshake is complete nothing is handed on and nothing but handshake data is sent. */
  ghost predicate HandshakeFirst(st: State) {
    st.mode == Handshaking ==> forall e <- st.events :: e.HandshakeReply?
  }

  /**
    * In secure mode every message reaches the controller after the handshake: at the first state
    * that has one the session was already complete, and completion is never undone.
    */
  lemma {:induction false} NoMessageBeforeHandshake(c: Codec, tls: Tls, st: State, rounds: nat)
    requires HandshakeFirst(st)
    ensures HandshakeFirst(Run(c, tls, st, rounds))
    ensures st.mode == Secured ==> Run(c, tls, st, rounds).mode == Secured
    ensures st.mode == Plain <==> Run(c, tls, st, rounds).mode == Plain
    decreases rounds
  {
    if rounds != 0 && st.exit.None? {
      NoMessageBeforeHandshake(c, tls, Step(c, tls, st), rounds - 1);
    }
  }
}
