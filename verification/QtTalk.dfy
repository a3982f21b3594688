/** What a Qt client says reaches the controller: every message once, as it was said, in order. */
module QtTalk {
  import opened Common
  import opened Json
  import opened Wire
  import opened QtReader

  /** A message as the client means it. */
  datatype Said = Said(kind: byte, body: Json)

  /** The client's side of the cipher: its k-th packet. */
  type Seal = (nat, seq<byte>) -> seq<byte>

  /** What the client has sealed the server can open, packet by packet. */
  ghost predicate Opens(tls: Tls, seal: Seal) {
    forall k, text :: tls.decrypt(k, seal(k, text)) == text
  }

  /** The packets of these messages: in the clear, or sealed with the numbers from `fed` on. */
  function Packets(c: Codec, seal: Option<Seal>, fed: nat, ms: seq<Said>): seq<Frame>
    decreases ms
  {
    if ms == [] then []
    else
      var text := c.dump(ms[0].body);
      [Frame(ms[0].kind, if seal.None? then text else seal.value(fed, text), [])] + Packets(c, seal, fed + 1, ms[1..])
  }

  function Told(ms: seq<Said>): seq<Event> {
    seq(|ms|, i requires 0 <= i < |ms| => Message(ms[i].kind, ms[i].body))
  }

  /** The library's answers to n handshake packets; an empty answer is not sent. */
  function Replies(tls: Tls, fed: nat, n: nat): seq<Event>
    decreases n
  {
    if n == 0 then []
    else (if tls.reply(fed) == [] then [] else [HandshakeReply(tls.reply(fed))]) + Replies(tls, fed + 1, n - 1)
  }

  /** The reader's end of the connection fits the client's. */
  ghost predicate Agree(tls: Tls, seal: Option<Seal>, mode: Mode) {
    match seal
    case None => mode == Plain
    case Some(s) => mode == Secured && Opens(tls, s)
  }

  lemma OneMessage(c: Codec, tls: Tls, seal: Option<Seal>, st: State, f: Frame, m: Said, rest: seq<byte>)
    requires c.Lawful() && Agree(tls, seal, st.mode) && st.exit.None? && st.input == EncodeLE(f) + rest
    requires f == Frame(m.kind, if seal.None? then c.dump(m.body) else seal.value(st.fed, c.dump(m.body)), [])
    requires |f.body| <= 1_048_576
    ensures var next := Step(c, tls, st);
            && next.input == rest && next.mode == st.mode && next.exit.None?
            && next.fed == (if seal.None? then st.fed else st.fed + 1)
            && next.events == st.events + [Message(m.kind, m.body)]
  {
    hide EncodeLE;
    AlwaysAligned(c, tls, st, f, rest);
    hide Step;
    assert c.dump(m.body) != [] && c.parse(c.dump(m.body)) == Some(m.body);
  }

  /**
    * The packets that are no such message: an empty one in the clear stands for an empty object, one that does not parse
    * is answered as such, a record without text says nothing, and anything but a handshake packet during the handshake
    * ends the connection.
    */
  lemma OtherPackets(c: Codec, tls: Tls, st: State, f: Frame, rest: seq<byte>)
    requires st.exit.None? && st.input == EncodeLE(f) + rest && f.tail == [] && |f.body| <= 1_048_576
    ensures var next := Step(c, tls, st);
            && next.input == rest
            && (next.exit.Some? <==> st.mode == Handshaking && f.kind != HANDSHAKE)
            && (st.mode == Plain && f.body == [] ==> next.events == st.events + [Message(f.kind, Object(map[]))])
            && (st.mode == Plain && f.body != [] && c.parse(f.body).None? ==> next.events == st.events + [ParseFailure])
            && (st.mode == Secured ==>
                  var text := tls.decrypt(st.fed, f.body);
                  && (text == [] ==> next.events == st.events)
                  && (text != [] && c.parse(text).None? ==> next.events == st.events + [ParseFailure]))
  {
    hide EncodeLE;
    AlwaysAligned(c, tls, st, f, rest);
    hide Step;
  }

  /** After the handshake, or without one: as many messages as there were passes, in order, each as it was said. */
  lemma {:induction false} MessagesInOrder(c: Codec, tls: Tls, seal: Option<Seal>, st: State, ms: seq<Said>, k: nat)
    requires c.Lawful() && Agree(tls, seal, st.mode) && st.exit.None? && k <= |ms|
    requires st.input == EncodeAllLE(Packets(c, seal, st.fed, ms))
    requires forall f <- Packets(c, seal, st.fed, ms) :: |f.body| <= 1_048_576
    ensures var end := Run(c, tls, st, k);
            end.exit.None? && end.mode == st.mode && end.events == st.events + Told(ms[..k])
    decreases k
  {
    hide *;
    if k == 0 {
      RunNever(c, tls, st);
      NothingTold(ms);
    } else {
      var packets, m, rest := Packets(c, seal, st.fed, ms), ms[0], Packets(c, seal, st.fed + 1, ms[1..]);
      FirstPacket(c, seal, st.fed, ms);
      assert packets[0] in packets && forall f <- rest :: f in packets;
      OneMessage(c, tls, seal, st, packets[0], m, EncodeAllLE(rest));
      RunOnce(c, tls, st, k);
      if seal.None? {
        Unnumbered(c, st.fed + 1, st.fed, ms[1..]);
      }
      MessagesInOrder(c, tls, seal, Step(c, tls, st), ms[1..], k - 1);
      ToldMore(ms, k);
      ConcatAssociative(st.events, [Message(m.kind, m.body)], Told(ms[1..][..k - 1]));
    }
  }

  lemma NothingTold(ms: seq<Said>)
    ensures Told(ms[..0]) == []
  {
  }

  lemma ToldMore(ms: seq<Said>, k: nat)
    requires 0 < k <= |ms|
    ensures Told(ms[..k]) == [Message(ms[0].kind, ms[0].body)] + Told(ms[1..][..k - 1])
  {
  }

  lemma FirstPacket(c: Codec, seal: Option<Seal>, fed: nat, ms: seq<Said>)
    requires ms != []
    ensures var packets, text := Packets(c, seal, fed, ms), c.dump(ms[0].body);
            && packets == [packets[0]] + Packets(c, seal, fed + 1, ms[1..])
            && packets[0] == Frame(ms[0].kind, if seal.None? then text else seal.value(fed, text), [])
            && EncodeAllLE(packets) == EncodeLE(packets[0]) + EncodeAllLE(Packets(c, seal, fed + 1, ms[1..]))
  {
    hide EncodeLE;
  }

  lemma {:induction false} Unnumbered(c: Codec, a: nat, b: nat, ms: seq<Said>)
    ensures Packets(c, None, a, ms) == Packets(c, None, b, ms)
    decreases ms
  {
    if ms != [] {
      Unnumbered(c, a + 1, b + 1, ms[1..]);
    }
  }

  /** Of the n packets from number `fed` on the last one completes the handshake. */
  ghost predicate CompletedBy(tls: Tls, fed: nat, n: nat) {
    forall j: nat :: fed <= j < fed + n ==> (tls.done(j) <==> j == fed + n - 1)
  }

  lemma OneHandshake(c: Codec, tls: Tls, st: State, f: Frame, rest: seq<byte>)
    requires st.mode == Handshaking && st.exit.None? && st.input == EncodeLE(f) + rest
    requires f.kind == HANDSHAKE && f.tail == [] && |f.body| <= 1_048_576
    ensures var next := Step(c, tls, st);
            && next.input == rest && next.exit.None? && next.fed == st.fed + 1
            && next.mode == (if tls.done(st.fed) then Secured else Handshaking)
            && next.events == st.events + Replies(tls, st.fed, 1)
  {
    hide EncodeLE;
    AlwaysAligned(c, tls, st, f, rest);
    hide Step;
    assert Replies(tls, st.fed + 1, 0) == [];
  }

  /**
    * A whole secured connection: the client's handshake packets, the last of which completes the handshake, and then
    * its messages, sealed. The client is sent the library's answers, and the controller is handed exactly the messages.
    */
  lemma {:induction false} SecuredTalk(c: Codec, tls: Tls, seal: Seal, st: State, hs: seq<Frame>, ms: seq<Said>, k: nat)
    requires c.Lawful() && Opens(tls, seal) && st.exit.None? && k <= |ms|
    requires st.mode == if hs == [] then Secured else Handshaking
    requires forall f <- hs :: f.kind == HANDSHAKE && f.tail == [] && |f.body| <= 1_048_576
    requires CompletedBy(tls, st.fed, |hs|)
    requires st.input == EncodeAllLE(hs + Packets(c, Some(seal), st.fed + |hs|, ms))
    requires forall f <- Packets(c, Some(seal), st.fed + |hs|, ms) :: |f.body| <= 1_048_576
    ensures var end := Run(c, tls, st, |hs| + k);
            && end.exit.None? && end.mode == Secured
            && end.events == st.events + Replies(tls, st.fed, |hs|) + Told(ms[..k])
    decreases |hs|
  {
    hide *;
    var packets := Packets(c, Some(seal), st.fed + |hs|, ms);
    if hs == [] {
      NoReplies(tls, st.fed);
      assert hs + packets == packets;
      BothSecured(tls, seal, st.mode);
      MessagesInOrder(c, tls, Some(seal), st, ms, k);
    } else {
      var f, more := hs[0], hs[1..];
      assert hs == [f] + more;
      FirstOfAll(f, more, packets);
      OneHandshake(c, tls, st, f, EncodeAllLE(more + packets));
      RunOnce(c, tls, st, |hs| + k);
      NotYetCompleted(tls, st.fed, |hs|);
      SecuredTalk(c, tls, seal, Step(c, tls, st), more, ms, k);
      MoreReplies(tls, st.fed, |hs|);
      ConcatAssociative(st.events, Replies(tls, st.fed, 1), Replies(tls, st.fed + 1, |more|));
    }
  }

  lemma BothSecured(tls: Tls, seal: Seal, mode: Mode)
    requires Opens(tls, seal) && mode == Secured
    ensures Agree(tls, Some(seal), mode)
  {
  }

  lemma FirstOfAll(f: Frame, more: seq<Frame>, packets: seq<Frame>)
    ensures EncodeAllLE([f] + more + packets) == EncodeLE(f) + EncodeAllLE(more + packets)
  {
    hide EncodeLE;
    assert ([f] + more + packets)[1..] == more + packets;
  }

  lemma NotYetCompleted(tls: Tls, fed: nat, n: nat)
    requires CompletedBy(tls, fed, n) && n > 0
    ensures CompletedBy(tls, fed + 1, n - 1) && (tls.done(fed) <==> n == 1)
  {
  }

  lemma NoReplies(tls: Tls, fed: nat)
    ensures Replies(tls, fed, 0) == []
  {
  }

  lemma MoreReplies(tls: Tls, fed: nat, n: nat)
    requires n > 0
    ensures Replies(tls, fed, n) == Replies(tls, fed, 1) + Replies(tls, fed + 1, n - 1)
  {
    assert Replies(tls, fed + 1, 0) == [];
  }
}
