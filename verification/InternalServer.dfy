/** The device server's side of the link to the client server. */
module InternalServer {
  import opened Common
  import opened Json
  import opened NetUtil
  import opened Wire

  datatype Exit = Disconnected | Uncaught

  datatype Event = CameraRequest | StatusRequest | MotorCommand(ip: string, motor: string)

  datatype State = State(input: seq<byte>, events: seq<Event>, exit: Option<Exit>)

  /** A request, once its body is there: an oversized or absent body counts as an empty object. */
  function OnRequest(st: State, kind: byte, body: Json): State {
    if kind == CAMERA then st.(events := st.events + [CameraRequest])
    else if kind == AVAILABLE then st.(events := st.events + [StatusRequest])
    else if kind == DEVICE then
      match (Text(body, "device"), Text(body, "motor"))
      case (Some(ip), Some(motor)) =>
        if ip != "" && motor != "" then st.(events := st.events + [MotorCommand(ip, motor)]) else st
      case _ => st.(exit := Some(Uncaught))
    else st
  }

  function Step(c: Codec, st: State): State {
    match ReadHead(st.input)
    case Short => st.(input := [], exit := Some(Disconnected))
    case Head(kind, length, rest) =>
      if 0 < length < MIB then
        if |rest| < length then st.(input := [], exit := Some(Disconnected))
        else match c.parse(rest[..length])
          case None => st.(input := rest[length..])
          case Some(j) => OnRequest(st.(input := rest[length..]), kind, j)
      else OnRequest(st.(input := rest), kind, Object(map[]))
  }

  class ClientHandler {
    const codec: Codec
    const sock: Socket
    var events: seq<Event>
    var exit: Option<Exit>

    constructor (codec: Codec, sock: Socket)
      ensures this.codec == codec && this.sock == sock && Now() == State(sock.incoming, [], None)
    {
      this.codec, this.sock, events, exit := codec, sock, [], None;
    }

    ghost function Now(): State
      reads this, sock
    {
      State(sock.incoming, events, exit)
    }

    method Answer(kind: byte, body: Json)
      modifies this
      ensures Now() == OnRequest(old(Now()), kind, body)
    {
      if kind == CAMERA {
        events := events + [CameraRequest];
      } else if kind == AVAILABLE {
        events := events + [StatusRequest];
      } else if kind == DEVICE {
        var ip, motor := Text(body, "device"), Text(body, "motor");
        if ip.None? || motor.None? {
          exit := Some(Uncaught);
        } else if ip.value != "" && motor.value != "" {
          events := events + [MotorCommand(ip.value, motor.value)];
        }
      }
    }

    method ReadRequest()
      modifies this, sock`incoming, sock`calls
      ensures Now() == Step(codec, old(Now()))
    {
      var header := new byte[5];
      var ok := RecvExact(sock, header, 5);
      if !ok {
        exit := Some(Disconnected);
        return;
      }
      assert header[..] == header[..5];
      assert header[1..] == old(sock.incoming)[1..5];
      var length := FromBigEndian(header[1..]);
      var body := Object(map[]);
      if 0 < length < MIB {
        var buf := new byte[length];
        ok := RecvExact(sock, buf, length);
        if !ok {
          exit := Some(Disconnected);
          return;
        }
        assert buf[..] == buf[..length];
        var parsed := codec.parse(buf[..]);
        if parsed.None? {
          return;
        }
        body := parsed.value;
      }
      Answer(header[0], body);
    }
  }

  /** Header and body in two exact sends: the peer gets the frame, or a strict prefix of it and the call fails. */
  method SendMessage(sock: Socket, kind: byte, body: seq<byte>) returns (ok: bool)
    modifies sock`outgoing, sock`budget, sock`calls
    ensures ok <==> |Encode(Frame(kind, body, []))| <= old(sock.budget)
    ensures ok ==> sock.outgoing == old(sock.outgoing) + Encode(Frame(kind, body, []))
    ensures !ok ==> sock.outgoing == old(sock.outgoing) + Encode(Frame(kind, body, []))[..old(sock.budget)]
  {
    var header := [kind] + BigEndian(|body|);
    ghost var all := Encode(Frame(kind, body, []));
    assert all == header + body;
    ok := SendExact(sock, header);
    if !ok {
      return;
    }
    if body != [] {
      ok := SendExact(sock, body);
    }
  }

  method SendImageMessage(sock: Socket, meta: seq<byte>, jpeg: seq<byte>) returns (ok: bool)
    modifies sock`outgoing, sock`budget, sock`calls
    ensures ok <==> |Encode(Frame(IMAGE, meta, jpeg))| <= old(sock.budget)
    ensures ok ==> sock.outgoing == old(sock.outgoing) + Encode(Frame(IMAGE, meta, jpeg))
    ensures !ok ==> sock.outgoing == old(sock.outgoing) + Encode(Frame(IMAGE, meta, jpeg))[..old(sock.budget)]
  {
    ghost var all := Encode(Frame(IMAGE, meta, jpeg));
    var header := [IMAGE] + BigEndian(|meta|);
    assert all == header + meta + jpeg;
    ok := SendExact(sock, header);
    if !ok {
      return;
    }
    ok := SendExact(sock, meta);
    if !ok {
      assert all[..old(sock.budget)] == header + meta[..old(sock.budget) - 5];
      return;
    }
    if jpeg != [] {
      ok := SendExact(sock, jpeg);
      if !ok {
        assert all[..old(sock.budget)] == header + meta + jpeg[..old(sock.budget) - 5 - |meta|];
      }
    }
  }

  /** What a connection gets of a frame it can take `budget` more bytes of. */
  function Taken(f: Frame, budget: nat): seq<byte> {
    if |Encode(f)| <= budget then Encode(f) else Encode(f)[..budget]
  }

  /** The broadcasts of one body: a client that fails does not keep the others from getting their frame. */
  method Broadcast(clients: seq<Socket>, kind: byte, body: seq<byte>)
    requires forall i, j :: 0 <= i < j < |clients| ==> clients[i] != clients[j]
    modifies set c | c in clients
    ensures forall c <- clients ::
              c.outgoing == old(c.outgoing) + Taken(Frame(kind, body, []), old(c.budget)) && c.incoming == old(c.incoming)
  {
    for i := 0 to |clients|
      invariant forall c <- clients :: c.incoming == old(c.incoming)
      invariant forall j :: 0 <= j < i ==>
                  clients[j].outgoing == old(clients[j].outgoing) + Taken(Frame(kind, body, []), old(clients[j].budget))
      invariant forall j :: i <= j < |clients| ==>
                  clients[j].outgoing == old(clients[j].outgoing) && clients[j].budget == old(clients[j].budget)
    {
      var _ := SendMessage(clients[i], kind, body);
    }
  }

  method BroadcastImage(clients: seq<Socket>, meta: seq<byte>, jpeg: seq<byte>)
    requires forall i, j :: 0 <= i < j < |clients| ==> clients[i] != clients[j]
    modifies set c | c in clients
    ensures forall c <- clients ::
              c.outgoing == old(c.outgoing) + Taken(Frame(IMAGE, meta, jpeg), old(c.budget)) && c.incoming == old(c.incoming)
  {
    for i := 0 to |clients|
      invariant forall c <- clients :: c.incoming == old(c.incoming)
      invariant forall j :: 0 <= j < i ==>
                  clients[j].outgoing == old(clients[j].outgoing) + Taken(Frame(IMAGE, meta, jpeg), old(clients[j].budget))
      invariant forall j :: i <= j < |clients| ==>
                  clients[j].outgoing == old(clients[j].outgoing) && clients[j].budget == old(clients[j].budget)
    {
      var _ := SendImageMessage(clients[i], meta, jpeg);
    }
  }

  /**
    * The handler stays on a frame boundary exactly for bodies under a megabyte. A longer body is
    * left in the stream, yet its header is already acted upon.
    */
  lemma AlignedExactly(c: Codec, st: State, f: Frame, rest: seq<byte>)
    requires st.exit.None? && |f.body| < LIMIT && st.input == Encode(f) + rest
    ensures var next := Step(c, st);
            (next.exit != Some(Disconnected) && next.input == rest) <==> |f.body| < MIB && f.tail == []
  {
    hide Encode, ReadHead;
    HeadOfFrame(f, rest);
    assert |f.body + (f.tail + rest)| == |f.body| + |f.tail| + |rest|;
  }
}
