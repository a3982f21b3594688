/** The client server's side of the link: push events and the two caches. */
module InternalClient {
  import opened Common
  import opened Json
  import opened NetUtil
  import opened Wire

  datatype Exit = Disconnected | SelectFailed | Uncaught

  datatype Event = AiEvent(event: Json) | MetaEvent(data: Json) | ImageEvent(meta: Json, jpeg: seq<byte>)

  /** The unread bytes of the current connection, and what survives reconnecting. */
  datatype State = State(input: seq<byte>, cameras: Json, status: Json, events: seq<Event>, exit: Option<Exit>)

  const MAX_JPEG := 10 * MIB

  function Emit(st: State, e: Event): State {
    st.(events := st.events + [e])
  }

  /** An image with a size out of range is dropped without reading its tail. */
  function OnImage(st: State, meta: Json): State {
    match UInt32(meta, "jpeg_size")
    case None => st.(exit := Some(Uncaught))
    case Some(size) =>
      if !(0 < size < MAX_JPEG) then st
      else if |st.input| < size then st.(input := [])
      else Emit(st.(input := st.input[size..]), ImageEvent(meta, st.input[..size]))
  }

  function Dispatch(c: Codec, st: State, kind: byte, body: seq<byte>): State {
    if kind != CAMERA && kind != AVAILABLE && kind != AI && kind != IMAGE && kind != META then st
    else match c.parse(body)
      case None => st
      case Some(j) =>
        if kind == CAMERA then st.(cameras := j)
        else if kind == AVAILABLE then st.(status := j)
        else if kind == AI then Emit(st, AiEvent(j))
        else if kind == META then Emit(st, MetaEvent(j))
        else OnImage(st, j)
  }

  /** One pass of the receive loop after `select` reported data. */
  function Step(c: Codec, st: State): State {
    match ReadHead(st.input)
    case Short => st.(input := [], exit := Some(Disconnected))
    case Head(kind, length, rest) =>
      if length == 0 || length > MIB then st.(input := rest)
      else if |rest| < length then st.(input := [], exit := Some(Disconnected))
      else Dispatch(c, st.(input := rest[length..]), kind, rest[..length])
  }

  class Client {
    const codec: Codec
    var cachedCameras: Json
    var cachedStatus: Json
    var events: seq<Event>
    var exit: Option<Exit>

    constructor (codec: Codec)
      ensures this.codec == codec
      ensures cachedCameras == Array([]) && cachedStatus == Array([]) && events == [] && exit == None
    {
      this.codec := codec;
      cachedCameras, cachedStatus, events, exit := Array([]), Array([]), [], None;
    }

    ghost function Now(sock: Socket): State
      reads this, sock
    {
      State(sock.incoming, cachedCameras, cachedStatus, events, exit)
    }

    method ReadImage(sock: Socket, meta: Json)
      modifies this, sock`incoming, sock`calls
      ensures Now(sock) == OnImage(old(Now(sock)), meta)
    {
      var field := UInt32(meta, "jpeg_size");
      if field.None? {
        exit := Some(Uncaught);
      } else if 0 < field.value < MAX_JPEG {
        var jpeg := new byte[field.value];
        var ok := RecvExact(sock, jpeg, field.value);
        if ok {
          assert jpeg[..] == jpeg[..field.value];
          events := events + [ImageEvent(meta, jpeg[..])];
        }
      }
    }

    method DispatchPushEvent(sock: Socket, kind: byte, body: seq<byte>)
      modifies this, sock`incoming, sock`calls
      ensures Now(sock) == Dispatch(codec, old(Now(sock)), kind, body)
    {
      if kind != CAMERA && kind != AVAILABLE && kind != AI && kind != IMAGE && kind != META {
        return;
      }
      var parsed := codec.parse(body);
      if parsed.None? {
        return;
      }
      var j := parsed.value;
      if kind == CAMERA {
        cachedCameras := j;
      } else if kind == AVAILABLE {
        cachedStatus := j;
      } else if kind == AI {
        events := events + [AiEvent(j)];
      } else if kind == META {
        events := events + [MetaEvent(j)];
      } else {
        ReadImage(sock, j);
      }
    }

    /** True as long as the connection is to be kept. */
    method HandleIncoming(sock: Socket) returns (keep: bool)
      requires exit.None?
      modifies this, sock`incoming, sock`calls
      ensures Now(sock) == Step(codec, old(Now(sock)))
      ensures keep <==> exit != Some(Disconnected)
    {
      var header := new byte[5];
      var ok := RecvExact(sock, header, 5);
      if !ok {
        exit := Some(Disconnected);
        return false;
      }
      assert header[..] == header[..5];
      assert header[1..] == old(sock.incoming)[1..5];
      var length := FromBigEndian(header[1..]);
      if length == 0 || length > MIB {
        return true;
      }
      var buf := new byte[length];
      ok := RecvExact(sock, buf, length);
      if !ok {
        exit := Some(Disconnected);
        return false;
      }
      assert buf[..] == buf[..length];
      DispatchPushEvent(sock, header[0], buf[..]);
      keep := true;
    }

    /** One connection: the receive loop ends when the link is lost or the server stops running. */
    method Serve(sock: Socket, selects: seq<Select>)
      requires exit != Some(Uncaught)
      modifies this, sock`incoming, sock`calls
      ensures Now(sock) == Run(codec, old(Now(sock)).(exit := None), selects)
    {
      exit := None;
      ghost var start := Now(sock);
      var i := 0;
      while i < |selects| && exit.None?
        invariant 0 <= i <= |selects|
        invariant Run(codec, Now(sock), selects[i..]) == Run(codec, start, selects)
      {
        var ret := selects[i];
        i := i + 1;
        if ret == Failed {
          exit := Some(SelectFailed);
        } else if ret == Ready {
          var _ := HandleIncoming(sock);
        }
      }
    }
  }

  /** The receive loop of one connection. */
  function Run(c: Codec, st: State, selects: seq<Select>): State
    decreases |selects|
  {
    if selects == [] || st.exit.Some? then st
    else match selects[0]
      case Failed => st.(exit := Some(SelectFailed))
      case TimedOut => Run(c, st, selects[1..])
      case Ready => Run(c, Step(c, st), selects[1..])
  }

  function DeclaredSize(c: Codec, body: seq<byte>): Option<nat> {
    match c.parse(body)
    case None => None
    case Some(j) => UInt32(j, "jpeg_size")
  }

  predicate Aligned(c: Codec, f: Frame) {
    var size := DeclaredSize(c, f.body);
    && |f.body| <= MIB
    && if f.kind == IMAGE && f.body != [] && size.Some? && 0 < size.value < MAX_JPEG
       then |f.tail| == size.value
       else f.tail == []
  }

  /** Whether the step read all it asked for; a short image leaves an empty stream and no event. */
  predicate CutShort(c: Codec, st: State) {
    match ReadHead(st.input)
    case Short => true
    case Head(kind, length, rest) =>
      && 0 < length <= MIB
      && (|rest| < length ||
          (kind == IMAGE &&
           var size := DeclaredSize(c, rest[..length]);
           size.Some? && 0 < size.value < MAX_JPEG && |rest| < length + size.value))
  }

  /** The client stays on a frame boundary exactly for the aligned frames, whatever follows. */
  lemma AlignedExactly(c: Codec, st: State, f: Frame, rest: seq<byte>)
    requires st.exit.None? && |f.body| < LIMIT && st.input == Encode(f) + rest
    ensures (!CutShort(c, st) && Step(c, st).input == rest) <==> Aligned(c, f)
  {
    hide Encode, ReadHead;
    HeadOfFrame(f, rest);
    assert |f.body + (f.tail + rest)| == |f.body| + |f.tail| + |rest|;
  }

  /** A frame the client gets through without an uncaught exception. */
  predicate Accepted(c: Codec, f: Frame) {
    && f.body != []
    && Aligned(c, f)
    && (f.kind == IMAGE && c.parse(f.body).Some? ==> UInt32(c.parse(f.body).value, "jpeg_size").Some?)
  }

  /** What one whole frame does: the last well-formed push of a type is the cache. */
  function Absorb(c: Codec, st: State, f: Frame): State {
    match c.parse(f.body)
    case None => st
    case Some(j) =>
      if f.kind == CAMERA then st.(cameras := j)
      else if f.kind == AVAILABLE then st.(status := j)
      else if f.kind == AI then Emit(st, AiEvent(j))
      else if f.kind == META then Emit(st, MetaEvent(j))
      else if f.kind == IMAGE && f.tail != [] then Emit(st, ImageEvent(j, f.tail))
      else st
  }

  lemma AbsorbedFrame(c: Codec, st: State, f: Frame, rest: seq<byte>)
    requires st.exit.None? && Accepted(c, f) && st.input == Encode(f) + rest
    ensures Step(c, st) == Absorb(c, st.(input := rest), f)
    ensures Step(c, st).input == rest && Step(c, st).exit.None?
  {
    hide Encode, ReadHead;
    HeadOfFrame(f, rest);
  }
}
