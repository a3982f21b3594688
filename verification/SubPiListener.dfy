/** The thread that reads the frames of one Sub-Pi. */
module SubPiListener {
  import opened Common
  import opened Json
  import opened NetUtil
  import opened Wire

  const MAX_JPEG := 10 * MIB

  datatype Exit = Disconnected | SelectFailed | TooManyErrors | Uncaught

  datatype Event =
    | AiEvent(event: Json)
    | MetaEvent(data: Json)
    | ImageEvent(meta: Json, jpeg: seq<byte>)
    | StatusEvent(status: Json)

  /** How one frame was judged: skipped frames neither raise nor reset the error count. */
  datatype Verdict = Good | Malformed | Skipped

  /** The listener between two steps: unread bytes, error count, everything it has done so far. */
  datatype State = State(input: seq<byte>, errors: nat, events: seq<Event>, log: seq<Verdict>, exit: Option<Exit>)

  function Emit(st: State, e: Event): State {
    st.(errors := 0, events := st.events + [e], log := st.log + [Good])
  }

  function Skip(st: State): State {
    st.(log := st.log + [Skipped])
  }

  function Fail(st: State): State {
    st.(errors := st.errors + 1, log := st.log + [Malformed],
        exit := if st.errors + 1 >= 3 then Some(TooManyErrors) else st.exit)
  }

  function Stop(st: State, why: Exit): State {
    st.(exit := Some(why))
  }

  function OnImage(st: State, meta: Json): State {
    match UInt32(meta, "jpeg_size")
    case None => Stop(st, Uncaught)
    case Some(size) =>
      if size == 0 || size > MAX_JPEG then Skip(st)
      else if |st.input| < size then Stop(st.(input := []), Disconnected)
      else
        var rest := st.(input := st.input[size..]);
        if !Numeric(meta, "frame_index") || !Numeric(meta, "total_frames") then Stop(rest, Uncaught)
        else Emit(rest, ImageEvent(meta, st.input[..size]))
  }

  function OnBody(c: Codec, key: string, st: State, kind: byte, body: seq<byte>): State
    requires |key| >= 6
  {
    if kind != AI && kind != IMAGE && kind != AVAILABLE && kind != META then Skip(st)
    else match c.parse(body)
      case None => Fail(st)
      case Some(j) =>
        if kind == AVAILABLE then
          if Numeric(j, "cpu") && Numeric(j, "memory") && Numeric(j, "temp") then Emit(st, StatusEvent(j))
          else Stop(st, Uncaught)
        else match Decorate(j, key)
          case None => Stop(st, Uncaught)
          case Some(d) =>
            if kind == AI then Emit(st, AiEvent(d))
            else if kind == META then Emit(st, MetaEvent(d))
            else OnImage(st, d)
  }

  /** One pass of the loop after `select` reported data. */
  function Step(c: Codec, key: string, st: State): State
    requires |key| >= 6
  {
    match ReadHead(st.input)
    case Short => Stop(st.(input := []), Disconnected)
    case Head(kind, length, rest) =>
      if length == 0 || length > MIB then Skip(st.(input := rest))
      else if |rest| < length then Stop(st.(input := []), Disconnected)
      else OnBody(c, key, st.(input := rest[length..]), kind, rest[..length])
  }

  /** The whole loop; the server stops running after `selects`. */
  function Run(c: Codec, key: string, st: State, selects: seq<Select>): State
    requires |key| >= 6
    decreases |selects|
  {
    if selects == [] || st.exit.Some? then st
    else match selects[0]
      case Failed => Stop(st, SelectFailed)
      case TimedOut => Run(c, key, st, selects[1..])
      case Ready => Run(c, key, Step(c, key, st), selects[1..])
  }

  class Listener {
    const codec: Codec
    const key: string
    const sock: Socket
    var errorCount: nat
    var events: seq<Event>
    var exit: Option<Exit>
    ghost var log: seq<Verdict>

    constructor (codec: Codec, key: string, sock: Socket)
      ensures this.codec == codec && this.key == key && this.sock == sock
      ensures Now() == State(sock.incoming, 0, [], [], None)
    {
      this.codec, this.key, this.sock := codec, key, sock;
      errorCount, events, exit, log := 0, [], None, [];
    }

    ghost function Now(): State
      reads this, sock
    {
      State(sock.incoming, errorCount, events, log, exit)
    }

    method Deliver(e: Event)
      modifies this`events, this`errorCount, this`log
      ensures Now() == Emit(old(Now()), e)
    {
      events := events + [e];
      errorCount := 0;
      log := log + [Good];
    }

    method CountError()
      modifies this`errorCount, this`exit, this`log
      ensures Now() == Fail(old(Now()))
    {
      errorCount := errorCount + 1;
      log := log + [Malformed];
      if errorCount >= 3 {
        exit := Some(TooManyErrors);
      }
    }

    method ReadImage(meta: Json)
      modifies this`events, this`errorCount, this`log, this`exit, sock`incoming, sock`calls
      ensures Now() == OnImage(old(Now()), meta)
    {
      var field := UInt32(meta, "jpeg_size");
      if field.None? {
        exit := Some(Uncaught);
        return;
      }
      var size := field.value;
      if size == 0 || size > MAX_JPEG {
        log := log + [Skipped];
        return;
      }
      var jpeg := new byte[size];
      var ok := RecvExact(sock, jpeg, size);
      if !ok {
        exit := Some(Disconnected);
        return;
      }
      if !Numeric(meta, "frame_index") || !Numeric(meta, "total_frames") {
        exit := Some(Uncaught);
        return;
      }
      assert jpeg[..] == jpeg[..size];
      Deliver(ImageEvent(meta, jpeg[..]));
    }

    method Dispatch(kind: byte, body: seq<byte>)
      requires |key| >= 6
      modifies this`events, this`errorCount, this`log, this`exit, sock`incoming, sock`calls
      ensures Now() == OnBody(codec, key, old(Now()), kind, body)
    {
      if kind != AI && kind != IMAGE && kind != AVAILABLE && kind != META {
        log := log + [Skipped];
        return;
      }
      var parsed := codec.parse(body);
      if parsed.None? {
        CountError();
        return;
      }
      var j := parsed.value;
      if kind == AVAILABLE {
        if Numeric(j, "cpu") && Numeric(j, "memory") && Numeric(j, "temp") {
          Deliver(StatusEvent(j));
        } else {
          exit := Some(Uncaught);
        }
        return;
      }
      var decorated := Decorate(j, key);
      if decorated.None? {
        exit := Some(Uncaught);
        return;
      }
      if kind == AI {
        Deliver(AiEvent(decorated.value));
      } else if kind == META {
        Deliver(MetaEvent(decorated.value));
      } else {
        ReadImage(decorated.value);
      }
    }

    method ReadFrame()
      requires |key| >= 6
      modifies this`events, this`errorCount, this`log, this`exit, sock`incoming, sock`calls
      ensures Now() == Step(codec, key, old(Now()))
    {
      var header := new byte[5];
      var ok := RecvExact(sock, header, 5);
      if !ok {
        exit := Some(Disconnected);
        return;
      }
      assert header[..] == header[..5];
      assert header[1..] == old(sock.incoming)[1..5];
      var kind, length := header[0], FromBigEndian(header[1..]);
      if length == 0 || length > MIB {
        log := log + [Skipped];
        return;
      }
      var buf := new byte[length];
      ok := RecvExact(sock, buf, length);
      if !ok {
        exit := Some(Disconnected);
        return;
      }
      assert buf[..] == buf[..length];
      Dispatch(kind, buf[..]);
    }

    /** Whatever the kernel's chunk sizes, the loop does what `Run` does on the delivered bytes. */
    method Listen(selects: seq<Select>)
      requires |key| >= 6 && exit.None?
      modifies this`events, this`errorCount, this`log, this`exit, sock`incoming, sock`calls
      ensures Now() == Run(codec, key, old(Now()), selects)
    {
      var i := 0;
      while i < |selects| && exit.None?
        invariant 0 <= i <= |selects|
        invariant Run(codec, key, Now(), selects[i..]) == Run(codec, key, old(Now()), selects)
      {
        var ret := selects[i];
        i := i + 1;
        if ret == Failed {
          exit := Some(SelectFailed);
        } else if ret == Ready {
          ReadFrame();
        }
      }
    }
  }
}
