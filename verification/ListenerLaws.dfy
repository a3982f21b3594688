/** What the Sub-Pi listener promises: exact alignment, delivery, the meaning of the error count. */
module ListenerLaws {
  import opened Common
  import opened Json
  import opened NetUtil
  import opened Wire
  import opened SubPiListener

  /** The image size a body declares, when it parses to something that can carry one. */
  function DeclaredSize(c: Codec, key: string, body: seq<byte>): Option<nat>
    requires |key| >= 6
  {
    match c.parse(body)
    case None => None
    case Some(j) => match Decorate(j, key)
      case None => None
      case Some(d) => UInt32(d, "jpeg_size")
  }

  /** The frames after which the listener stands where its sender's next frame begins. */
  predicate Aligned(c: Codec, key: string, f: Frame)
    requires |key| >= 6
  {
    var size := DeclaredSize(c, key, f.body);
    && |f.body| <= MIB
    && if f.kind == IMAGE && f.body != [] && size.Some? && 0 < size.value <= MAX_JPEG
       then |f.tail| == size.value
       else f.tail == []
  }

  /** The listener stays on a frame boundary exactly for the aligned frames, whatever follows. */
  lemma AlignedExactly(c: Codec, key: string, st: State, f: Frame, rest: seq<byte>)
    requires |key| >= 6 && st.exit.None? && |f.body| < LIMIT && st.input == Encode(f) + rest
    ensures var next := Step(c, key, st);
            (next.exit != Some(Disconnected) && next.input == rest) <==> Aligned(c, key, f)
  {
    hide Encode, ReadHead;
    HeadOfFrame(f, rest);
    assert |f.body + (f.tail + rest)| == |f.body| + |f.tail| + |rest|;
  }

  /** A frame the listener turns into an event. */
  predicate Delivers(c: Codec, key: string, f: Frame)
    requires |key| >= 6
  {
    && 0 < |f.body| <= MIB
    && c.parse(f.body).Some?
    && var j := c.parse(f.body).value;
    if f.kind == AVAILABLE then f.tail == [] && Numeric(j, "cpu") && Numeric(j, "memory") && Numeric(j, "temp")
    else if f.kind == AI || f.kind == META then f.tail == [] && (j.Null? || j.Object?)
    else
      && f.kind == IMAGE && j.Object?
      && UInt32(j, "jpeg_size") == Some(|f.tail|) && 0 < |f.tail| <= MAX_JPEG
      && Numeric(j, "frame_index") && Numeric(j, "total_frames")
  }

  /** The sender's object with the two fields that say where it came from. */
  function Located(j: Json, ip: string): Json
    requires j.Null? || j.Object?
  {
    Object((if j.Null? then map[] else j.fields)["device_id" := Str(Key(SubPi(ip)))]["ip" := Str(ip)])
  }

  /** The event a frame stands for: the sender's object with its address, the image untouched. */
  function Meaning(c: Codec, ip: string, f: Frame): Event
    requires Delivers(c, Key(SubPi(ip)), f)
  {
    var j := c.parse(f.body).value;
    if f.kind == AVAILABLE then StatusEvent(j)
    else if f.kind == AI then AiEvent(Located(j, ip))
    else if f.kind == META then MetaEvent(Located(j, ip))
    else ImageEvent(Located(j, ip), f.tail)
  }

  function Meanings(c: Codec, ip: string, fs: seq<Frame>): (es: seq<Event>)
    requires forall f <- fs :: Delivers(c, Key(SubPi(ip)), f)
    ensures |es| == |fs|
  {
    if fs == [] then [] else [Meaning(c, ip, fs[0])] + Meanings(c, ip, fs[1..])
  }

  /** Decoration succeeds and does not disturb the fields the listener reads. */
  lemma Decorated(j: Json, ip: string)
    requires j.Null? || j.Object?
    ensures Decorate(j, Key(SubPi(ip))) == Some(Located(j, ip))
    ensures j.Object? ==>
              && UInt32(Located(j, ip), "jpeg_size") == UInt32(j, "jpeg_size")
              && (Numeric(Located(j, ip), "frame_index") <==> Numeric(j, "frame_index"))
              && (Numeric(Located(j, ip), "total_frames") <==> Numeric(j, "total_frames"))
  {
    AddressOfKey(ip);
  }

  lemma DeliveredBody(c: Codec, ip: string, st: State, f: Frame, rest: seq<byte>)
    requires Delivers(c, Key(SubPi(ip)), f) && st.input == f.tail + rest
    ensures OnBody(c, Key(SubPi(ip)), st, f.kind, f.body) == Emit(st.(input := rest), Meaning(c, ip, f))
  {
    var j := c.parse(f.body).value;
    assert st.input[|f.tail|..] == rest && st.input[..|f.tail|] == f.tail;
    if f.kind != AVAILABLE {
      Decorated(j, ip);
    }
    hide Key, Decorate, UInt32, Numeric, Located;
  }

  lemma DeliveredFrame(c: Codec, ip: string, st: State, f: Frame, rest: seq<byte>)
    requires st.exit.None? && st.input == Encode(f) + rest
    requires Delivers(c, Key(SubPi(ip)), f)
    ensures Step(c, Key(SubPi(ip)), st) == Emit(st.(input := rest), Meaning(c, ip, f))
  {
    HeadOfFrame(f, rest);
    DeliveredBody(c, ip, st.(input := f.tail + rest), f, rest);
    hide Encode, ReadHead, OnBody, Meaning, Key;
  }

  /** The object describes this picture: its size is the number of bytes, and its counters are numbers if they are there. */
  predicate Describes(fields: map<string, Json>, jpeg: seq<byte>) {
    && "jpeg_size" in fields && fields["jpeg_size"] == Number(|jpeg|)
    && ("frame_index" in fields ==> fields["frame_index"].Number?)
    && ("total_frames" in fields ==> fields["total_frames"].Number?)
  }

  /** Every picture of up to 10 MiB that is sent with its own size arrives as it was sent, with all that was said of it. */
  lemma ImageDelivered(c: Codec, ip: string, st: State, body: seq<byte>, fields: map<string, Json>, jpeg: seq<byte>, rest: seq<byte>)
    requires st.exit.None? && st.input == Encode(Frame(IMAGE, body, jpeg)) + rest
    requires 0 < |body| <= 1_048_576 && c.parse(body) == Some(Object(fields))
    requires 0 < |jpeg| <= 10_485_760 && Describes(fields, jpeg)
    ensures var next := Step(c, Key(SubPi(ip)), st);
            && next.input == rest && next.errors == 0 && next.exit.None?
            && next.events == st.events +
                 [ImageEvent(Object(fields["device_id" := Str("SubPi_" + ip)]["ip" := Str(ip)]), jpeg)]
  {
    var f := Frame(IMAGE, body, jpeg);
    DescribedDelivers(c, ip, body, fields, jpeg);
    DeliveredFrame(c, ip, st, f, rest);
    hide Step, Delivers, UInt32;
  }

  lemma DescribedDelivers(c: Codec, ip: string, body: seq<byte>, fields: map<string, Json>, jpeg: seq<byte>)
    requires 0 < |body| <= 1_048_576 && c.parse(body) == Some(Object(fields))
    requires 0 < |jpeg| <= 10_485_760 && Describes(fields, jpeg)
    ensures Delivers(c, Key(SubPi(ip)), Frame(IMAGE, body, jpeg))
  {
    UInt32Exactly(Object(fields), "jpeg_size", |jpeg|);
    hide UInt32;
  }

  lemma EmptyStream(c: Codec, key: string, st: State)
    requires |key| >= 6 && st.input == []
    ensures Step(c, key, st) == Stop(st, Disconnected)
  {
  }

  /**
    * However the waits fall, the events are the meanings of the frames sent, in order and none
    * twice; after enough passes they are the meanings of all of them.
    */
  lemma {:induction false} DeliveredInOrder(c: Codec, ip: string, st: State, fs: seq<Frame>, selects: seq<Select>)
    requires st.exit.None? && st.input == EncodeAll(fs)
    requires forall f <- fs :: Delivers(c, Key(SubPi(ip)), f)
    requires Failed !in selects
    ensures var n := if ReadyCount(selects) < |fs| then ReadyCount(selects) else |fs|;
            var end := Run(c, Key(SubPi(ip)), st, selects);
            && end.events == st.events + Meanings(c, ip, fs)[..n]
            && (end.exit.None? || end.exit == Some(Disconnected))
            && (n == |fs| ==> end.input == [])
    decreases |selects|
  {
    hide Step, Delivers, Meaning;
    var key := Key(SubPi(ip));
    if selects != [] {
      if selects[0] == TimedOut {
        DeliveredInOrder(c, ip, st, fs, selects[1..]);
      } else if fs == [] {
        EmptyStream(c, key, st);
        assert Run(c, key, Step(c, key, st), selects[1..]) == Step(c, key, st);
      } else {
        DeliveredFrame(c, ip, st, fs[0], EncodeAll(fs[1..]));
        DeliveredInOrder(c, ip, Step(c, key, st), fs[1..], selects[1..]);
      }
    }
  }

  /** Length of the run of malformed frames that ends the log; skipped frames do not break it. */
  function TrailingMalformed(log: seq<Verdict>): nat {
    if log == [] then 0
    else match log[|log| - 1]
      case Good => 0
      case Malformed => 1 + TrailingMalformed(log[..|log| - 1])
      case Skipped => TrailingMalformed(log[..|log| - 1])
  }

  ghost predicate CountsErrors(st: State) {
    && st.errors == TrailingMalformed(st.log)
    && (forall n :: 0 <= n < |st.log| ==> TrailingMalformed(st.log[..n]) < 3)
    && (st.exit == Some(TooManyErrors) <==> st.errors >= 3)
  }

  lemma CountExtends(st: State, log: seq<Verdict>, v: Verdict)
    requires CountsErrors(st) && st.exit.None? && log == st.log + [v]
    ensures forall n :: 0 <= n < |log| ==> TrailingMalformed(log[..n]) < 3
    ensures TrailingMalformed(log) == match v case Good => 0 case Malformed => st.errors + 1 case Skipped => st.errors
  {
    assert log[..|st.log|] == st.log;
    forall n | 0 <= n < |log|
      ensures TrailingMalformed(log[..n]) < 3
    {
      if n < |st.log| {
        assert log[..n] == st.log[..n];
      }
    }
  }

  /** One pass logs at most one verdict, and the counter and the exit follow it. */
  ghost predicate Logs(st: State, next: State) {
    || (next.log == st.log && next.errors == st.errors && next.exit != Some(TooManyErrors))
    || (exists v :: next.log == st.log + [v]
         && next.errors == (match v case Good => 0 case Malformed => st.errors + 1 case Skipped => st.errors)
         && (next.exit == Some(TooManyErrors) <==> v == Malformed && next.errors >= 3))
  }

  lemma StepLogs(c: Codec, key: string, st: State)
    requires |key| >= 6 && st.exit.None?
    ensures Logs(st, Step(c, key, st))
  {
    hide ReadHead;
    var next := Step(c, key, st);
    if next.log != st.log {
      assert next.log == st.log + [next.log[|next.log| - 1]];
    }
  }

  lemma LoggedCounts(st: State, next: State)
    requires CountsErrors(st) && st.exit.None? && Logs(st, next)
    ensures CountsErrors(next)
  {
    hide TrailingMalformed;
    if next.log != st.log {
      CountExtends(st, next.log, next.log[|next.log| - 1]);
    }
  }

  /**
    * The error count is the trailing run of malformed frames, so the listener gives up exactly at
    * the first run of three: no earlier point of its log had one.
    */
  lemma {:induction false} ErrorCountMeaning(c: Codec, key: string, st: State, selects: seq<Select>)
    requires |key| >= 6 && CountsErrors(st)
    ensures CountsErrors(Run(c, key, st, selects))
    decreases |selects|
  {
    if selects != [] && st.exit.None? {
      match selects[0]
      case Failed =>
      case TimedOut => ErrorCountMeaning(c, key, st, selects[1..]);
      case Ready =>
        hide Step, Logs, CountsErrors;
        StepLogs(c, key, st);
        LoggedCounts(st, Step(c, key, st));
        ErrorCountMeaning(c, key, Step(c, key, st), selects[1..]);
    }
  }

  /** The same for the whole loop: no run of a new listener counts wrong or quits early or late. */
  lemma ErrorsCountedFromStart(c: Codec, key: string, input: seq<byte>, selects: seq<Select>)
    requires |key| >= 6
    ensures CountsErrors(Run(c, key, State(input, 0, [], [], None), selects))
  {
    ErrorCountMeaning(c, key, State(input, 0, [], [], None), selects);
  }
}
