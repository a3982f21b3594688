/** What the client server asks of the device server over the link arrives as it was asked, in order. */
module LinkRequests {
  import opened Common
  import opened Json
  import opened Wire
  import opened InternalServer

  /** The frame asks for this: a list or a status with any sound body or none, a motor command with both its words. */
  predicate Asks(c: Codec, f: Frame, e: Event) {
    && f.tail == [] && |f.body| < 1_048_576
    && match e
       case CameraRequest => f.kind == 0x07 && (f.body == [] || c.parse(f.body).Some?)
       case StatusRequest => f.kind == 0x05 && (f.body == [] || c.parse(f.body).Some?)
       case MotorCommand(ip, motor) =>
         && f.kind == 0x04 && f.body != [] && c.parse(f.body).Some? && c.parse(f.body).value.Object?
         && var fields := c.parse(f.body).value.fields;
         && "device" in fields && fields["device"] == Str(ip) && ip != ""
         && "motor" in fields && fields["motor"] == Str(motor) && motor != ""
  }

  /** The passes of the request loop. */
  function Served(c: Codec, st: State, rounds: nat): State
    decreases rounds
  {
    if rounds == 0 || st.exit.Some? then st else Served(c, Step(c, st), rounds - 1)
  }

  lemma OneRequest(c: Codec, st: State, f: Frame, e: Event, rest: seq<byte>)
    requires st.exit.None? && Asks(c, f, e) && st.input == Encode(f) + rest
    ensures Step(c, st) == st.(input := rest, events := st.events + [e])
  {
    hide Encode, ReadHead;
    HeadOfFrame(f, rest);
  }

  lemma {:induction false} RequestsInOrder(c: Codec, st: State, fs: seq<Frame>, es: seq<Event>, k: nat)
    requires st.exit.None? && |fs| == |es| && st.input == EncodeAll(fs) && k <= |fs|
    requires forall i :: 0 <= i < |fs| ==> Asks(c, fs[i], es[i])
    ensures Served(c, st, k) == st.(input := EncodeAll(fs[k..]), events := st.events + es[..k])
    decreases k
  {
    hide Step, Asks, Encode;
    if k == 0 {
      assert fs[0..] == fs;
    } else {
      OneRequest(c, st, fs[0], es[0], EncodeAll(fs[1..]));
      RequestsInOrder(c, Step(c, st), fs[1..], es[1..], k - 1);
      assert fs[1..][k - 1..] == fs[k..] && es[..k] == [es[0]] + es[1..][..k - 1];
      ConcatAssociative(st.events, [es[0]], es[1..][..k - 1]);
    }
  }

  /** A body of a megabyte or more is not looked at: a list or a status is answered all the same, a command is lost. */
  lemma OversizedRequest(c: Codec, st: State, f: Frame, rest: seq<byte>)
    requires st.exit.None? && 1_048_576 <= |f.body| < 0x1_0000_0000 && st.input == Encode(f) + rest
    ensures Step(c, st) == st.(input := f.body + (f.tail + rest),
                               events := st.events + if f.kind == 0x07 then [CameraRequest]
                                                     else if f.kind == 0x05 then [StatusRequest] else [])
  {
    hide Encode, ReadHead, OnRequest;
    HeadOfFrame(f, rest);
    assert Step(c, st) == OnRequest(st.(input := f.body + (f.tail + rest)), f.kind, Object(map[]));
    EmptyRequest(st.(input := f.body + (f.tail + rest)), f.kind);
  }

  lemma EmptyRequest(st: State, kind: byte)
    ensures OnRequest(st, kind, Object(map[])) ==
            st.(events := st.events + if kind == 0x07 then [CameraRequest] else if kind == 0x05 then [StatusRequest] else [])
  {
    assert st.events + [] == st.events;
  }

  /** The requests that ask for nothing: an unknown type, a body that does not parse, a command without both its words. */
  lemma AsksNothing(c: Codec, st: State, f: Frame, rest: seq<byte>)
    requires st.exit.None? && f.tail == [] && |f.body| < 1_048_576 && st.input == Encode(f) + rest
    requires || (f.kind != 0x07 && f.kind != 0x05 && f.kind != 0x04)
             || (f.body != [] && c.parse(f.body).None?)
             || (f.kind == 0x04 && f.body == [])
             || (f.kind == 0x04 && match c.parse(f.body)
                   case Some(Object(fields)) =>
                     && (forall k :: k in ["device", "motor"] && k in fields ==> fields[k].Str?)
                     && exists k :: k in ["device", "motor"] && (k !in fields || fields[k] == Str(""))
                   case _ => false)
    ensures Step(c, st) == st.(input := rest)
  {
    hide Encode, ReadHead;
    HeadOfFrame(f, rest);
  }
}
