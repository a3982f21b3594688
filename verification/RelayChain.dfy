/** From the frames of the Sub-Pis to the callbacks that feed the Qt clients. */
module RelayChain {
  import opened Common
  import opened Json
  import opened NetUtil
  import opened Wire
  import Listener = SubPiListener
  import opened ListenerLaws
  import Client = InternalClient
  import opened ClientLaws
  import opened Pieces
  import Acceptor
  import Broadcast

  /** The frame broadcast for a listener event; status reports stay in the device server's cache. */
  function Relayed(c: Codec, e: Listener.Event): seq<Frame> {
    match e
    case AiEvent(j) => [Frame(AI, c.dump(j), [])]
    case MetaEvent(j) => [Frame(META, c.dump(j), [])]
    case ImageEvent(meta, jpeg) => [Frame(IMAGE, c.dump(meta), jpeg)]
    case StatusEvent(_) => []
  }

  function RelayedAll(c: Codec, es: seq<Listener.Event>): seq<Frame> {
    if es == [] then [] else Relayed(c, es[0]) + RelayedAll(c, es[1..])
  }

  /** A Sub-Pi frame that fits the limits of every reader on the way. */
  ghost predicate Passes(c: Codec, ip: string, f: Frame) {
    && Delivers(c, Key(SubPi(ip)), f)
    && (f.kind != AVAILABLE ==> |c.dump(Located(c.parse(f.body).value, ip))| <= MIB)
    && |f.tail| < 10 * MIB
  }

  /** What the client server should make of one Sub-Pi frame. */
  function Expected(c: Codec, ip: string, f: Frame): seq<Client.Event>
    requires Delivers(c, Key(SubPi(ip)), f)
  {
    var j := c.parse(f.body).value;
    if f.kind == AI then [Client.AiEvent(Located(j, ip))]
    else if f.kind == META then [Client.MetaEvent(Located(j, ip))]
    else if f.kind == IMAGE then [Client.ImageEvent(Located(j, ip), f.tail)]
    else []
  }

  function ExpectedAll(c: Codec, ip: string, fs: seq<Frame>): seq<Client.Event>
    requires forall f <- fs :: Delivers(c, Key(SubPi(ip)), f)
  {
    if fs == [] then [] else Expected(c, ip, fs[0]) + ExpectedAll(c, ip, fs[1..])
  }

  /** One hop over the link: the relayed frame is accepted and yields exactly the expected event. */
  lemma RelayedFrame(c: Codec, ip: string, f: Frame)
    requires c.Lawful() && Passes(c, ip, f)
    ensures forall g <- Relayed(c, Meaning(c, ip, f)) :: Client.Accepted(c, g)
    ensures AllEvents(c, Relayed(c, Meaning(c, ip, f))) == Expected(c, ip, f)
    ensures |Relayed(c, Meaning(c, ip, f))| == |Expected(c, ip, f)| <= 1
  {
    var j := c.parse(f.body).value;
    if f.kind != AVAILABLE {
      var d := Located(j, ip);
      assert Meaning(c, ip, f) == if f.kind == AI then Listener.AiEvent(d)
        else if f.kind == META then Listener.MetaEvent(d) else Listener.ImageEvent(d, f.tail);
      assert c.dump(d) != [] && c.parse(c.dump(d)) == Some(d);
      var g := Frame(f.kind, c.dump(d), f.tail);
      assert Relayed(c, Meaning(c, ip, f)) == [g];
      assert AllEvents(c, [g]) == EventsOf(c, g) + AllEvents(c, []);
    }
  }

  /**
    * A picture of less than 10 MiB that a Sub-Pi sends with its own size reaches the client server's callback with
    * every byte of it and all that was said of it, provided what is said still fits after decoration.
    */
  lemma ImageReachesClient(c: Codec, ip: string, body: seq<byte>, fields: map<string, Json>, jpeg: seq<byte>,
                           st: Client.State, rest: seq<byte>)
    requires c.Lawful() && 0 < |body| <= 1_048_576 && c.parse(body) == Some(Object(fields))
    requires 0 < |jpeg| < 10_485_760 && Describes(fields, jpeg)
    requires var d := Object(fields["device_id" := Str("SubPi_" + ip)]["ip" := Str(ip)]); |c.dump(d)| <= 1_048_576
    ensures var f := Frame(IMAGE, body, jpeg);
            var d := Object(fields["device_id" := Str("SubPi_" + ip)]["ip" := Str(ip)]);
            && Delivers(c, Key(SubPi(ip)), f)
            && var out := Relayed(c, Meaning(c, ip, f));
            && |out| == 1
            && (st.exit.None? && st.input == Encode(out[0]) + rest ==>
                  var next := Client.Step(c, st);
                  next.input == rest && next.exit.None? && next.events == st.events + [Client.ImageEvent(d, jpeg)])
  {
    var f := Frame(IMAGE, body, jpeg);
    DescribedDelivers(c, ip, body, fields, jpeg);
    var d := Located(Object(fields), ip);
    assert d == Object(fields["device_id" := Str("SubPi_" + ip)]["ip" := Str(ip)]);
    assert c.dump(d) != [] && c.parse(c.dump(d)) == Some(d);
    var g := Frame(IMAGE, c.dump(d), jpeg);
    assert Relayed(c, Meaning(c, ip, f)) == [g];
    UInt32Exactly(d, "jpeg_size", |jpeg|);
    if st.exit.None? && st.input == Encode(g) + rest {
      hide Encode, UInt32;
      AbsorbedPicture(c, st, g, rest, d);
    }
  }

  lemma AbsorbedPicture(c: Codec, st: Client.State, g: Frame, rest: seq<byte>, d: Json)
    requires g.kind == IMAGE && c.parse(g.body) == Some(d) && UInt32(d, "jpeg_size") == Some(|g.tail|)
    requires 0 < |g.tail| < 10_485_760 && 0 < |g.body| <= 1_048_576
    requires st.exit.None? && st.input == Encode(g) + rest
    ensures var next := Client.Step(c, st);
            next.input == rest && next.exit.None? && next.events == st.events + [Client.ImageEvent(d, g.tail)]
  {
    hide Encode, UInt32;
    Client.AbsorbedFrame(c, st, g, rest);
    hide Client.Step;
  }

  /**
    * The limits of the two readers differ: a frame the listener delivers keeps the client aligned
    * exactly when its decorated body still fits in a megabyte and its image stays below ten.
    */
  lemma RelayAlignedExactly(c: Codec, ip: string, f: Frame)
    requires c.Lawful() && Delivers(c, Key(SubPi(ip)), f) && f.kind != AVAILABLE
    ensures var out := Relayed(c, Meaning(c, ip, f));
            && |out| == 1 && out[0].tail == f.tail
            && (Client.Aligned(c, out[0]) <==> |out[0].body| <= MIB && |f.tail| < 10 * MIB)
  {
    var d := Located(c.parse(f.body).value, ip);
    assert c.parse(c.dump(d)) == Some(d);
    assert Relayed(c, Meaning(c, ip, f)) == [Frame(f.kind, c.dump(d), f.tail)];
  }

  lemma EventsOfPrefix(c: Codec, first: seq<Frame>, rest: seq<Frame>,
                       a: seq<Client.Event>, b: seq<Client.Event>, k: nat)
    requires |first| == |a| <= 1 && AllEvents(c, first) == a && |rest| == |b|
    requires forall i :: 0 <= i <= |rest| ==> AllEvents(c, rest[..i]) == b[..i]
    requires k <= |first + rest|
    ensures AllEvents(c, (first + rest)[..k]) == (a + b)[..k]
  {
    hide EventsOf;
    if k < |first| {
      assert (first + rest)[..k] == [];
    } else {
      assert (first + rest)[..k] == first + rest[..k - |first|];
      AllEventsAppend(c, first, rest[..k - |first|]);
    }
  }

  lemma {:induction false} RelayedList(c: Codec, ip: string, fs: seq<Frame>)
    requires c.Lawful() && forall f <- fs :: Passes(c, ip, f)
    ensures forall f <- fs :: Delivers(c, Key(SubPi(ip)), f)
    ensures var out := RelayedAll(c, Meanings(c, ip, fs));
            && (forall g <- out :: Client.Accepted(c, g))
            && |out| == |ExpectedAll(c, ip, fs)|
            && forall k :: 0 <= k <= |out| ==> AllEvents(c, out[..k]) == ExpectedAll(c, ip, fs)[..k]
  {
    assert forall f <- fs :: Passes(c, ip, f) && Delivers(c, Key(SubPi(ip)), f);
    if fs != [] {
      var first, rest := Relayed(c, Meaning(c, ip, fs[0])), RelayedAll(c, Meanings(c, ip, fs[1..]));
      RelayedFrame(c, ip, fs[0]);
      RelayedList(c, ip, fs[1..]);
      hide Passes, Delivers, Client.Accepted, Relayed, Meaning, Expected, EventsOf;
      forall k | 0 <= k <= |first + rest|
        ensures AllEvents(c, (first + rest)[..k]) == ExpectedAll(c, ip, fs)[..k]
      {
        EventsOfPrefix(c, first, rest, Expected(c, ip, fs[0]), ExpectedAll(c, ip, fs[1..]), k);
      }
    }
  }

  /** A Sub-Pi connection: its address, its frames, and how the waits of its listener fall. */
  datatype Source = Source(ip: string, frames: seq<Frame>, selects: seq<Select>)

  ghost predicate Relays(c: Codec, src: Source, program: seq<Frame>) {
    && (forall f <- src.frames :: Passes(c, src.ip, f))
    && Failed !in src.selects && ReadyCount(src.selects) >= |src.frames|
    && program == RelayedAll(c, Listener.Run(c, Key(SubPi(src.ip)),
                     Listener.State(EncodeAll(src.frames), 0, [], [], None), src.selects).events)
  }

  /** A thread that pushes the camera list or the device status. */
  ghost predicate Pushes(c: Codec, program: seq<Frame>) {
    forall f <- program :: Client.Accepted(c, f) && (f.kind == CAMERA || f.kind == AVAILABLE)
  }

  lemma SourceProgram(c: Codec, src: Source, program: seq<Frame>)
    requires c.Lawful() && Relays(c, src, program)
    ensures forall f <- src.frames :: Delivers(c, Key(SubPi(src.ip)), f)
    ensures program == RelayedAll(c, Meanings(c, src.ip, src.frames))
    ensures forall g <- program :: Client.Accepted(c, g)
    ensures var want := ExpectedAll(c, src.ip, src.frames);
            |program| == |want| && forall k :: 0 <= k <= |program| ==> AllEvents(c, program[..k]) == want[..k]
  {
    hide Client.Accepted, AllEvents, RelayedAll, Listener.Run, Delivers;
    RelayedList(c, src.ip, src.frames);
    var start := Listener.State(EncodeAll(src.frames), 0, [], [], None);
    DeliveredInOrder(c, src.ip, start, src.frames, src.selects);
    var es := Meanings(c, src.ip, src.frames);
    assert es[..|src.frames|] == es && start.events + es == es;
  }

  lemma {:induction false} LoggedFrames(c: Codec, log: seq<(Broadcast.Thread, Frame)>, f: Frame)
    requires f in Broadcast.Frames(log)
    ensures exists t :: f in Broadcast.Only(log, t)
  {
    if log[0].1 == f {
      assert f in Broadcast.Only(log, log[0].0);
    } else {
      assert Broadcast.Frames(log) == [log[0].1] + Broadcast.Frames(log[1..]);
      LoggedFrames(c, log[1..], f);
      var t :| f in Broadcast.Only(log[1..], t);
      assert f in Broadcast.Only(log, t);
    }
  }

  lemma {:induction false} LoggedThreads(p: Broadcast.Programs, log: seq<(Broadcast.Thread, Frame)>)
    requires forall e <- log :: e.0 in p
    ensures forall t :: t !in p ==> Broadcast.Only(log, t) == []
  {
    if log != [] {
      LoggedThreads(p, log[1..]);
    }
  }

  /** In a run only the given threads ever log. */
  lemma {:induction false} LogComesFromPrograms(p: Broadcast.Programs, s: Broadcast.State, steps: seq<Broadcast.Step>)
    requires Broadcast.Possible(p, s, steps) && forall e <- s.log :: e.0 in p
    ensures forall e <- Broadcast.After(p, s, steps).log :: e.0 in p
    decreases |steps|
  {
    if steps != [] {
      LogComesFromPrograms(p, Broadcast.Next(p, s, steps[0]), steps[1..]);
    }
  }

  lemma {:induction false} PushesYieldNothing(c: Codec, fs: seq<Frame>)
    requires Pushes(c, fs)
    ensures AllEvents(c, fs) == []
  {
    hide Client.Accepted;
    if fs != [] {
      PushesYieldNothing(c, fs[1..]);
    }
  }

  /** Each thread of the device server either relays one Sub-Pi or pushes lists. */
  ghost predicate Wired(c: Codec, sources: map<Broadcast.Thread, Source>, p: Broadcast.Programs) {
    && sources.Keys <= p.Keys
    && forall t :: t in p ==> if t in sources then Relays(c, sources[t], p[t]) else Pushes(c, p[t])
  }

  lemma WiredProgram(c: Codec, sources: map<Broadcast.Thread, Source>, p: Broadcast.Programs, t: Broadcast.Thread)
    requires c.Lawful() && Wired(c, sources, p) && t in p
    ensures forall g <- p[t] :: Client.Accepted(c, g)
  {
    hide Relays, Client.Accepted;
    if t in sources {
      SourceProgram(c, sources[t], p[t]);
    }
  }

  lemma LoggedAccepted(c: Codec, sources: map<Broadcast.Thread, Source>, p: Broadcast.Programs, s: Broadcast.State, f: Frame)
    requires c.Lawful() && Wired(c, sources, p)
    requires (forall e <- s.log :: e.0 in p) && Broadcast.InProgramOrder(p, s)
    requires f in Broadcast.Frames(s.log)
    ensures Client.Accepted(c, f)
  {
    hide Client.Accepted, Wired, Broadcast.Frames, Broadcast.Only;
    LoggedFrames(c, s.log, f);
    LoggedThreads(p, s.log);
    var t :| f in Broadcast.Only(s.log, t);
    WiredProgram(c, sources, p, t);
  }

  // ---- one connection of the client ----

  /** Cutting a stream of frames anywhere: whole frames, then the beginning of the next. */
  lemma {:induction false} CutStream(fs: seq<Frame>, got: seq<byte>) returns (k: nat, cut: seq<byte>)
    requires got <= EncodeAll(fs)
    ensures k <= |fs| && got == EncodeAll(fs[..k]) + cut && k <= |got|
    ensures if k < |fs| then cut < Encode(fs[k]) else cut == []
    ensures got == EncodeAll(fs) ==> k == |fs|
  {
    if fs == [] {
      k, cut := 0, [];
    } else {
      var first, rest := Encode(fs[0]), EncodeAll(fs[1..]);
      assert |first| >= 5;
      hide Encode;
      if |got| < |first| {
        k, cut := 0, got;
        FirstPart(first, rest, got);
      } else {
        RestPart(first, rest, got);
        var j, tail := CutStream(fs[1..], got[|first|..]);
        k, cut := j + 1, tail;
        assert fs[..k] == [fs[0]] + fs[1..][..j];
        ConcatAssociative(first, EncodeAll(fs[1..][..j]), cut);
      }
    }
  }

  lemma FirstPart(first: seq<byte>, rest: seq<byte>, got: seq<byte>)
    requires got <= first + rest && |got| < |first|
    ensures got < first
  {
    assert got == first[..|got|];
  }

  lemma RestPart(first: seq<byte>, rest: seq<byte>, got: seq<byte>)
    requires got <= first + rest && |first| <= |got|
    ensures got == first + got[|first|..] && got[|first|..] <= rest
    ensures got == first + rest ==> got[|first|..] == rest
  {
    assert got == (first + rest)[..|got|];
    assert got[|first|..] == rest[..|got| - |first|];
  }

  /** The handler's own frames yield no event, so what the client makes of a wire is what it makes of its broadcasts. */
  lemma {:induction false} EventsOfBroadcasts(c: Codec, ps: seq<Piece<Broadcast.Origin>>)
    requires Pushes(c, Broadcast.OwnOn(ps))
    ensures AllEvents(c, Broadcast.FramesOn(ps)) == AllEvents(c, Broadcast.BroadcastsOn(ps))
  {
    if ps != [] {
      var init, last := ps[..|ps| - 1], ps[|ps| - 1];
      assert forall f <- Broadcast.OwnOn(init) :: f in Broadcast.OwnOn(ps);
      EventsOfBroadcasts(c, init);
      var f := if last.from == 0 then [last.origin.frame] else [];
      var g := if last.from == 0 && last.origin.Logged? then [last.origin.frame] else [];
      AllEventsAppend(c, Broadcast.FramesOn(init), f);
      AllEventsAppend(c, Broadcast.BroadcastsOn(init), g);
      if last.from == 0 && last.origin.Own? {
        assert last.origin.frame in Broadcast.OwnOn(ps);
        hide Client.Accepted;
        assert EventsOf(c, last.origin.frame) == [];
      }
      hide EventsOf, Client.Accepted;
    }
  }

  /** The frames on a wire are its broadcasts and its own. */
  lemma {:induction false} FramesOfWire(ps: seq<Piece<Broadcast.Origin>>)
    ensures forall f <- Broadcast.FramesOn(ps) :: f in Broadcast.BroadcastsOn(ps) || f in Broadcast.OwnOn(ps)
  {
    if ps != [] {
      FramesOfWire(ps[..|ps| - 1]);
    }
  }

  lemma {:induction false} PrefixOfWire(ps: seq<Piece<Broadcast.Origin>>, k: nat)
    requires k <= |ps|
    ensures Broadcast.BroadcastsOn(ps[..k]) <= Broadcast.BroadcastsOn(ps)
    ensures Broadcast.OwnOn(ps[..k]) <= Broadcast.OwnOn(ps)
    ensures Broadcast.FramesOn(ps[..k]) <= Broadcast.FramesOn(ps)
  {
    if k < |ps| {
      PrefixOfWire(ps[..|ps| - 1], k);
      assert ps[..|ps| - 1][..k] == ps[..k];
    } else {
      assert ps[..k] == ps;
    }
  }

  /** A connection that has been entered, under a descriptor that was not still in the list. */
  ghost predicate Entered(s: Broadcast.State, link: Broadcast.Conn) {
    && link in s.lines && s.lines[link].since.Some? && s.lines[link].since.value <= |s.log|
    && link !in s.server.stillListed
  }

  /** Everything on the wire of a connection is acceptable to the client. */
  lemma WireAccepted(c: Codec, sources: map<Broadcast.Thread, Source>, p: Broadcast.Programs, s: Broadcast.State,
                     link: Broadcast.Conn)
    requires c.Lawful() && Wired(c, sources, p) && Broadcast.Inv(p, s) && (forall e <- s.log :: e.0 in p)
    requires Entered(s, link) && Pushes(c, Broadcast.OwnOn(s.lines[link].wire))
    ensures forall f <- Broadcast.FramesOn(s.lines[link].wire) :: Client.Accepted(c, f)
  {
    hide Client.Accepted, Wired, Broadcast.Lines, Broadcast.Holds, Acceptor.Inv, Broadcast.InProgramOrder, Broadcast.FramesOn,
      Broadcast.BroadcastsOn, Broadcast.OwnOn;
    var ps := s.lines[link].wire;
    FramesOfWire(ps);
    BroadcastsLogged(p, s, link);
    forall f | f in Broadcast.BroadcastsOn(ps)
      ensures Client.Accepted(c, f)
    {
      LoggedAccepted(c, sources, p, s, f);
    }
  }

  /** The broadcasts on a wire are a stretch of the log that begins where the connection was entered. */
  lemma BroadcastsLogged(p: Broadcast.Programs, s: Broadcast.State, link: Broadcast.Conn)
    requires Broadcast.Inv(p, s) && Entered(s, link)
    ensures Broadcast.BroadcastsOn(s.lines[link].wire) <= Broadcast.Frames(s.log[s.lines[link].since.value..])
    ensures forall f <- Broadcast.BroadcastsOn(s.lines[link].wire) :: f in Broadcast.Frames(s.log)
  {
    hide Broadcast.BroadcastsOn, Broadcast.OwnOn, Broadcast.IndexesOn, Broadcast.NumbersOn, Broadcast.InProgramOrder,
      Broadcast.Holds, Acceptor.Inv, Broadcast.Fits, Broadcast.Steady, Broadcast.Labels, Broadcast.Timed, Broadcast.Content;
    assert Broadcast.Fine(s, link);
    Broadcast.EndInLog(s, link);
    Broadcast.FramesOfContent(s, link);
    var a := s.lines[link].since.value;
    var k := |Broadcast.IndexesOn(s.lines[link].wire)|;
    hide Broadcast.Frames;
    Broadcast.FramesAppend(s.log[a..a + k], s.log[a + k..]);
    Broadcast.FramesAppend(s.log[..a], s.log[a..]);
    assert s.log[a..] == s.log[a..a + k] + s.log[a + k..] && s.log == s.log[..a] + s.log[a..];
  }

  /** What the client has read of one connection when it stops: any beginning of what the connection accepted. */
  ghost predicate Reads(c: Codec, s: Broadcast.State, link: Broadcast.Conn, got: seq<byte>, selects: seq<Select>) {
    && Entered(s, link) && !s.lines[link].overlapped && got <= Bytes(s.lines[link].wire)
    && Pushes(c, Broadcast.OwnOn(s.lines[link].wire))
    && Failed !in selects && ReadyCount(selects) > |got|
  }

  /** Nothing is under way to the connection and none of it is still to be read. */
  predicate CaughtUp(s: Broadcast.State, link: Broadcast.Conn, got: seq<byte>) {
    && Broadcast.Sound(s, link) && s.holder.None? && s.lines[link].direct.None?
    && got == Bytes(s.lines[link].wire)
  }

  /** The events of n broadcasts from the registration of the connection on. */
  ghost predicate Delivered(c: Codec, s: Broadcast.State, link: Broadcast.Conn, st: Client.State, end: Client.State, n: nat)
    requires Entered(s, link)
  {
    && s.lines[link].since.value + n <= |s.log|
    && end.events == st.events + AllEvents(c, Broadcast.Frames(s.log[s.lines[link].since.value..s.lines[link].since.value + n]))
    && (end.exit.None? || end.exit == Some(Client.Disconnected))
  }

  lemma WholeWire(p: Broadcast.Programs, s: Broadcast.State, link: Broadcast.Conn, got: seq<byte>)
    requires Broadcast.Inv(p, s) && Entered(s, link) && !s.lines[link].overlapped && got <= Bytes(s.lines[link].wire)
    ensures var ps := s.lines[link].wire;
            && Whole(ps) && |Broadcast.FramesOn(ps)| == |ps| && got <= EncodeAll(Broadcast.FramesOn(ps))
            && (CaughtUp(s, link, got) ==> got == EncodeAll(Broadcast.FramesOn(ps)))
  {
    hide Broadcast.Holds, Acceptor.Inv, Broadcast.InProgramOrder, Broadcast.Content, Bytes, Broadcast.FramesOn, EncodeAll,
      Broadcast.Timed, Broadcast.Steady, Broadcast.Fits, Broadcast.Labels, Whole;
    assert Broadcast.Fine(s, link);
    Broadcast.BytesOfWire(s, link);
    Broadcast.WholeFrames(s.lines[link].wire);
  }

  lemma ServedPart(c: Codec, st: Client.State, fs: seq<Frame>, k: nat, cut: seq<byte>, selects: seq<Select>)
    requires (forall f <- fs :: Client.Accepted(c, f)) && k <= |fs|
    requires st.exit.None? && st.input == EncodeAll(fs[..k]) + cut
    requires if k < |fs| then cut < Encode(fs[k]) else cut == []
    requires Failed !in selects && ReadyCount(selects) > k
    ensures Outcome(c, fs[..k], st, Client.Run(c, st, selects))
  {
    var any := Frame(ACK, [0], []);
    assert [] < Encode(any) && Client.Accepted(c, any);
    hide Client.Accepted, Client.Run, AllEvents, EncodeAll, Encode, Outcome;
    ServedStream(c, st, fs[..k], if k < |fs| then fs[k] else any, cut, selects);
  }

  /** The first k frames on a whole wire yield the events of a stretch of the log. */
  lemma StretchRead(c: Codec, p: Broadcast.Programs, s: Broadcast.State, link: Broadcast.Conn, k: nat) returns (n: nat)
    requires Broadcast.Inv(p, s) && Entered(s, link) && k <= |s.lines[link].wire| == |Broadcast.FramesOn(s.lines[link].wire)|
    requires Whole(s.lines[link].wire) && Pushes(c, Broadcast.OwnOn(s.lines[link].wire))
    ensures s.lines[link].since.value + n <= |s.log|
    ensures AllEvents(c, Broadcast.FramesOn(s.lines[link].wire)[..k]) ==
            AllEvents(c, Broadcast.Frames(s.log[s.lines[link].since.value..s.lines[link].since.value + n]))
    ensures k == |s.lines[link].wire| && Broadcast.Sound(s, link) && s.holder.None? ==> s.lines[link].since.value + n == |s.log|
  {
    var ps := s.lines[link].wire;
    hide Broadcast.Frames, Pushes, EncodeAll, Broadcast.FramesOn, Broadcast.BroadcastsOn, Broadcast.OwnOn, AllEvents,
      Broadcast.Sound, Broadcast.Inv;
    FirstFrames(ps, k);
    OwnAreFirst(c, ps, k);
    EventsOfBroadcasts(c, ps[..k]);
    n := ReadFromLog(p, s, link, k);
    if k == |ps| && Broadcast.Sound(s, link) && s.holder.None? {
      AllRead(p, s, link, k);
    }
  }

  lemma ReadFromLog(p: Broadcast.Programs, s: Broadcast.State, link: Broadcast.Conn, k: nat) returns (n: nat)
    requires Broadcast.Inv(p, s) && Entered(s, link) && k <= |s.lines[link].wire|
    ensures s.lines[link].since.value + n <= |s.log|
    ensures Broadcast.BroadcastsOn(s.lines[link].wire[..k]) ==
            Broadcast.Frames(s.log[s.lines[link].since.value..s.lines[link].since.value + n])
    ensures n == |Broadcast.BroadcastsOn(s.lines[link].wire[..k])|
  {
    hide Broadcast.Inv, Broadcast.Frames, Broadcast.BroadcastsOn, Broadcast.OwnOn, Broadcast.FramesOn;
    var ps := s.lines[link].wire;
    PrefixOfWire(ps, k);
    BroadcastsLogged(p, s, link);
    PrefixTrans(Broadcast.BroadcastsOn(ps[..k]), Broadcast.BroadcastsOn(ps), Broadcast.Frames(s.log[s.lines[link].since.value..]));
    n := BeginningOfLog(s.log, s.lines[link].since.value, Broadcast.BroadcastsOn(ps[..k]));
  }

  lemma AllRead(p: Broadcast.Programs, s: Broadcast.State, link: Broadcast.Conn, k: nat)
    requires Broadcast.Inv(p, s) && Entered(s, link) && k == |s.lines[link].wire|
    requires Broadcast.Sound(s, link) && s.holder.None?
    ensures s.lines[link].since.value + |Broadcast.BroadcastsOn(s.lines[link].wire[..k])| == |s.log|
  {
    hide Broadcast.Holds, Acceptor.Inv, Broadcast.InProgramOrder, Broadcast.BroadcastsOn, Broadcast.Frames, Broadcast.Fine,
      Acceptor.Open;
    assert Broadcast.Fine(s, link);
    Broadcast.AllBroadcastsThere(s, link);
    FramesCount(s.log[s.lines[link].since.value..]);
    assert s.lines[link].wire[..k] == s.lines[link].wire;
  }

  lemma FramesCount(log: seq<(Broadcast.Thread, Frame)>)
    ensures |Broadcast.Frames(log)| == |log|
  {
  }

  lemma OwnAreFirst(c: Codec, ps: seq<Piece<Broadcast.Origin>>, k: nat)
    requires k <= |ps| && Pushes(c, Broadcast.OwnOn(ps))
    ensures Pushes(c, Broadcast.OwnOn(ps[..k]))
  {
    hide Client.Accepted;
    PrefixOfWire(ps, k);
    assert forall f <- Broadcast.OwnOn(ps[..k]) :: f in Broadcast.OwnOn(ps);
  }

  lemma BeginningOfLog(log: seq<(Broadcast.Thread, Frame)>, i: nat, fs: seq<Frame>) returns (n: nat)
    requires i <= |log| && fs <= Broadcast.Frames(log[i..])
    ensures i + n <= |log| && fs == Broadcast.Frames(log[i..i + n]) && n == |fs|
  {
    n := |fs|;
    assert log[i..][..n] == log[i..i + n];
  }

  lemma FirstFrames(ps: seq<Piece<Broadcast.Origin>>, k: nat)
    requires Whole(ps) && k <= |ps| == |Broadcast.FramesOn(ps)|
    ensures Broadcast.FramesOn(ps)[..k] == Broadcast.FramesOn(ps[..k])
  {
    hide EncodeAll, Bytes;
    PrefixOfWire(ps, k);
    assert Whole(ps[..k]);
    Broadcast.WholeFrames(ps[..k]);
    Broadcast.WholeFrames(ps);
  }

  lemma ClientSees(c: Codec, sources: map<Broadcast.Thread, Source>, p: Broadcast.Programs, s: Broadcast.State,
                   link: Broadcast.Conn, got: seq<byte>, selects: seq<Select>, st: Client.State) returns (n: nat)
    requires c.Lawful() && Wired(c, sources, p) && Broadcast.Inv(p, s) && (forall e <- s.log :: e.0 in p)
    requires Reads(c, s, link, got, selects) && st.exit.None? && st.input == got
    ensures Delivered(c, s, link, st, Client.Run(c, st, selects), n)
    ensures CaughtUp(s, link, got) ==> s.lines[link].since.value + n == |s.log|
  {
    hide Wired, Broadcast.Inv, Broadcast.Sound, Whole, Bytes, Broadcast.FramesOn, Broadcast.OwnOn, Broadcast.Frames,
      EncodeAll, Encode, AllEvents, LastPush, Client.Run, Client.Accepted, Pushes, ReadyCount;
    var ps := s.lines[link].wire;
    var fs := Broadcast.FramesOn(ps);
    WireAccepted(c, sources, p, s, link);
    WholeWire(p, s, link, got);
    var k, cut := CutStream(fs, got);
    ServedPart(c, st, fs, k, cut, selects);
    n := StretchRead(c, p, s, link, k);
  }

  // ---- the whole chain ----

  /** The events of the frames a Sub-Pi's listener relayed from the x-th to the y-th. */
  lemma EventsBetween(c: Codec, program: seq<Frame>, want: seq<Client.Event>, x: nat, y: nat)
    requires x <= y <= |program| == |want|
    requires forall k :: 0 <= k <= |program| ==> AllEvents(c, program[..k]) == want[..k]
    ensures AllEvents(c, program[x..y]) == want[x..y]
  {
    hide AllEvents;
    assert program[..y] == program[..x] + program[x..y];
    AllEventsAppend(c, program[..x], program[x..y]);
    assert want[..y] == want[..x] + AllEvents(c, program[x..y]);
    assert want[x..y] == want[..y][x..];
  }

  /** What a stretch of the log holds of one thread: a stretch of what its Sub-Pi sent, or nothing but lists. */
  ghost predicate OfThread(c: Codec, sources: map<Broadcast.Thread, Source>, log: seq<(Broadcast.Thread, Frame)>,
                           a: nat, b: nat, t: Broadcast.Thread)
    requires a <= b <= |log|
  {
    var events := AllEvents(c, Broadcast.Only(log[a..b], t));
    if t in sources then
      && (forall f <- sources[t].frames :: Delivers(c, Key(SubPi(sources[t].ip)), f))
      && var want := ExpectedAll(c, sources[t].ip, sources[t].frames);
      var x, y := |Broadcast.Only(log[..a], t)|, |Broadcast.Only(log[..b], t)|;
      x <= y <= |want| && events == want[x..y]
    else events == []
  }

  lemma ThreadStretch(log: seq<(Broadcast.Thread, Frame)>, a: nat, b: nat, t: Broadcast.Thread)
    requires a <= b <= |log|
    ensures var x, y := |Broadcast.Only(log[..a], t)|, |Broadcast.Only(log[..b], t)|;
            x <= y <= |Broadcast.Only(log, t)| && Broadcast.Only(log[a..b], t) == Broadcast.Only(log, t)[x..y]
  {
    assert log == log[..b] + log[b..] && log[..b] == log[..a] + log[a..b];
    Broadcast.OnlyAppend(log[..b], log[b..], t);
    Broadcast.OnlyAppend(log[..a], log[a..b], t);
  }

  lemma ThreadPart(p: Broadcast.Programs, s: Broadcast.State, a: nat, b: nat, t: Broadcast.Thread)
    requires Broadcast.InProgramOrder(p, s) && t in p && a <= b <= |s.log|
    ensures var x, y := |Broadcast.Only(s.log[..a], t)|, |Broadcast.Only(s.log[..b], t)|;
            x <= y <= |p[t]| && Broadcast.Only(s.log[a..b], t) == p[t][x..y]
  {
    ThreadStretch(s.log, a, b, t);
    hide Broadcast.Only;
    var x, y := |Broadcast.Only(s.log[..a], t)|, |Broadcast.Only(s.log[..b], t)|;
    assert p[t][..Broadcast.Begun(s, t)][x..y] == p[t][x..y];
  }

  lemma ThreadSees(c: Codec, sources: map<Broadcast.Thread, Source>, p: Broadcast.Programs, s: Broadcast.State,
                   a: nat, b: nat, t: Broadcast.Thread)
    requires c.Lawful() && Wired(c, sources, p) && Broadcast.InProgramOrder(p, s) && t in p && a <= b <= |s.log|
    ensures OfThread(c, sources, s.log, a, b, t)
  {
    ThreadPart(p, s, a, b, t);
    hide AllEvents, Broadcast.Only, Broadcast.InProgramOrder, Relays, Delivers, Client.Accepted, Meanings, RelayedAll;
    var x, y := |Broadcast.Only(s.log[..a], t)|, |Broadcast.Only(s.log[..b], t)|;
    if t in sources {
      SourceProgram(c, sources[t], p[t]);
      EventsBetween(c, p[t], ExpectedAll(c, sources[t].ip, sources[t].frames), x, y);
    } else {
      assert forall f <- p[t][x..y] :: f in p[t];
      PushesYieldNothing(c, p[t][x..y]);
    }
  }

  /**
    * One connection of the client, opened at any moment of any run, however the broadcasts interleave,
    * however sends and receives are cut up and however the waits fall, provided no welcome or response
    * overlapped a broadcast on it and its descriptor was not still in the list when accept returned it: the
    * callbacks see the events of a stretch of the broadcasts that begins where the connection was
    * registered, and ends at the last broadcast if the client has caught up. Of
    * each Sub-Pi this is a stretch of what it sent, in order, none lost, doubled or mixed up, each object
    * extended by the id and address its listener was started with, each image intact.
    */
  lemma EndToEnd(c: Codec, sources: map<Broadcast.Thread, Source>, p: Broadcast.Programs,
                 steps: seq<Broadcast.Step>, link: Broadcast.Conn, got: seq<byte>, selects: seq<Select>, st: Client.State)
    requires c.Lawful() && Wired(c, sources, p)
    requires Broadcast.Possible(p, Broadcast.Init, steps)
    requires Reads(c, Broadcast.After(p, Broadcast.Init, steps), link, got, selects)
    requires st.exit.None? && st.input == got
    ensures var s := Broadcast.After(p, Broadcast.Init, steps);
            exists n: nat ::
              && Delivered(c, s, link, st, Client.Run(c, st, selects), n)
              && (CaughtUp(s, link, got) ==> s.lines[link].since.value + n == |s.log|)
              && forall t :: t in p ==> OfThread(c, sources, s.log, s.lines[link].since.value, s.lines[link].since.value + n, t)
  {
    hide Broadcast.Possible, Broadcast.After, Client.Run, AllEvents, Broadcast.Only, EncodeAll, Wired, OfThread, CaughtUp,
      Broadcast.Holds, Broadcast.Lines, Acceptor.Inv, Bytes, Broadcast.OwnOn, Pushes;
    var s := Broadcast.After(p, Broadcast.Init, steps);
    Broadcast.InvInitially(p);
    Broadcast.InvReached(p, Broadcast.Init, steps);
    LogComesFromPrograms(p, Broadcast.Init, steps);
    var n := ClientSees(c, sources, p, s, link, got, selects, st);
    var a := s.lines[link].since.value;
    forall t | t in p
      ensures OfThread(c, sources, s.log, a, a + n, t)
    {
      ThreadSees(c, sources, p, s, a, a + n, t);
    }
  }

  // ---- over reconnects ----

  /** Some steps of the device server, during which the client opens a connection and at the end of which it gives it up. */
  datatype Round = Round(steps: seq<Broadcast.Step>, link: Broadcast.Conn, got: seq<byte>, selects: seq<Select>)

  ghost predicate Rounds(c: Codec, p: Broadcast.Programs, s: Broadcast.State, rs: seq<Round>)
    decreases |rs|
  {
    rs == [] ||
    (&& Broadcast.Possible(p, s, rs[0].steps)
     && !(rs[0].link in s.lines && s.lines[rs[0].link].since.Some?)
     && var s' := Broadcast.After(p, s, rs[0].steps);
     Reads(c, s', rs[0].link, rs[0].got, rs[0].selects) && Rounds(c, p, s', rs[1..]))
  }

  ghost function EndOf(c: Codec, p: Broadcast.Programs, s: Broadcast.State, rs: seq<Round>): Broadcast.State
    requires Rounds(c, p, s, rs)
    decreases |rs|
  {
    if rs == [] then s else EndOf(c, p, Broadcast.After(p, s, rs[0].steps), rs[1..])
  }

  /** The client over its connections: what it has seen stays, what it had not read is gone. */
  function ClientAfter(c: Codec, st: Client.State, rs: seq<Round>): Client.State
    decreases |rs|
  {
    if rs == [] then st
    else ClientAfter(c, Client.Run(c, st.(input := rs[0].got, exit := None), rs[0].selects), rs[1..])
  }

  type Stretch = (nat, nat)

  predicate InOrder(ks: seq<Stretch>, from: nat, to: nat) {
    if ks == [] then from <= to else from <= ks[0].0 <= ks[0].1 <= to && InOrder(ks[1..], ks[0].1, to)
  }

  function StretchEvents(c: Codec, log: seq<(Broadcast.Thread, Frame)>, ks: seq<Stretch>): seq<Client.Event>
    requires InOrder(ks, 0, |log|)
  {
    if ks == [] then []
    else
      Earlier(ks[1..], 0, ks[0].1, |log|);
      AllEvents(c, Broadcast.Frames(log[ks[0].0..ks[0].1])) + StretchEvents(c, log, ks[1..])
  }

  lemma {:induction false} Earlier(ks: seq<Stretch>, from: nat, from': nat, to: nat)
    requires InOrder(ks, from', to) && from <= from'
    ensures InOrder(ks, from, to)
  {
    if ks != [] {
      Earlier(ks[1..], ks[0].1, ks[0].1, to);
    }
  }

  lemma {:induction false} EachInOrder(ks: seq<Stretch>, from: nat, to: nat)
    requires InOrder(ks, from, to)
    ensures forall i :: 0 <= i < |ks| ==> from <= ks[i].0 <= ks[i].1 <= to
    ensures forall i, j :: 0 <= i < j < |ks| ==> ks[i].1 <= ks[j].0
  {
    if ks != [] {
      EachInOrder(ks[1..], ks[0].1, to);
      assert ks == [ks[0]] + ks[1..];
    }
  }

  lemma {:induction false} EndInv(c: Codec, p: Broadcast.Programs, s: Broadcast.State, rs: seq<Round>)
    requires Rounds(c, p, s, rs) && Broadcast.Inv(p, s) && forall e <- s.log :: e.0 in p
    ensures var end := EndOf(c, p, s, rs);
            Broadcast.Inv(p, end) && s.log <= end.log && forall e <- end.log :: e.0 in p
    decreases |rs|
  {
    if rs != [] {
      hide Broadcast.Inv, Broadcast.Possible, Broadcast.After, Reads;
      Broadcast.InvReached(p, s, rs[0].steps);
      Broadcast.RunIsLater(p, s, rs[0].steps);
      LogComesFromPrograms(p, s, rs[0].steps);
      var s' := Broadcast.After(p, s, rs[0].steps);
      EndInv(c, p, s', rs[1..]);
      PrefixTrans(s.log, s'.log, EndOf(c, p, s', rs[1..]).log);
    }
  }

  /** One round: a stretch of the final log, none of which was in the log before the round. */
  lemma RoundSees(c: Codec, sources: map<Broadcast.Thread, Source>, p: Broadcast.Programs, s: Broadcast.State,
                  r: Round, st: Client.State, log: seq<(Broadcast.Thread, Frame)>) returns (k: Stretch)
    requires c.Lawful() && Wired(c, sources, p)
    requires Broadcast.Inv(p, s) && (forall e <- s.log :: e.0 in p) && Broadcast.Possible(p, s, r.steps)
    requires !(r.link in s.lines && s.lines[r.link].since.Some?)
    requires var s' := Broadcast.After(p, s, r.steps); Reads(c, s', r.link, r.got, r.selects) && s'.log <= log
    ensures |s.log| <= k.0 <= k.1 <= |Broadcast.After(p, s, r.steps).log|
    ensures Client.Run(c, st.(input := r.got, exit := None), r.selects).events ==
            st.events + AllEvents(c, Broadcast.Frames(log[k.0..k.1]))
  {
    hide Broadcast.Possible, Broadcast.After, Wired, Client.Run, AllEvents, Broadcast.Inv,
      CaughtUp, Pushes, Bytes, Broadcast.OwnOn, ReadyCount;
    Broadcast.InvReached(p, s, r.steps);
    Broadcast.RunIsLater(p, s, r.steps);
    LogComesFromPrograms(p, s, r.steps);
    var s' := Broadcast.After(p, s, r.steps);
    var n := ClientSees(c, sources, p, s', r.link, r.got, r.selects, st.(input := r.got, exit := None));
    var a := s'.lines[r.link].since.value;
    k := (a, a + n);
    assert s'.log[a..a + n] == log[a..a + n];
  }

  lemma {:induction false} RoundsSee(c: Codec, sources: map<Broadcast.Thread, Source>, p: Broadcast.Programs, s: Broadcast.State,
                                     rs: seq<Round>, st: Client.State, log: seq<(Broadcast.Thread, Frame)>)
    returns (ks: seq<Stretch>)
    requires c.Lawful() && Wired(c, sources, p) && Rounds(c, p, s, rs)
    requires Broadcast.Inv(p, s) && (forall e <- s.log :: e.0 in p)
    requires log == EndOf(c, p, s, rs).log
    ensures |ks| == |rs| && InOrder(ks, |s.log|, |log|) && InOrder(ks, 0, |log|)
    ensures ClientAfter(c, st, rs).events == st.events + StretchEvents(c, log, ks)
    decreases |rs|
  {
    hide Broadcast.Inv, Broadcast.Possible, Broadcast.After, Reads, Wired, Client.Run, AllEvents;
    if rs == [] {
      ks := [];
    } else {
      var s' := Broadcast.After(p, s, rs[0].steps);
      Broadcast.InvReached(p, s, rs[0].steps);
      LogComesFromPrograms(p, s, rs[0].steps);
      EndInv(c, p, s', rs[1..]);
      var k := RoundSees(c, sources, p, s, rs[0], st, log);
      var mid := Client.Run(c, st.(input := rs[0].got, exit := None), rs[0].selects);
      var rest := RoundsSee(c, sources, p, s', rs[1..], mid, log);
      ks := [k] + rest;
      assert ks[1..] == rest;
      Earlier(rest, k.1, |s'.log|, |log|);
      Earlier(ks, 0, |s.log|, |log|);
      ConcatAssociative(st.events, AllEvents(c, Broadcast.Frames(log[k.0..k.1])), StretchEvents(c, log, rest));
    }
  }

  /** What the callbacks have seen over all connections of the client. */
  ghost predicate Accounted(c: Codec, sources: map<Broadcast.Thread, Source>, p: Broadcast.Programs,
                            log: seq<(Broadcast.Thread, Frame)>, ks: seq<Stretch>, before: Client.State, after: Client.State) {
    && InOrder(ks, 0, |log|)
    && after.events == before.events + StretchEvents(c, log, ks)
    && forall i, t :: 0 <= i < |ks| && t in p ==> ks[i].0 <= ks[i].1 <= |log| && OfThread(c, sources, log, ks[i].0, ks[i].1, t)
  }

  /**
    * Any number of connections one after the other in one life of the device server, each opened at any moment
    * and given up at any point of a frame, and `st` what the client saw before: over all of them the callbacks see
    * stretches of the broadcasts, in order and without overlap, so
    * no event comes twice and none out of order, and what lies between two stretches was broadcast while the
    * client was not connected or had not been read; of each Sub-Pi each stretch is a stretch of what it sent.
    */
  lemma EndToEndOverReconnects(c: Codec, sources: map<Broadcast.Thread, Source>, p: Broadcast.Programs,
                               rs: seq<Round>, st: Client.State)
    requires c.Lawful() && Wired(c, sources, p) && Rounds(c, p, Broadcast.Init, rs)
    ensures exists ks :: |ks| == |rs| &&
              Accounted(c, sources, p, EndOf(c, p, Broadcast.Init, rs).log, ks, st, ClientAfter(c, st, rs))
  {
    Broadcast.InvInitially(p);
    hide Broadcast.Lines, Broadcast.Holds, Acceptor.Inv, Wired, Rounds, EndOf, ClientAfter, StretchEvents, OfThread, InOrder;
    var end := EndOf(c, p, Broadcast.Init, rs);
    EndInv(c, p, Broadcast.Init, rs);
    var ks := RoundsSee(c, sources, p, Broadcast.Init, rs, st, end.log);
    EachInOrder(ks, 0, |end.log|);
    forall i, t | 0 <= i < |ks| && t in p
      ensures ks[i].0 <= ks[i].1 <= |end.log| && OfThread(c, sources, end.log, ks[i].0, ks[i].1, t)
    {
      ThreadSees(c, sources, p, end, ks[i].0, ks[i].1, t);
    }
    assert Accounted(c, sources, p, end.log, ks, st, ClientAfter(c, st, rs));
  }

  // ---- over recoveries of one Sub-Pi ----

  /** In a run, the one thread broadcasts nothing any more once the other has begun. */
  predicate Succeeds(steps: seq<Broadcast.Step>, t: Broadcast.Thread, u: Broadcast.Thread) {
    forall i, j :: 0 <= i < j < |steps| && steps[i] == Broadcast.Lock(u) ==> steps[j] != Broadcast.Lock(t)
  }

  /** No broadcast of the one thread is logged after one of the other. */
  predicate Before(log: seq<(Broadcast.Thread, Frame)>, t: Broadcast.Thread, u: Broadcast.Thread) {
    forall i, j :: 0 <= i < j < |log| && log[i].0 == u ==> log[j].0 != t
  }

  lemma {:induction false} LogSucceeds(p: Broadcast.Programs, s: Broadcast.State, steps: seq<Broadcast.Step>,
                                       t: Broadcast.Thread, u: Broadcast.Thread)
    requires Broadcast.Possible(p, s, steps) && Succeeds(steps, t, u) && Before(s.log, t, u)
    requires (exists e <- s.log :: e.0 == u) ==> Broadcast.Lock(t) !in steps
    ensures Before(Broadcast.After(p, s, steps).log, t, u)
    decreases |steps|
  {
    if steps != [] {
      var s' := Broadcast.Next(p, s, steps[0]);
      LogGrows(p, s, steps[0]);
      hide Broadcast.Enabled, Broadcast.Next;
      assert steps == [steps[0]] + steps[1..];
      assert forall e <- s'.log :: e in s.log || steps[0] == Broadcast.Lock(e.0);
      assert forall k :: 0 <= k < |steps[1..]| ==> steps[1..][k] == steps[k + 1];
      LogSucceeds(p, s', steps[1..], t, u);
    }
  }

  lemma LogGrows(p: Broadcast.Programs, s: Broadcast.State, step: Broadcast.Step)
    requires Broadcast.Enabled(p, s, step)
    ensures var s' := Broadcast.Next(p, s, step);
            if step.Lock? then |s'.log| == |s.log| + 1 && s'.log[..|s.log|] == s.log && s'.log[|s.log|].0 == step.thread
            else s'.log == s.log
  {
    hide Acceptor.Next, Acceptor.Enabled, Broadcast.LinesAfter, Broadcast.Received, Broadcast.OwnReceived, Broadcast.Length;
  }

  /** What any of these threads contributed to the log. */
  function OnlyAny(log: seq<(Broadcast.Thread, Frame)>, ts: seq<Broadcast.Thread>): seq<Frame> {
    if log == [] then [] else (if log[0].0 in ts then [log[0].1] else []) + OnlyAny(log[1..], ts)
  }

  lemma {:induction false} NoneLeft(log: seq<(Broadcast.Thread, Frame)>, t: Broadcast.Thread)
    requires forall e <- log :: e.0 != t
    ensures Broadcast.Only(log, t) == []
  {
    if log != [] {
      NoneLeft(log[1..], t);
    }
  }

  lemma BeforeRest(log: seq<(Broadcast.Thread, Frame)>, t: Broadcast.Thread, u: Broadcast.Thread)
    requires log != [] && Before(log, t, u)
    ensures Before(log[1..], t, u)
    ensures log[0].0 == u ==> Broadcast.Only(log[1..], t) == []
  {
    assert forall k :: 0 <= k < |log[1..]| ==> log[1..][k] == log[k + 1];
    if log[0].0 == u {
      NoneLeft(log[1..], t);
    }
  }

  lemma {:induction false} FirstThenRest(log: seq<(Broadcast.Thread, Frame)>, t: Broadcast.Thread, ts: seq<Broadcast.Thread>)
    requires t !in ts && forall u <- ts :: Before(log, t, u)
    ensures OnlyAny(log, [t] + ts) == Broadcast.Only(log, t) + OnlyAny(log, ts)
  {
    if log != [] {
      var rest, who, f := log[1..], log[0].0, [log[0].1];
      forall u | u in ts
        ensures Before(rest, t, u) && (who == u ==> Broadcast.Only(rest, t) == [])
      {
        BeforeRest(log, t, u);
      }
      FirstThenRest(rest, t, ts);
      InAny(t, ts, who);
      hide Before;
      var all, one, others := OnlyAny(rest, [t] + ts), Broadcast.Only(rest, t), OnlyAny(rest, ts);
      if who == t {
        assert OnlyAny(log, [t] + ts) == f + all && Broadcast.Only(log, t) == f + one && OnlyAny(log, ts) == [] + others;
        ConcatAssociative(f, one, others);
      } else if who in ts {
        assert OnlyAny(log, [t] + ts) == f + all && Broadcast.Only(log, t) == [] + one && OnlyAny(log, ts) == f + others;
      }
    }
  }

  lemma InAny(t: Broadcast.Thread, ts: seq<Broadcast.Thread>, who: Broadcast.Thread)
    ensures who in [t] + ts <==> who == t || who in ts
  {
  }

  /** The listeners of one Sub-Pi, each of which begins only after the one before has been joined. */
  predicate InSuccession(log: seq<(Broadcast.Thread, Frame)>, ts: seq<Broadcast.Thread>) {
    Distinct(ts) && forall i, j :: 0 <= i < j < |ts| ==> Before(log, ts[i], ts[j])
  }

  /** Of each of these sessions the stretch of what the Sub-Pi sent in it, one session after the other. */
  function SessionEvents(c: Codec, log: seq<(Broadcast.Thread, Frame)>, a: nat, b: nat, ts: seq<Broadcast.Thread>): seq<Client.Event>
    requires a <= b <= |log|
  {
    if ts == [] then [] else AllEvents(c, Broadcast.Only(log[a..b], ts[0])) + SessionEvents(c, log, a, b, ts[1..])
  }

  lemma {:induction false} SessionsInOrder(c: Codec, log: seq<(Broadcast.Thread, Frame)>, a: nat, b: nat, ts: seq<Broadcast.Thread>)
    requires a <= b <= |log| && InSuccession(log, ts)
    ensures AllEvents(c, OnlyAny(log[a..b], ts)) == SessionEvents(c, log, a, b, ts)
    decreases |ts|
  {
    if ts == [] {
      NobodysPart(log[a..b]);
    } else {
      var stretch, rest := log[a..b], ts[1..];
      DistinctTail(ts);
      assert forall k :: 0 <= k < |rest| ==> rest[k] == ts[k + 1];
      SessionsInOrder(c, log, a, b, rest);
      forall u | u in rest
        ensures Before(stretch, ts[0], u)
      {
        var k :| 0 <= k < |rest| && rest[k] == u;
        assert Before(log, ts[0], ts[k + 1]);
        assert forall i :: 0 <= i < |stretch| ==> stretch[i] == log[a + i];
      }
      FirstThenRest(stretch, ts[0], rest);
      assert [ts[0]] + rest == ts;
      hide AllEvents, OnlyAny, Broadcast.Only;
      AllEventsAppend(c, Broadcast.Only(stretch, ts[0]), OnlyAny(stretch, rest));
    }
  }

  lemma {:induction false} NobodysPart(log: seq<(Broadcast.Thread, Frame)>)
    ensures OnlyAny(log, []) == []
  {
    if log != [] {
      NobodysPart(log[1..]);
    }
  }

  /**
    * The order of one Sub-Pi over its recoveries: as its old listener is joined before the new one is started, in every
    * run and every stretch the client sees, all events of a session come before all of the next, and those of each
    * session are a stretch of what the Sub-Pi sent in it.
    */
  lemma OrderOverRecoveries(c: Codec, sources: map<Broadcast.Thread, Source>, p: Broadcast.Programs, steps: seq<Broadcast.Step>,
                            a: nat, b: nat, ts: seq<Broadcast.Thread>)
    requires c.Lawful() && Wired(c, sources, p) && Broadcast.Possible(p, Broadcast.Init, steps)
    requires a <= b <= |Broadcast.After(p, Broadcast.Init, steps).log|
    requires Distinct(ts) && (forall t <- ts :: t in p) && forall i, j :: 0 <= i < j < |ts| ==> Succeeds(steps, ts[i], ts[j])
    ensures var log := Broadcast.After(p, Broadcast.Init, steps).log;
            && AllEvents(c, OnlyAny(log[a..b], ts)) == SessionEvents(c, log, a, b, ts)
            && forall t <- ts :: OfThread(c, sources, log, a, b, t)
  {
    var s := Broadcast.After(p, Broadcast.Init, steps);
    Broadcast.InvInitially(p);
    Broadcast.InvReached(p, Broadcast.Init, steps);
    forall i, j | 0 <= i < j < |ts|
      ensures Before(s.log, ts[i], ts[j])
    {
      LogSucceeds(p, Broadcast.Init, steps, ts[i], ts[j]);
    }
    hide Broadcast.Possible, Broadcast.After, Broadcast.Lines, Broadcast.Holds, Acceptor.Inv, AllEvents, OnlyAny, Succeeds, Before,
      Broadcast.InProgramOrder, Wired, OfThread;
    SessionsInOrder(c, s.log, a, b, ts);
    forall t | t in ts
      ensures OfThread(c, sources, s.log, a, b, t)
    {
      ThreadSees(c, sources, p, s, a, b, t);
    }
  }
}
