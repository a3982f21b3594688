/** Runs of the device server in which frames are not whole, or the process ends. */
module BroadcastExamples {
  import opened Common
  import opened Wire
  import opened Pieces
  import opened Broadcast
  import Acceptor

  lemma {:induction false} Extend(p: Programs, s: State, steps: seq<Step>, step: Step)
    requires Possible(p, s, steps) && Enabled(p, After(p, s, steps), step)
    ensures Possible(p, s, steps + [step]) && After(p, s, steps + [step]) == Next(p, After(p, s, steps), step)
    decreases |steps|
  {
    hide Enabled, Next;
    if steps == [] {
      assert steps + [step] == [step];
      assert Possible(p, Next(p, s, step), []);
    } else {
      Extend(p, Next(p, s, steps[0]), steps[1..], step);
      assert (steps + [step])[0] == steps[0] && (steps + [step])[1..] == steps[1..] + [step];
    }
  }

  ghost predicate Reached(p: Programs, s: State) {
    exists steps :: Possible(p, Init, steps) && After(p, Init, steps) == s
  }

  /** One step further. */
  lemma Onward(p: Programs, s: State, step: Step, s': State)
    requires Reached(p, s) && Enabled(p, s, step) && Next(p, s, step) == s'
    ensures Reached(p, s')
  {
    hide Enabled, Next;
    var steps :| Possible(p, Init, steps) && After(p, Init, steps) == s;
    Extend(p, Init, steps, step);
  }

  lemma StartReached(p: Programs)
    ensures Reached(p, Init)
  {
    assert Possible(p, Init, []) && After(p, Init, []) == Init;
  }

  const Welcome := Frame(CAMERA, [91, 93], [])
  const Event := Frame(META, [123, 125], [])

  function One(): Programs { map[0 := [Event]] }

  lemma Lengths()
    ensures Length(Welcome) == 7 && Length(Event) == 7
  {
  }

  // ---- the first client ----

  function First(phase: Acceptor.Phase): map<Conn, Acceptor.Link> {
    map[0 := Acceptor.Link(5, phase)]
  }

  const Entered := NewLine.(since := Some(0))

  /** The handler of connection 0 has been started and stored under descriptor 5. */
  function Arrived(): State {
    Init.(server := Acceptor.State(First(Acceptor.Serving), [5], map[5 := 0], {}, Acceptor.Sweeping, {}, {}), lines := map[0 := Entered])
  }

  lemma AcceptedReached() returns (s: State)
    ensures Reached(One(), s)
    ensures s == Init.(server := Acceptor.State(First(Acceptor.Accepted), [], map[], {}, Acceptor.Registering(0), {}, {}),
                       lines := map[0 := NewLine])
  {
    hide Reached;
    StartReached(One());
    var s1 := Init.(server := Acceptor.Init.(place := Acceptor.Joining({})));
    Onward(One(), Init, Serve(Acceptor.Sweep), s1);
    var s2 := Init.(server := Acceptor.Init.(place := Acceptor.Waiting));
    Onward(One(), s1, Serve(Acceptor.Wait), s2);
    s := Init.(server := Acceptor.State(First(Acceptor.Accepted), [], map[], {}, Acceptor.Registering(0), {}, {}),
               lines := map[0 := NewLine]);
    Onward(One(), s2, Serve(Acceptor.Accept(0, 5)), s);
  }

  lemma ArrivedReached()
    ensures Reached(One(), Arrived())
  {
    hide Reached;
    var s0 := AcceptedReached();
    var s1 := Arrived().(server := Acceptor.State(First(Acceptor.Listed), [5], map[], {}, Acceptor.Spawning(0), {}, {}));
    Onward(One(), s0, Serve(Acceptor.Register), s1);
    var s2 := Arrived().(server := Acceptor.State(First(Acceptor.Serving), [5], map[], {}, Acceptor.Assigning(0), {}, {}));
    Onward(One(), s1, Serve(Acceptor.Spawn), s2);
    Onward(One(), s2, Serve(Acceptor.Assign), Arrived());
  }

  // ---- a welcome and a broadcast at the same time ----

  const WelcomeHead := Piece(Own(0, Welcome), Encode(Welcome), 0, 5)
  const WelcomeRest := Piece(Own(0, Welcome), Encode(Welcome), 5, 7)
  const EventHead := Piece(Logged(0, Event), Encode(Event), 0, 5)
  const EventRest := Piece(Logged(0, Event), Encode(Event), 5, 7)

  /** Connection 0 while its welcome is being sent. */
  function Welcoming(wire: seq<Piece<Origin>>, direct: Option<nat>, overlapped: bool): map<Conn, Line> {
    map[0 := Entered.(wire := wire, own := [Welcome], direct := direct, overlapped := overlapped)]
  }

  /** The handler of connection 0 has sent the header of its welcome message. */
  lemma HalfWelcomedReached()
    ensures Reached(One(), Arrived().(lines := Welcoming([WelcomeHead], Some(5), false)))
  {
    hide Reached;
    Lengths();
    ArrivedReached();
    hide Encode;
    var s := Arrived().(lines := Welcoming([], Some(0), false));
    assert Entered.own + [Welcome] == [Welcome];
    Onward(One(), Arrived(), OwnBegin(0, Welcome), s);
    assert Put([], Own(0, Welcome), Encode(Welcome), 0, 5, false) == [WelcomeHead];
    Onward(One(), s, OwnChunk(0, 5), Arrived().(lines := Welcoming([WelcomeHead], Some(5), false)));
  }

  /** Another thread broadcasts an event meanwhile. */
  function Broadcasting(sent: nat, to: Option<Conn>, lines: map<Conn, Line>): State {
    Arrived().(lines := lines, holder := Some(Holder(Event, [5], sent, to)), next := map[0 := 1], log := [(0, Event)])
  }

  lemma BothHeadersReached()
    ensures Reached(One(), Broadcasting(5, Some(0), Welcoming([WelcomeHead, EventHead], Some(5), true)))
  {
    hide Reached;
    Lengths();
    HalfWelcomedReached();
    hide Encode;
    var s0 := Arrived().(lines := Welcoming([WelcomeHead], Some(5), false));
    var s1 := Broadcasting(0, None, s0.lines);
    Onward(One(), s0, Lock(0), s1);
    assert Put([WelcomeHead], Logged(0, Event), Encode(Event), 0, 5, false) == [WelcomeHead, EventHead];
    Onward(One(), s1, Chunk(Some(0), 5), Broadcasting(5, Some(0), Welcoming([WelcomeHead, EventHead], Some(5), true)));
  }

  /** Both bodies follow, the welcome's first. */
  const MixedWire := [WelcomeHead, EventHead, WelcomeRest, EventRest]

  lemma BothSentReached()
    ensures Reached(One(), Broadcasting(7, Some(0), Welcoming(MixedWire, None, true)))
  {
    hide Reached;
    Lengths();
    BothHeadersReached();
    hide Encode;
    var s0 := Broadcasting(5, Some(0), Welcoming([WelcomeHead, EventHead], Some(5), true));
    var three := [WelcomeHead, EventHead, WelcomeRest];
    var s1 := s0.(lines := Welcoming(three, Some(7), true));
    assert Put([WelcomeHead, EventHead], Own(0, Welcome), Encode(Welcome), 5, 2, true) == three;
    Onward(One(), s0, OwnChunk(0, 2), s1);
    var s2 := s0.(lines := Welcoming(three, None, true));
    Onward(One(), s1, OwnEnd(0), s2);
    assert Put(three, Logged(0, Event), Encode(Event), 5, 2, true) == MixedWire;
    Onward(One(), s2, Chunk(Some(0), 2), Broadcasting(7, Some(0), Welcoming(MixedWire, None, true)));
  }

  function Mixed(): State {
    Arrived().(lines := Welcoming(MixedWire, None, true), next := map[0 := 1], log := [(0, Event)])
  }

  lemma MixedReached()
    ensures Reached(One(), Mixed())
  {
    hide Reached;
    Lengths();
    BothSentReached();
    hide Encode;
    var s0 := Broadcasting(7, Some(0), Welcoming(MixedWire, None, true));
    assert [5][1..] == [];
    var s1 := s0.(holder := Some(Holder(Event, [], 0, None)));
    Onward(One(), s0, NextClient, s1);
    Onward(One(), s1, Unlock, Mixed());
  }

  /**
    * The welcome messages do not take the mutex: there is a run at the end of which nothing has failed
    * and nothing is being sent, and yet the bytes on a connection are those of neither order of the two
    * frames sent to it.
    */
  lemma WelcomeCanInterleave()
    ensures exists p, s :: Reached(p, s) && 0 in s.lines && !s.lines[0].broken && s.holder.None? && s.lines[0].direct.None?
              && s.server.unjoined == {} && FramesOn(s.lines[0].wire) == [Welcome, Event]
              && Bytes(s.lines[0].wire) != EncodeAll([Welcome, Event]) && Bytes(s.lines[0].wire) != EncodeAll([Event, Welcome])
  {
    MixedReached();
    MixedBytes();
  }

  lemma MixedBytes()
    ensures FramesOn(MixedWire) == [Welcome, Event]
    ensures Bytes(MixedWire) != EncodeAll([Welcome, Event]) && Bytes(MixedWire) != EncodeAll([Event, Welcome])
  {
    hide Bytes, FramesOn, BytesOf, Encode, EncodeAll;
    var a, b, c, d := WelcomeHead, EventHead, WelcomeRest, EventRest;
    OneMore([], a);
    OneMore([a], b);
    OneMore([a, b], c);
    OneMore([a, b, c], d);
    assert [] + [a] == [a] && [a] + [b] == [a, b] && [a, b] + [c] == [a, b, c] && [a, b, c] + [d] == MixedWire;
    PieceBytes();
    NeitherOrder(BytesOf(a), BytesOf(b), BytesOf(c), BytesOf(d));
  }

  lemma PieceBytes()
    ensures BytesOf(WelcomeHead) == Encode(Welcome)[0..5] && BytesOf(EventHead) == Encode(Event)[0..5]
    ensures BytesOf(EventRest) == Encode(Event)[5..]
  {
    Lengths();
  }

  lemma NeitherOrder(a: seq<byte>, b: seq<byte>, c: seq<byte>, d: seq<byte>)
    requires a == Encode(Welcome)[0..5] && b == Encode(Event)[0..5]
    ensures var bytes := ((([] + a) + b) + c) + d;
            bytes != EncodeAll([Welcome, Event]) && bytes != EncodeAll([Event, Welcome])
  {
    var bytes := ((([] + a) + b) + c) + d;
    assert bytes[0] == CAMERA && bytes[5] == META;
    assert EncodeAll([Welcome, Event]) == Encode(Welcome) + EncodeAll([Event]);
    assert EncodeAll([Event, Welcome]) == Encode(Event) + EncodeAll([Welcome]);
    assert EncodeAll([Welcome, Event])[5] == 91;
    assert EncodeAll([Event, Welcome])[0] == META;
  }

  lemma OneMore(ps: seq<Piece<Origin>>, q: Piece<Origin>)
    ensures Bytes(ps + [q]) == Bytes(ps) + BytesOf(q)
    ensures FramesOn(ps + [q]) == FramesOn(ps) + if q.from == 0 then [q.origin.frame] else []
    ensures Bytes<Origin>([]) == [] && FramesOn([]) == []
  {
    assert (ps + [q])[..|ps|] == ps;
  }

  // ---- a descriptor handed out in the middle of a frame ----

  function Waiting(phase: Acceptor.Phase, list: seq<int>): Acceptor.State {
    Acceptor.State(First(phase), list, map[5 := 0], {}, Acceptor.Waiting, {}, {})
  }

  lemma WaitingReached()
    ensures Reached(One(), Arrived().(server := Waiting(Acceptor.Serving, [5])))
  {
    hide Reached;
    ArrivedReached();
    var s := Arrived().(server := Waiting(Acceptor.Serving, [5]).(place := Acceptor.Joining({})));
    Onward(One(), Arrived(), Serve(Acceptor.Sweep), s);
    Onward(One(), s, Serve(Acceptor.Wait), Arrived().(server := Waiting(Acceptor.Serving, [5])));
  }

  /** Connection 0 has accepted the header of an event and been closed. */
  const Cut := Entered.(wire := [EventHead], until := Some(1), broken := true)

  lemma CutReached()
    ensures Reached(One(), Broadcasting(5, Some(0), map[0 := Cut]).(server := Waiting(Acceptor.Closed, [5])))
  {
    hide Reached;
    Lengths();
    WaitingReached();
    hide Encode;
    var s0 := Arrived().(server := Waiting(Acceptor.Serving, [5]));
    var s1 := Broadcasting(0, None, s0.lines).(server := s0.server);
    Onward(One(), s0, Lock(0), s1);
    assert Put([], Logged(0, Event), Encode(Event), 0, 5, false) == [EventHead];
    var s2 := Broadcasting(5, Some(0), map[0 := Entered.(wire := [EventHead])]).(server := s0.server);
    Onward(One(), s1, Chunk(Some(0), 5), s2);
    Onward(One(), s2, Serve(Acceptor.Close(0)), Broadcasting(5, Some(0), map[0 := Cut]).(server := Waiting(Acceptor.Closed, [5])));
  }

  /** Connection 1 has got descriptor 5, and with it the rest of the frame. */
  function Strayed(): State {
    Broadcasting(7, Some(1), map[0 := Cut, 1 := NewLine.(wire := [EventRest], strayed := true)])
      .(server := Acceptor.State(map[0 := Acceptor.Link(5, Acceptor.Closed), 1 := Acceptor.Link(5, Acceptor.Accepted)], [5], map[5 := 0], {},
                                 Acceptor.Registering(1), {1}, {1}))
  }

  lemma ReissuedReached()
    ensures Reached(One(), Broadcasting(5, Some(0), map[0 := Cut, 1 := NewLine]).(server := Strayed().server))
  {
    hide Reached, Encode;
    CutReached();
    var s := Broadcasting(5, Some(0), map[0 := Cut]).(server := Waiting(Acceptor.Closed, [5]));
    Onward(One(), s, Serve(Acceptor.Accept(1, 5)), Broadcasting(5, Some(0), map[0 := Cut, 1 := NewLine]).(server := Strayed().server));
  }

  lemma StrayedReached()
    ensures Reached(One(), Strayed())
  {
    hide Reached;
    Lengths();
    ReissuedReached();
    hide Encode;
    assert Put([], Logged(0, Event), Encode(Event), 5, 2, false) == [EventRest];
    Onward(One(), Broadcasting(5, Some(0), map[0 := Cut, 1 := NewLine]).(server := Strayed().server), Chunk(Some(1), 2), Strayed());
  }

  /** A connection that begins with the body of a frame whose header went to the connection before it, although no two sends to it overlapped and none has failed on it. */
  lemma RestGoesToTheNext()
    ensures exists p, s :: Reached(p, s) && 1 in s.lines && !s.lines[1].overlapped && !s.lines[1].broken
              && Bytes(s.lines[1].wire) == Encode(Event)[5..] && FramesOn(s.lines[1].wire) == []
  {
    StrayedReached();
    PieceBytes();
    OneMore([], EventRest);
    assert [] + [EventRest] == [EventRest];
    hide Bytes, FramesOn, Encode, Reached;
    assert Strayed().lines[1].wire == [EventRest];
  }

  // ---- an ordinary reconnect ----

  const Closed := Entered.(until := Some(0))

  lemma ClosedReached()
    ensures Reached(One(), Init.(server := Waiting(Acceptor.Closed, [5]), lines := map[0 := Closed]))
  {
    hide Reached;
    WaitingReached();
    var s := Arrived().(server := Waiting(Acceptor.Serving, [5]));
    Onward(One(), s, Serve(Acceptor.Close(0)), Init.(server := Waiting(Acceptor.Closed, [5]), lines := map[0 := Closed]));
  }

  /** Connection 0 has gone and its handler has finished, while the accept thread waits. */
  lemma GoneReached() returns (s: State)
    ensures Reached(One(), s) && s == Init.(server := Waiting(Acceptor.Finished, []).(finished := {5}), lines := map[0 := Closed])
  {
    hide Reached;
    ClosedReached();
    var s1 := Init.(server := Waiting(Acceptor.Closed, [5]), lines := map[0 := Closed]);
    assert Without([5], 5) == [];
    var s2 := Init.(server := Waiting(Acceptor.Removed, []), lines := map[0 := Closed]);
    Onward(One(), s1, Serve(Acceptor.Remove(0)), s2);
    s := Init.(server := Waiting(Acceptor.Finished, []).(finished := {5}), lines := map[0 := Closed]);
    Onward(One(), s2, Serve(Acceptor.Finish(0)), s);
  }

  function Again(phase: Acceptor.Phase, list: seq<int>, place: Acceptor.Place): Acceptor.State {
    Acceptor.State(map[0 := Acceptor.Link(5, Acceptor.Finished), 1 := Acceptor.Link(5, phase)], list, map[5 := 0], {5}, place, {}, {1})
  }

  lemma ReturnedReached()
    ensures Reached(One(), Init.(server := Again(Acceptor.Listed, [5], Acceptor.Spawning(1)), lines := map[0 := Closed, 1 := Entered]))
  {
    hide Reached;
    var s0 := GoneReached();
    var s1 := Init.(server := Again(Acceptor.Accepted, [], Acceptor.Registering(1)), lines := map[0 := Closed, 1 := NewLine]);
    Onward(One(), s0, Serve(Acceptor.Accept(1, 5)), s1);
    Onward(One(), s1, Serve(Acceptor.Register),
           Init.(server := Again(Acceptor.Listed, [5], Acceptor.Spawning(1)), lines := map[0 := Closed, 1 := Entered]));
  }

  /** The client server leaves and comes back on the same descriptor: the device server ends, although the old handler has finished. */
  lemma ReconnectEndsServer()
    ensures exists p, s :: Reached(p, s) && s.server.place.Terminated? && s.server.stillListed == {} && s.log == []
              && Acceptor.In(s.server, 0, Acceptor.Finished) && Acceptor.In(s.server, 1, Acceptor.Serving)
  {
    hide Reached;
    ReturnedReached();
    var s0 := Init.(server := Again(Acceptor.Listed, [5], Acceptor.Spawning(1)), lines := map[0 := Closed, 1 := Entered]);
    var s1 := s0.(server := Again(Acceptor.Serving, [5], Acceptor.Assigning(1)));
    Onward(One(), s0, Serve(Acceptor.Spawn), s1);
    Onward(One(), s1, Serve(Acceptor.Assign), s1.(server := Again(Acceptor.Serving, [5], Acceptor.Terminated)));
  }
}
