/** What the internal client makes of whole streams, over any number of connections. */
module ClientLaws {
  import opened Common
  import opened Json
  import opened NetUtil
  import opened Wire
  import opened InternalClient

  /** The event a frame is turned into, if any. */
  function EventsOf(c: Codec, f: Frame): seq<Event> {
    match c.parse(f.body)
    case None => []
    case Some(j) =>
      if f.kind == AI then [AiEvent(j)]
      else if f.kind == META then [MetaEvent(j)]
      else if f.kind == IMAGE && f.tail != [] then [ImageEvent(j, f.tail)]
      else []
  }

  function AllEvents(c: Codec, fs: seq<Frame>): seq<Event> {
    if fs == [] then [] else EventsOf(c, fs[0]) + AllEvents(c, fs[1..])
  }

  lemma FirstEvents(c: Codec, f: Frame, fs: seq<Frame>)
    ensures AllEvents(c, [f] + fs) == EventsOf(c, f) + AllEvents(c, fs)
  {
    hide EventsOf;
    assert ([f] + fs)[1..] == fs;
  }

  lemma {:induction false} AllEventsAppend(c: Codec, fs: seq<Frame>, gs: seq<Frame>)
    ensures AllEvents(c, fs + gs) == AllEvents(c, fs) + AllEvents(c, gs)
  {
    if fs == [] {
      assert fs + gs == gs;
    } else {
      hide AllEvents, EventsOf;
      AllEventsAppend(c, fs[1..], gs);
      FirstEvents(c, fs[0], fs[1..]);
      FirstEvents(c, fs[0], fs[1..] + gs);
      assert [fs[0]] + fs[1..] == fs;
      ConcatAssociative([fs[0]], fs[1..], gs);
      ConcatAssociative(EventsOf(c, fs[0]), AllEvents(c, fs[1..]), AllEvents(c, gs));
    }
  }

  predicate Push(c: Codec, kind: byte, f: Frame) {
    f.kind == kind && c.parse(f.body).Some?
  }

  /** The content of the last well-formed push of a type, or `before` if there was none. */
  function LastPush(c: Codec, kind: byte, fs: seq<Frame>, before: Json): Json {
    if fs == [] then before
    else LastPush(c, kind, fs[1..], if Push(c, kind, fs[0]) then c.parse(fs[0].body).value else before)
  }

  lemma {:induction false} LastPushMeaning(c: Codec, kind: byte, fs: seq<Frame>, before: Json, i: nat)
    ensures (forall k :: 0 <= k < |fs| ==> !Push(c, kind, fs[k])) ==> LastPush(c, kind, fs, before) == before
    ensures i < |fs| && Push(c, kind, fs[i]) && (forall k :: i < k < |fs| ==> !Push(c, kind, fs[k]))
            ==> c.parse(fs[i].body) == Some(LastPush(c, kind, fs, before))
  {
    if fs != [] {
      LastPushMeaning(c, kind, fs[1..], if Push(c, kind, fs[0]) then c.parse(fs[0].body).value else before,
                      if i == 0 then 0 else i - 1);
    }
  }

  lemma {:induction false} LastPushAppend(c: Codec, kind: byte, fs: seq<Frame>, gs: seq<Frame>, before: Json)
    ensures LastPush(c, kind, fs + gs, before) == LastPush(c, kind, gs, LastPush(c, kind, fs, before))
  {
    if fs == [] {
      assert fs + gs == gs;
    } else {
      LastPushAppend(c, kind, fs[1..], gs, if Push(c, kind, fs[0]) then c.parse(fs[0].body).value else before);
      assert (fs + gs)[1..] == fs[1..] + gs;
    }
  }

  /** The bytes of one connection: whole frames, then perhaps the beginning of one that was cut off. */
  datatype Connection = Connection(frames: seq<Frame>, cut: seq<byte>, selects: seq<Select>)

  ghost predicate WellFormed(c: Codec, conn: Connection) {
    && (forall f <- conn.frames :: Accepted(c, f))
    && (exists g :: Accepted(c, g) && conn.cut < Encode(g))
    && Failed !in conn.selects
    && ReadyCount(conn.selects) > |conn.frames|
  }

  /** What is there of a frame that has been cut off after its header. */
  lemma CutHead(g: Frame, cut: seq<byte>)
    requires |g.body| < LIMIT && cut < Encode(g) && |cut| >= 5
    ensures ReadHead(cut) == Head(g.kind, |g.body|, cut[5..])
    ensures |cut| - 5 < |g.body| + |g.tail|
    ensures |cut| >= 5 + |g.body| ==> cut[5..][..|g.body|] == g.body && |cut[5..][|g.body|..]| < |g.tail|
  {
    HeadOfFrame(g, []);
    var whole := Encode(g) + [];
    assert whole == Encode(g);
    hide Encode;
    assert cut[0] == whole[0] && cut[1..5] == whole[1..5];
    assert whole[5..] == g.body + (g.tail + []);
    assert cut[5..] == whole[5..][..|cut| - 5];
    assert |g.tail + []| == |g.tail|;
  }

  /** A frame cut off by the end of the connection has no effect at all. */
  lemma CutFrame(c: Codec, st: State, g: Frame, cut: seq<byte>)
    requires st.exit.None? && Accepted(c, g) && cut < Encode(g) && st.input == cut
    ensures var next := Step(c, st);
            && next.input == [] && (next.exit.None? || next.exit == Some(Disconnected))
            && next == st.(input := next.input, exit := next.exit)
  {
    if |cut| >= 5 {
      CutHead(g, cut);
      hide Encode, ReadHead;
    }
  }

  lemma {:induction false} DrainedStream(c: Codec, st: State, selects: seq<Select>)
    requires st.exit.None? && st.input == [] && Failed !in selects
    ensures var end := Run(c, st, selects);
            end == st.(exit := end.exit) && (end.exit.None? || end.exit == Some(Disconnected))
    decreases |selects|
  {
    if selects != [] && selects[0] == TimedOut {
      DrainedStream(c, st, selects[1..]);
    } else if selects != [] {
      assert Run(c, Step(c, st), selects[1..]) == Step(c, st);
    }
  }

  /** A wait that fails ends the connection, whatever the waits after it would have been. */
  lemma {:induction false} FailedWaitEnds(c: Codec, st: State, before: seq<Select>, after: seq<Select>)
    requires st.exit.None?
    ensures var end := Run(c, st, before + [Failed] + after);
            && end.exit.Some? && end == Run(c, st, before + [Failed])
            && (Run(c, st, before).exit.None? ==> end == Run(c, st, before).(exit := Some(SelectFailed)))
    decreases |before|
  {
    hide Step;
    if before != [] {
      assert (before + [Failed] + after)[1..] == before[1..] + [Failed] + after;
      assert (before + [Failed])[1..] == before[1..] + [Failed];
      var next := if before[0] == Ready then Step(c, st) else st;
      if before[0] != Failed && next.exit.None? {
        FailedWaitEnds(c, next, before[1..], after);
      }
    }
  }

  ghost predicate Outcome(c: Codec, fs: seq<Frame>, st: State, end: State) {
    && end.input == [] && (end.exit.None? || end.exit == Some(Disconnected))
    && end.events == st.events + AllEvents(c, fs)
    && end.cameras == LastPush(c, CAMERA, fs, st.cameras)
    && end.status == LastPush(c, AVAILABLE, fs, st.status)
  }

  lemma NoFrames(c: Codec, st: State)
    ensures AllEvents(c, []) == []
    ensures LastPush(c, CAMERA, [], st.cameras) == st.cameras && LastPush(c, AVAILABLE, [], st.status) == st.status
  {
  }

  lemma OutcomeStep(c: Codec, f: Frame, fs: seq<Frame>, st: State, next: State, end: State)
    requires next == Absorb(c, st.(input := next.input), f)
    requires Outcome(c, fs, next, end)
    ensures Outcome(c, [f] + fs, st, end)
  {
    hide LastPush, AllEvents;
    AbsorbedEffects(c, f, st, next);
    FramesAppend(c, [f], fs, st);
    ConcatAssociative(st.events, EventsOf(c, f), AllEvents(c, fs));
  }

  lemma AbsorbedEffects(c: Codec, f: Frame, st: State, next: State)
    requires next == Absorb(c, st.(input := next.input), f)
    ensures next.events == st.events + EventsOf(c, f) && AllEvents(c, [f]) == EventsOf(c, f)
    ensures next.cameras == LastPush(c, CAMERA, [f], st.cameras)
    ensures next.status == LastPush(c, AVAILABLE, [f], st.status)
    ensures next.exit == st.exit
  {
  }

  lemma {:induction false} ServedStream(c: Codec, st: State, fs: seq<Frame>, g: Frame, cut: seq<byte>, selects: seq<Select>)
    requires forall f <- fs :: Accepted(c, f)
    requires Accepted(c, g) && cut < Encode(g)
    requires Failed !in selects && ReadyCount(selects) > |fs|
    requires st.exit.None? && st.input == EncodeAll(fs) + cut
    ensures Outcome(c, fs, st, Run(c, st, selects))
    decreases |selects|
  {
    hide Step, Absorb, Accepted, LastPush, AllEvents, Encode, EventsOf;
    if selects[0] == TimedOut {
      ServedStream(c, st, fs, g, cut, selects[1..]);
    } else if fs == [] {
      assert st.input == cut;
      CutFrame(c, st, g, cut);
      var next := Step(c, st);
      NoFrames(c, st);
      if next.exit.None? {
        DrainedStream(c, next, selects[1..]);
      } else {
        assert Run(c, next, selects[1..]) == next;
      }
    } else {
      ConcatAssociative(Encode(fs[0]), EncodeAll(fs[1..]), cut);
      AbsorbedFrame(c, st, fs[0], EncodeAll(fs[1..]) + cut);
      var next := Step(c, st);
      ServedStream(c, next, fs[1..], g, cut, selects[1..]);
      AbsorbedEffects(c, fs[0], st, next);
      OutcomeStep(c, fs[0], fs[1..], st, next, Run(c, next, selects[1..]));
      assert fs == [fs[0]] + fs[1..];
    }
  }

  /** One connection, under any waits: each whole frame has its effect once, in order; the cut one none. */
  lemma ServedConnection(c: Codec, st: State, conn: Connection)
    requires WellFormed(c, conn)
    requires st.exit.None? && st.input == EncodeAll(conn.frames) + conn.cut
    ensures Outcome(c, conn.frames, st, Run(c, st, conn.selects))
  {
    var g :| Accepted(c, g) && conn.cut < Encode(g);
    ServedStream(c, st, conn.frames, g, conn.cut, conn.selects);
  }

  function AllFrames(conns: seq<Connection>): seq<Frame> {
    if conns == [] then [] else conns[0].frames + AllFrames(conns[1..])
  }

  function Sessions(c: Codec, st: State, conns: seq<Connection>): State
    decreases |conns|
  {
    if conns == [] then st
    else
      var open := st.(input := EncodeAll(conns[0].frames) + conns[0].cut, exit := None);
      Sessions(c, Run(c, open, conns[0].selects), conns[1..])
  }

  lemma FramesAppend(c: Codec, fs: seq<Frame>, gs: seq<Frame>, st: State)
    ensures AllEvents(c, fs + gs) == AllEvents(c, fs) + AllEvents(c, gs)
    ensures LastPush(c, CAMERA, fs + gs, st.cameras) == LastPush(c, CAMERA, gs, LastPush(c, CAMERA, fs, st.cameras))
    ensures LastPush(c, AVAILABLE, fs + gs, st.status) == LastPush(c, AVAILABLE, gs, LastPush(c, AVAILABLE, fs, st.status))
  {
    AllEventsAppend(c, fs, gs);
    LastPushAppend(c, CAMERA, fs, gs, st.cameras);
    LastPushAppend(c, AVAILABLE, fs, gs, st.status);
  }

  /**
    * Over any number of reconnections the caches hold the last well-formed push of their type and
    * the events are those of all whole frames in order.
    */
  lemma {:induction false} CachesSurviveReconnects(c: Codec, st: State, conns: seq<Connection>)
    requires forall conn <- conns :: WellFormed(c, conn)
    ensures var end := Sessions(c, st, conns);
            && end.events == st.events + AllEvents(c, AllFrames(conns))
            && end.cameras == LastPush(c, CAMERA, AllFrames(conns), st.cameras)
            && end.status == LastPush(c, AVAILABLE, AllFrames(conns), st.status)
    decreases |conns|
  {
    if conns != [] {
      hide Run, WellFormed, LastPush, AllEvents;
      var conn, rest := conns[0], conns[1..];
      var open := st.(input := EncodeAll(conn.frames) + conn.cut, exit := None);
      ServedConnection(c, open, conn);
      var mid := Run(c, open, conn.selects);
      CachesSurviveReconnects(c, mid, rest);
      FramesAppend(c, conn.frames, AllFrames(rest), st);
      ConcatAssociative(st.events, AllEvents(c, conn.frames), AllEvents(c, AllFrames(rest)));
    }
  }
}
