/** Which frames the Sub-Pi listener counts as errors, and when it gives up, in terms of the frames alone. */
module ListenerErrors {
  import opened Common
  import opened Json
  import opened NetUtil
  import opened Wire
  import opened SubPiListener
  import opened ListenerLaws

  /** A body of 1 byte to 1 MiB of a type that carries JSON, which does not parse. */
  predicate Unparsable(c: Codec, f: Frame) {
    (f.kind == AI || f.kind == IMAGE || f.kind == AVAILABLE || f.kind == META)
    && 0 < |f.body| <= 1_048_576 && c.parse(f.body).None?
  }

  /** An empty body, one of another type, or the description of an image of no bytes or of more than 10 MiB. */
  predicate Ignored(c: Codec, f: Frame) {
    || f.body == []
    || (f.kind != AI && f.kind != IMAGE && f.kind != AVAILABLE && f.kind != META)
    || (f.kind == IMAGE && c.parse(f.body).Some? && Unsized(c.parse(f.body).value))
  }

  predicate Unsized(j: Json) {
    || j.Null?
    || (j.Object? && "jpeg_size" !in j.fields)
    || (j.Object? && "jpeg_size" in j.fields && match j.fields["jpeg_size"]
          case Number(n) => n % 0x1_0000_0000 == 0 || n % 0x1_0000_0000 > 10_485_760
          case Bool(b) => !b
          case _ => false)
  }

  lemma Body(c: Codec, ip: string, st: State, f: Frame, rest: seq<byte>)
    requires st.exit.None? && Aligned(c, Key(SubPi(ip)), f) && st.input == Encode(f) + rest
    ensures var at := st.(input := f.tail + rest);
            Step(c, Key(SubPi(ip)), st) == if f.body == [] then Skip(at) else OnBody(c, Key(SubPi(ip)), at, f.kind, f.body)
  {
    hide Encode, ReadHead, OnBody, DeclaredSize, Key;
    HeadOfFrame(f, rest);
  }

  /**
    * What one frame does. An event and a cleared count for a frame with a meaning; one more error, and
    * the end at the third, for an unparsable one; nothing for an ignored one; and for every other one the end by an
    * uncaught exception.
    */
  lemma FrameEffect(c: Codec, ip: string, st: State, f: Frame, rest: seq<byte>)
    requires st.exit.None? && Aligned(c, Key(SubPi(ip)), f) && st.input == Encode(f) + rest
    ensures var next := Step(c, Key(SubPi(ip)), st);
            && next.input == rest
            && (if Delivers(c, Key(SubPi(ip)), f) then
                  next.events == st.events + [Meaning(c, ip, f)] && next.errors == 0 && next.exit.None?
                else if Unparsable(c, f) then
                  next.events == st.events && next.errors == st.errors + 1
                  && next.exit == if st.errors < 2 then None else Some(TooManyErrors)
                else if Ignored(c, f) then
                  next.events == st.events && next.errors == st.errors && next.exit.None?
                else
                  next.events == st.events && next.exit == Some(Uncaught))
  {
    Body(c, ip, st, f, rest);
    if Delivers(c, Key(SubPi(ip)), f) {
      DeliveredFrame(c, ip, st, f, rest);
      hide Step, Delivers, Meaning;
    } else if f.body == [] {
      hide Step, Delivers;
      assert f.tail + rest == rest;
    } else {
      OtherBody(c, ip, st.(input := f.tail + rest), f, rest);
      hide Step, OnBody, Delivers, Aligned, Unparsable, Ignored;
    }
  }

  /** The size that counts is the sender's own: decoration does not touch it. */
  lemma SizeOf(c: Codec, ip: string, j: Json)
    requires j.Null? || j.Object?
    ensures var size := UInt32(Located(j, ip), "jpeg_size");
            && Decorate(j, Key(SubPi(ip))) == Some(Located(j, ip))
            && (Unsized(j) <==> size.Some? && (size.value == 0 || size.value > 10_485_760))
            && (j.Object? ==> size == UInt32(j, "jpeg_size"))
  {
    Decorated(j, ip);
  }

  lemma OtherBody(c: Codec, ip: string, st: State, f: Frame, rest: seq<byte>)
    requires st.exit.None? && Aligned(c, Key(SubPi(ip)), f) && f.body != [] && st.input == f.tail + rest
    requires !Delivers(c, Key(SubPi(ip)), f)
    ensures var next := OnBody(c, Key(SubPi(ip)), st, f.kind, f.body);
            && next.input == rest && next.events == st.events
            && (if Unparsable(c, f) then
                  next.errors == st.errors + 1 && next.exit == if st.errors < 2 then None else Some(TooManyErrors)
                else if Ignored(c, f) then next.errors == st.errors && next.exit.None?
                else next.exit == Some(Uncaught))
  {
    assert f.tail == [] ==> f.tail + rest == rest;
    if f.kind == IMAGE && c.parse(f.body).Some? {
      var j := c.parse(f.body).value;
      if j.Null? || j.Object? {
        OtherImage(c, ip, st, f, rest, j);
      }
    }
  }

  lemma OtherImage(c: Codec, ip: string, st: State, f: Frame, rest: seq<byte>, j: Json)
    requires st.exit.None? && Aligned(c, Key(SubPi(ip)), f) && f.body != [] && st.input == f.tail + rest
    requires !Delivers(c, Key(SubPi(ip)), f) && f.kind == IMAGE && c.parse(f.body) == Some(j) && (j.Null? || j.Object?)
    ensures var next := OnBody(c, Key(SubPi(ip)), st, f.kind, f.body);
            && next.input == rest && next.events == st.events
            && (if Unsized(j) then next.errors == st.errors && next.exit.None? else next.exit == Some(Uncaught))
  {
    SizeOf(c, ip, j);
    if j.Object? {
      Decorated(j, ip);
    }
    hide Unsized, UInt32, Numeric, Decorate, Located, Key;
    assert |f.tail + rest| == |f.tail| + |rest|;
    assert (f.tail + rest)[|f.tail|..] == rest;
    assert f.tail == [] ==> f.tail + rest == rest;
  }

  /** Whatever stands at the head of the stream: only an unparsable frame is an error, and only as the third is it the end. */
  lemma CountedExactly(c: Codec, ip: string, st: State, f: Frame, rest: seq<byte>)
    requires st.exit.None? && |f.body| < LIMIT && st.input == Encode(f) + rest
    ensures var next := Step(c, Key(SubPi(ip)), st);
            && (next.errors > st.errors <==> Unparsable(c, f))
            && (next.exit == Some(TooManyErrors) <==> Unparsable(c, f) && st.errors >= 2)
  {
    hide Encode, ReadHead, OnBody;
    HeadOfFrame(f, rest);
    CountedBody(c, Key(SubPi(ip)), st.(input := f.tail + rest), f.kind, f.body);
  }

  lemma CountedBody(c: Codec, key: string, st: State, kind: byte, body: seq<byte>)
    requires |key| >= 6 && st.exit.None?
    ensures var next := OnBody(c, key, st, kind, body);
            var counts := (kind == AI || kind == IMAGE || kind == AVAILABLE || kind == META) && c.parse(body).None?;
            && (next.errors > st.errors <==> counts)
            && (next.exit == Some(TooManyErrors) <==> counts && st.errors >= 2)
  {
    hide Decorate, UInt32, Numeric;
  }

  predicate Countable(fields: map<string, Json>, key: string) {
    key in fields ==> fields[key].Number? || fields[key].Bool?
  }

  /** A status report is kept as it came if what is logged of it is numeric, and is the end of the listener otherwise. */
  lemma StatusExactly(c: Codec, ip: string, st: State, body: seq<byte>, fields: map<string, Json>, rest: seq<byte>)
    requires st.exit.None? && st.input == Encode(Frame(AVAILABLE, body, [])) + rest
    requires 0 < |body| <= 1_048_576 && c.parse(body) == Some(Object(fields))
    ensures var next := Step(c, Key(SubPi(ip)), st);
            && next.input == rest
            && if Countable(fields, "cpu") && Countable(fields, "memory") && Countable(fields, "temp") then
                 next.exit.None? && next.errors == 0 && next.events == st.events + [StatusEvent(Object(fields))]
               else next.exit == Some(Uncaught) && next.events == st.events
  {
    var f := Frame(AVAILABLE, body, []);
    assert Aligned(c, Key(SubPi(ip)), f);
    FrameEffect(c, ip, st, f, rest);
    hide Step, Encode;
  }

  // ---- over a stream of frames ----

  /** A frame after which the listener goes on, unless it was one error too many. */
  predicate Known(c: Codec, ip: string, f: Frame) {
    && Aligned(c, Key(SubPi(ip)), f)
    && (Delivers(c, Key(SubPi(ip)), f) || Unparsable(c, f) || Ignored(c, f))
  }

  /** Three unparsable frames with none in between that was delivered. */
  ghost predicate ThreeInARow(c: Codec, ip: string, fs: seq<Frame>) {
    exists i: nat, j: nat, k: nat :: Three(c, ip, fs, i, j, k)
  }

  ghost predicate Three(c: Codec, ip: string, fs: seq<Frame>, i: nat, j: nat, k: nat) {
    && i < j < k < |fs| && Unparsable(c, fs[i]) && Unparsable(c, fs[j]) && Unparsable(c, fs[k])
    && forall m :: i < m < k ==> !Delivers(c, Key(SubPi(ip)), fs[m])
  }

  /** The unparsable frames since the last one delivered. */
  function Streak(c: Codec, ip: string, fs: seq<Frame>): nat {
    if fs == [] then 0
    else
      var init, last := fs[..|fs| - 1], fs[|fs| - 1];
      if Delivers(c, Key(SubPi(ip)), last) then 0
      else Streak(c, ip, init) + if Unparsable(c, last) then 1 else 0
  }

  lemma {:induction false} LastUnparsable(c: Codec, ip: string, fs: seq<Frame>) returns (k: nat)
    requires Streak(c, ip, fs) > 0
    ensures k < |fs| && Unparsable(c, fs[k]) && Streak(c, ip, fs[..k]) == Streak(c, ip, fs) - 1
    ensures forall m :: k <= m < |fs| ==> !Delivers(c, Key(SubPi(ip)), fs[m])
  {
    var n := |fs| - 1;
    if Unparsable(c, fs[n]) {
      k := n;
    } else {
      k := LastUnparsable(c, ip, fs[..n]);
      assert fs[..n][..k] == fs[..k];
      assert forall m :: k <= m < n ==> fs[..n][m] == fs[m];
    }
  }

  lemma {:induction false} StreakGrows(c: Codec, ip: string, fs: seq<Frame>, k: nat)
    requires k <= |fs| && forall m :: k <= m < |fs| ==> !Delivers(c, Key(SubPi(ip)), fs[m])
    ensures Streak(c, ip, fs) >= Streak(c, ip, fs[..k])
    decreases |fs|
  {
    if k < |fs| {
      var n := |fs| - 1;
      assert fs[..n][..k] == fs[..k];
      StreakGrows(c, ip, fs[..n], k);
    } else {
      assert fs[..k] == fs;
    }
  }

  lemma StreakIsThree(c: Codec, ip: string, fs: seq<Frame>, n: nat)
    requires n <= |fs| && Streak(c, ip, fs[..n]) >= 3
    ensures ThreeInARow(c, ip, fs)
  {
    hide Delivers, Unparsable, Streak;
    var k := LastUnparsable(c, ip, fs[..n]);
    assert fs[..n][..k] == fs[..k];
    var j := LastUnparsable(c, ip, fs[..k]);
    assert fs[..k][..j] == fs[..j];
    var i := LastUnparsable(c, ip, fs[..j]);
    forall m | i < m < k
      ensures !Delivers(c, Key(SubPi(ip)), fs[m])
    {
      assert m < j ==> fs[..j][m] == fs[m];
      assert fs[..k][m] == fs[m];
    }
    assert Three(c, ip, fs, i, j, k);
  }

  lemma ThreeIsStreak(c: Codec, ip: string, fs: seq<Frame>) returns (n: nat)
    requires ThreeInARow(c, ip, fs)
    ensures n <= |fs| && Streak(c, ip, fs[..n]) >= 3
  {
    hide Delivers, Unparsable, Streak;
    var i: nat, j: nat, k: nat :| Three(c, ip, fs, i, j, k);
    OneMore(c, ip, fs, i);
    Between(c, ip, fs, i + 1, j);
    OneMore(c, ip, fs, j);
    Between(c, ip, fs, j + 1, k);
    OneMore(c, ip, fs, k);
    n := k + 1;
  }

  /** No streak of three in the first frames of a stream, m not included. */
  ghost predicate Low(c: Codec, ip: string, past: seq<Frame>, fs: seq<Frame>, m: nat)
    requires m <= |fs| + 1
  {
    forall l: nat :: l < m ==> Streak(c, ip, past + fs[..l]) < 3
  }

  /** Three in a row means that at some point there was a streak of three. */
  lemma StreakOfThree(c: Codec, ip: string, fs: seq<Frame>, l: nat)
    requires l <= |fs|
    ensures ThreeInARow(c, ip, fs[..l]) <==> !Low(c, ip, [], fs, l + 1)
  {
    hide Streak, ThreeInARow;
    if ThreeInARow(c, ip, fs[..l]) {
      var n := ThreeIsStreak(c, ip, fs[..l]);
      assert fs[..l][..n] == [] + fs[..n];
    }
    if !Low(c, ip, [], fs, l + 1) {
      var n: nat :| n < l + 1 && Streak(c, ip, [] + fs[..n]) >= 3;
      assert fs[..l][..n] == [] + fs[..n];
      StreakIsThree(c, ip, fs[..l], n);
    }
  }

  lemma OneMore(c: Codec, ip: string, fs: seq<Frame>, k: nat)
    requires k < |fs| && Unparsable(c, fs[k])
    ensures Streak(c, ip, fs[..k + 1]) == Streak(c, ip, fs[..k]) + 1
  {
    assert fs[..k + 1][..k] == fs[..k];
  }

  lemma Between(c: Codec, ip: string, fs: seq<Frame>, from: nat, to: nat)
    requires from <= to <= |fs| && forall m :: from <= m < to ==> !Delivers(c, Key(SubPi(ip)), fs[m])
    ensures Streak(c, ip, fs[..to]) >= Streak(c, ip, fs[..from])
  {
    assert fs[..to][..from] == fs[..from];
    StreakGrows(c, ip, fs[..to], from);
  }

  /** The events of the delivered ones among these frames. */
  function Heard(c: Codec, ip: string, fs: seq<Frame>): seq<Event> {
    if fs == [] then []
    else (if Delivers(c, Key(SubPi(ip)), fs[0]) then [Meaning(c, ip, fs[0])] else []) + Heard(c, ip, fs[1..])
  }

  /** The listener has read m of the frames to come: as many as it was let, or up to its third error in a row. */
  ghost predicate ReadTo(c: Codec, ip: string, st: State, past: seq<Frame>, fs: seq<Frame>, ready: nat, m: nat, end: State) {
    && m <= ready && m <= |fs|
    && end.events == st.events + Heard(c, ip, fs[..m])
    && Low(c, ip, past, fs, m)
    && (end.exit == Some(TooManyErrors) <==> Streak(c, ip, past + fs[..m]) >= 3)
    && (end.exit != Some(TooManyErrors) ==>
          && (m == ready || m == |fs|) && end.errors == Streak(c, ip, past + fs[..m])
          && (end.exit.None? || end.exit == Some(Disconnected)))
  }

  lemma {:induction false} ReadsOn(c: Codec, ip: string, st: State, past: seq<Frame>, fs: seq<Frame>, selects: seq<Select>)
    returns (m: nat)
    requires st.exit.None? && st.input == EncodeAll(fs) && st.errors == Streak(c, ip, past) < 3
    requires (forall f <- fs :: Known(c, ip, f)) && Failed !in selects
    ensures ReadTo(c, ip, st, past, fs, ReadyCount(selects), m, Run(c, Key(SubPi(ip)), st, selects))
    decreases |selects|
  {
    hide Step, Known, Streak, Heard, ReadTo;
    var key := Key(SubPi(ip));
    if selects == [] {
      m := 0;
      NothingRead(c, ip, st, past, fs, 0, st);
    } else if selects[0] == TimedOut {
      m := ReadsOn(c, ip, st, past, fs, selects[1..]);
    } else if fs == [] {
      m := 0;
      EmptyStream(c, key, st);
      assert Run(c, key, Step(c, key, st), selects[1..]) == Step(c, key, st);
      NothingRead(c, ip, st, past, fs, ReadyCount(selects), Step(c, key, st));
    } else {
      var f, rest, next := fs[0], EncodeAll(fs[1..]), Step(c, key, st);
      NextFrame(c, ip, st, past, f, rest);
      assert fs == [f] + fs[1..];
      if next.exit.Some? {
        assert Run(c, key, next, selects[1..]) == next;
        m := 1;
        LastRead(c, ip, st, past, fs, ReadyCount(selects), next);
      } else {
        var k := ReadsOn(c, ip, next, past + [f], fs[1..], selects[1..]);
        m := k + 1;
        OneMoreRead(c, ip, st, past, fs, ReadyCount(selects), next, k, Run(c, key, next, selects[1..]));
      }
    }
  }

  lemma NothingRead(c: Codec, ip: string, st: State, past: seq<Frame>, fs: seq<Frame>, ready: nat, end: State)
    requires st.errors == Streak(c, ip, past) < 3 && (ready == 0 || fs == [])
    requires end == st.(exit := end.exit) && (end.exit.None? || end.exit == Some(Disconnected))
    ensures ReadTo(c, ip, st, past, fs, ready, 0, end)
  {
    hide Streak;
    assert past + fs[..0] == past;
  }

  /** The count after one more frame. */
  lemma NextFrame(c: Codec, ip: string, st: State, past: seq<Frame>, f: Frame, rest: seq<byte>)
    requires st.exit.None? && st.errors == Streak(c, ip, past) < 3 && Known(c, ip, f) && st.input == Encode(f) + rest
    ensures var next := Step(c, Key(SubPi(ip)), st);
            && next.input == rest && next.errors == Streak(c, ip, past + [f])
            && next.exit == (if Streak(c, ip, past + [f]) < 3 then None else Some(TooManyErrors))
            && next.events == st.events + Heard(c, ip, [f])
  {
    FrameEffect(c, ip, st, f, rest);
    assert (past + [f])[..|past|] == past;
    hide Step, Delivers, Unparsable, Ignored, Aligned, Encode, Meaning, Key;
    assert Heard(c, ip, []) == [];
  }

  lemma LastRead(c: Codec, ip: string, st: State, past: seq<Frame>, fs: seq<Frame>, ready: nat, end: State)
    requires fs != [] && ready > 0 && Streak(c, ip, past) < 3 <= Streak(c, ip, past + [fs[0]])
    requires end.exit == Some(TooManyErrors) && end.events == st.events + Heard(c, ip, [fs[0]])
    ensures ReadTo(c, ip, st, past, fs, ready, 1, end)
  {
    hide Streak, Heard;
    assert past + fs[..0] == past && fs[..1] == [fs[0]];
  }

  lemma OneMoreRead(c: Codec, ip: string, st: State, past: seq<Frame>, fs: seq<Frame>, ready: nat, next: State, k: nat, end: State)
    requires fs != [] && ready > 0 && Streak(c, ip, past) < 3 && next.events == st.events + Heard(c, ip, [fs[0]])
    requires ReadTo(c, ip, next, past + [fs[0]], fs[1..], ready - 1, k, end)
    ensures ReadTo(c, ip, st, past, fs, ready, k + 1, end)
  {
    hide Streak, Heard, Low;
    var f, rest := fs[0], fs[1..];
    HeardMore(c, ip, f, rest[..k]);
    assert fs[..k + 1] == [f] + rest[..k];
    ConcatAssociative(st.events, Heard(c, ip, [f]), Heard(c, ip, rest[..k]));
    ConcatAssociative(past, [f], rest[..k]);
    LowMore(c, ip, past, fs, k);
  }

  lemma LowMore(c: Codec, ip: string, past: seq<Frame>, fs: seq<Frame>, k: nat)
    requires fs != [] && k <= |fs| - 1 && Streak(c, ip, past) < 3 && Low(c, ip, past + [fs[0]], fs[1..], k)
    ensures Low(c, ip, past, fs, k + 1)
  {
    hide Streak;
    forall l: nat | l < k + 1
      ensures Streak(c, ip, past + fs[..l]) < 3
    {
      if l == 0 {
        assert past + fs[..0] == past;
      } else {
        OneFurther(past, fs, l);
      }
    }
  }

  lemma OneFurther(past: seq<Frame>, fs: seq<Frame>, l: nat)
    requires 0 < l <= |fs|
    ensures past + fs[..l] == past + [fs[0]] + fs[1..][..l - 1]
  {
    assert fs[..l] == [fs[0]] + fs[1..][..l - 1];
    ConcatAssociative(past, [fs[0]], fs[1..][..l - 1]);
  }

  lemma HeardMore(c: Codec, ip: string, f: Frame, fs: seq<Frame>)
    ensures Heard(c, ip, [f] + fs) == Heard(c, ip, [f]) + Heard(c, ip, fs)
  {
    hide Delivers, Meaning;
    assert ([f] + fs)[1..] == fs;
    assert Heard(c, ip, []) == [];
  }

  /**
    * A new listener on any stream of delivered, unparsable and ignored frames, however the waits fall: of the n frames
    * it is let read it gives up if and only if there are three unparsable ones with none delivered in between. It
    * does so at the first such three, and what it has read by then, or all n otherwise, has had its events.
    */
  lemma GivesUpExactly(c: Codec, ip: string, fs: seq<Frame>, selects: seq<Select>)
    requires (forall f <- fs :: Known(c, ip, f)) && Failed !in selects
    ensures var n := if ReadyCount(selects) < |fs| then ReadyCount(selects) else |fs|;
            var end := Run(c, Key(SubPi(ip)), State(EncodeAll(fs), 0, [], [], None), selects);
            && (end.exit == Some(TooManyErrors) <==> ThreeInARow(c, ip, fs[..n]))
            && (end.exit != Some(TooManyErrors) ==>
                  end.events == Heard(c, ip, fs[..n]) && (end.exit.None? || end.exit == Some(Disconnected)))
            && (end.exit == Some(TooManyErrors) ==>
                  exists m :: 0 < m <= n && end.events == Heard(c, ip, fs[..m])
                              && ThreeInARow(c, ip, fs[..m]) && !ThreeInARow(c, ip, fs[..m - 1]))
  {
    hide Run, Known, Streak, Heard, ThreeInARow, Low;
    var n := if ReadyCount(selects) < |fs| then ReadyCount(selects) else |fs|;
    var st := State(EncodeAll(fs), 0, [], [], None);
    NoStreak(c, ip);
    var m := ReadsOn(c, ip, st, [], fs, selects);
    assert [] + fs[..m] == fs[..m];
    StreakOfThree(c, ip, fs, n);
    StreakOfThree(c, ip, fs, m);
    LowUpTo(c, ip, fs, m, n);
    if m > 0 {
      StreakOfThree(c, ip, fs, m - 1);
    }
  }

  lemma LowUpTo(c: Codec, ip: string, fs: seq<Frame>, m: nat, n: nat)
    requires m <= n <= |fs| && Low(c, ip, [], fs, m)
    ensures Low(c, ip, [], fs, m + 1) <==> Streak(c, ip, [] + fs[..m]) < 3
    ensures Low(c, ip, [], fs, n + 1) ==> Low(c, ip, [], fs, m + 1)
    ensures Streak(c, ip, []) == 0 && (m == 0 ==> Streak(c, ip, [] + fs[..m]) == 0)
  {
    assert [] + fs[..0] == [];
  }

  /** A wait that fails is the end, whatever the waits after it would have been. */
  lemma {:induction false} FailedWaitEnds(c: Codec, key: string, st: State, before: seq<Select>, after: seq<Select>)
    requires |key| >= 6 && st.exit.None?
    ensures var end := Run(c, key, st, before + [Failed] + after);
            && end.exit.Some? && end == Run(c, key, st, before + [Failed])
            && (Run(c, key, st, before).exit.None? ==>
                  end == Run(c, key, st, before).(exit := Some(SelectFailed)))
    decreases |before|
  {
    hide Step;
    if before != [] {
      assert (before + [Failed] + after)[1..] == before[1..] + [Failed] + after;
      assert (before + [Failed])[1..] == before[1..] + [Failed];
      var next := if before[0] == Ready then Step(c, key, st) else st;
      if before[0] != Failed && next.exit.None? {
        FailedWaitEnds(c, key, next, before[1..], after);
      }
    }
  }

  lemma NoStreak(c: Codec, ip: string)
    ensures Streak(c, ip, []) == 0
  {
  }
}
