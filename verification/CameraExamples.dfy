/** A run after which a client has an outdated camera list. */
module CameraExamples {
  import opened Common
  import opened Wire
  import opened Pieces
  import Acceptor
  import Broadcast
  import opened CameraLists

  lemma {:induction false} Extend(p: Broadcast.Programs, s: State, steps: seq<Step>, step: Step)
    requires Possible(p, s, steps) && Enabled(p, After(p, s, steps), step)
    ensures Possible(p, s, steps + [step]) && After(p, s, steps + [step]) == Next(p, After(p, s, steps), step)
    decreases |steps|
  {
    hide Enabled, Next;
    if steps == [] {
      assert steps + [step] == [step];
      assert Possible(p, Next(p, s, step), []);
    } else {
      Extend(p, Next(p, s, steps[0]), steps[1..], step);
      assert (steps + [step])[0] == steps[0] && (steps + [step])[1..] == steps[1..] + [step];
    }
  }

  const List := Frame(CAMERA, [91, 93], [])

  /** Thread 0 pushes the list once. */
  function One(): Broadcast.Programs { map[0 := [List]] }

  ghost predicate Reached(s: State) {
    exists steps :: Possible(One(), Init, steps) && After(One(), Init, steps) == s
  }

  /** One step further. */
  lemma Onward(s: State, step: Step, s': State)
    requires Reached(s) && Enabled(One(), s, step) && Next(One(), s, step) == s'
    ensures Reached(s')
  {
    hide Enabled, Next;
    var steps :| Possible(One(), Init, steps) && After(One(), Init, steps) == s;
    Extend(One(), Init, steps, step);
  }

  lemma StartReached()
    ensures Reached(Init)
  {
    assert Possible(One(), Init, []) && After(One(), Init, []) == Init;
  }

  lemma ListLength()
    ensures Broadcast.Length(List) == 7
  {
  }

  function First(phase: Acceptor.Phase): map<Conn, Acceptor.Link> {
    map[0 := Acceptor.Link(5, phase)]
  }

  function Server(place: Acceptor.Place): Acceptor.State {
    Acceptor.State(First(Acceptor.Serving), [5], map[5 := 0], {}, place, {}, {})
  }

  const Entered := Broadcast.NewLine.(since := Some(0))

  /** The handler of connection 0 has been started under descriptor 5. */
  function Arrived(): State {
    Init.(link := Broadcast.Init.(server := Server(Acceptor.Sweeping), lines := map[0 := Entered]), answered := map[0 := []])
  }

  lemma AcceptedReached() returns (s: State)
    ensures Reached(s)
    ensures s == Init.(link := Broadcast.Init.(
                         server := Acceptor.State(First(Acceptor.Accepted), [], map[], {}, Acceptor.Registering(0), {}, {}),
                         lines := map[0 := Broadcast.NewLine]), answered := map[0 := []])
  {
    hide Reached;
    StartReached();
    var s1 := Init.(link := Broadcast.Init.(server := Acceptor.Init.(place := Acceptor.Joining({}))));
    Onward(Init, Link(Broadcast.Serve(Acceptor.Sweep)), s1);
    var s2 := Init.(link := Broadcast.Init.(server := Acceptor.Init.(place := Acceptor.Waiting)));
    Onward(s1, Link(Broadcast.Serve(Acceptor.Wait)), s2);
    s := Init.(link := Broadcast.Init.(
                 server := Acceptor.State(First(Acceptor.Accepted), [], map[], {}, Acceptor.Registering(0), {}, {}),
                 lines := map[0 := Broadcast.NewLine]), answered := map[0 := []]);
    Onward(s2, Link(Broadcast.Serve(Acceptor.Accept(0, 5))), s);
  }

  lemma ArrivedReached()
    ensures Reached(Arrived())
  {
    hide Reached;
    var s0 := AcceptedReached();
    var lines := map[0 := Entered];
    var s1 := s0.(link := Broadcast.Init.(
                    server := Acceptor.State(First(Acceptor.Listed), [5], map[], {}, Acceptor.Spawning(0), {}, {}), lines := lines));
    Onward(s0, Link(Broadcast.Serve(Acceptor.Register)), s1);
    var s2 := s0.(link := Broadcast.Init.(
                    server := Acceptor.State(First(Acceptor.Serving), [5], map[], {}, Acceptor.Assigning(0), {}, {}), lines := lines));
    Onward(s1, Link(Broadcast.Serve(Acceptor.Spawn)), s2);
    Onward(s2, Link(Broadcast.Serve(Acceptor.Assign)), Arrived());
  }

  /** The handler has read the list for its welcome and begun to send it; then the registry changes, and thread 0 reads the new list. */
  function Changed(): State {
    Arrived().(link := Arrived().link.(lines := map[0 := Entered.(own := [List], direct := Some(0))]),
               version := 1, read := map[0 := 1], answered := map[0 := [0]])
  }

  lemma ChangedReached()
    ensures Reached(Changed())
  {
    hide Reached;
    ArrivedReached();
    var s1 := Arrived().(asked := map[0 := 0]);
    Onward(Arrived(), Ask(0), s1);
    var s2 := Changed().(version := 0, read := map[]);
    assert Entered.own + [List] == [List] && Answers(s1, 0) + [0] == [0];
    assert map[0 := 0] - {0} == map[];
    Onward(s1, Link(Broadcast.OwnBegin(0, List)), s2);
    var s3 := s2.(version := 1, owing := {0});
    Onward(s2, Change(0), s3);
    Onward(s3, Read(0), Changed());
  }

  const NewList := Piece(Broadcast.Logged(0, List), Encode(List), 0, 7)
  const OldList := Piece(Broadcast.Own(0, List), Encode(List), 0, 7)

  /** The new list has been broadcast. */
  function Pushed(holder: Option<Broadcast.Holder>): State {
    Changed().(link := Broadcast.State(Server(Acceptor.Sweeping),
                                       map[0 := Entered.(wire := [NewList], own := [List], direct := Some(0))],
                                       holder, map[0 := 1], [(0, List)]),
               read := map[], pushed := [1])
  }

  lemma PushedReached()
    ensures Reached(Pushed(Some(Broadcast.Holder(List, [5], 7, Some(0)))))
  {
    hide Reached;
    ListLength();
    ChangedReached();
    hide Encode;
    var s1 := Pushed(Some(Broadcast.Holder(List, [5], 0, None)));
    s1 := s1.(link := s1.link.(lines := Changed().link.lines));
    Onward(Changed(), Link(Broadcast.Lock(0)), s1);
    assert Put([], Broadcast.Logged(0, List), Encode(List), 0, 7, false) == [NewList];
    assert Shown(s1, 0) == [];
    Onward(s1, Link(Broadcast.Chunk(Some(0), 7)), Pushed(Some(Broadcast.Holder(List, [5], 7, Some(0)))));
  }

  lemma PushedAndFree()
    ensures Reached(Pushed(None))
  {
    hide Reached;
    ListLength();
    PushedReached();
    hide Encode;
    var s0 := Pushed(Some(Broadcast.Holder(List, [5], 7, Some(0))));
    var s1 := Pushed(Some(Broadcast.Holder(List, [], 0, None)));
    assert [5][1..] == [];
    Onward(s0, Link(Broadcast.NextClient), s1);
    Onward(s1, Link(Broadcast.Unlock), Pushed(None));
  }

  /** The old list has been sent after it. */
  function Outdated(direct: Option<nat>): State {
    Pushed(None).(link := Pushed(None).link.(
                    lines := map[0 := Entered.(wire := [NewList, OldList], own := [List], direct := direct)]), late := {0})
  }

  lemma OldListIsLate()
    ensures Begins(Pushed(None), Broadcast.OwnChunk(0, 7)) == Some((0, 0)) && Mark(Pushed(None), 0, 0) == {0}
  {
    hide Encode;
    var s := Pushed(None);
    OneShown(s, [], NewList);
    assert [] + [NewList] == [NewList];
    hide ShownOn;
    assert Overtakes(Shown(s, 0), 0) by {
      assert Shown(s, 0)[0] == 1;
    }
  }

  lemma OutdatedReached()
    ensures Reached(Outdated(None))
  {
    hide Reached, Encode, Shown, ShownOn, Overtakes, Mark, Begins;
    ListLength();
    PushedAndFree();
    OldListIsLate();
    assert Put([NewList], Broadcast.Own(0, List), Encode(List), 0, 7, false) == [NewList, OldList];
    Onward(Pushed(None), Link(Broadcast.OwnChunk(0, 7)), Outdated(Some(7)));
    EndOfWelcome();
  }

  lemma EndOfWelcome()
    requires Reached(Outdated(Some(7)))
    ensures Reached(Outdated(None))
  {
    hide Reached, Encode, Shown, ShownOn, Overtakes, Mark;
    ListLength();
    Onward(Outdated(Some(7)), Link(Broadcast.OwnEnd(0)), Outdated(None));
  }

  lemma OneShown(s: State, ps: seq<Piece<Broadcast.Origin>>, q: Piece<Broadcast.Origin>)
    ensures ShownOn(s, 0, ps + [q]) == ShownOn(s, 0, ps) + if IsList(q) then [Shows(s, 0, q.origin)] else []
    ensures ShownOn(s, 0, []) == []
  {
    assert (ps + [q])[..|ps|] == ps;
  }

  lemma BothShown(s: State)
    requires s == Outdated(None)
    ensures Shown(s, 0) == [1, 0]
  {
    hide Encode;
    OneShown(s, [], NewList);
    OneShown(s, [NewList], OldList);
    assert [] + [NewList] == [NewList] && [NewList] + [OldList] == [NewList, OldList];
    hide ShownOn;
  }

  /** A welcome read before a change of the registry is sent after the push of that change: nothing is outstanding, and the client ends up with the old list. */
  lemma OlderListSentLast()
    ensures exists s :: Reached(s) && Settled(s, 0) && Shown(s, 0) == [1, 0] && s.version == 1
  {
    hide Reached, Shown, ShownOn, Encode;
    OutdatedReached();
    BothShown(Outdated(None));
    assert Settled(Outdated(None), 0);
  }
}
