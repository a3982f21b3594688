/** Runs that show why the conditions of the relay theorem are there. */
module DiscoveryExamples {
  import opened Common
  import opened DeviceManager
  import opened SubPiManager
  import opened Discovery
  import opened DiscoveryRelay

  lemma {:induction false} Extend(s: State, steps: seq<Step>, step: Step)
    requires Possible(s, steps) && Enabled(After(s, steps), step)
    ensures Possible(s, steps + [step]) && After(s, steps + [step]) == Next(After(s, steps), step)
    decreases |steps|
  {
    hide Enabled, Next;
    if steps == [] {
      assert steps + [step] == [step];
      assert Possible(Next(s, step), []);
    } else {
      Extend(Next(s, steps[0]), steps[1..], step);
      assert (steps + [step])[0] == steps[0] && (steps + [step])[1..] == steps[1..] + [step];
    }
  }

  /** Some run goes from one state to the other. */
  ghost predicate Leads(o: State, s: State) {
    exists steps :: Possible(o, steps) && After(o, steps) == s
  }

  lemma Onward(o: State, s: State, step: Step)
    requires Leads(o, s) && Enabled(s, step)
    ensures Leads(o, Next(s, step))
  {
    hide Enabled, Next;
    var steps :| Possible(o, steps) && After(o, steps) == s;
    Extend(o, steps, step);
  }

  lemma Stays(o: State)
    ensures Leads(o, o)
  {
    assert Possible(o, []) && After(o, []) == o;
  }

  /** A Sub-Pi has connected on descriptor 3 and its registration is about to be announced. */
  lemma Announced(o: State, s: State, ip: string) returns (t: State)
    requires Leads(o, s) && s.beacon.BIdle? && s.devices == map[] && 3 !in s.open && s.issued == [] && s.nextPort == FIRST_PORT
    ensures Leads(o, t)
    ensures var info := SessionInfo(ip, FIRST_PORT, 3);
            && t.devices == map[SubPi(ip) := info] && t.issued == [Registered(info)]
            && t.beacon == BPublished(info, Some(0)) && t.monitor == s.monitor && t.scanner == s.scanner
            && t.mounts == s.mounts && t.open == s.open[3 := Stream(|s.sessions|)] && t.ran == s.ran
            && t.sessions == s.sessions + [Session(ip, FIRST_PORT, 3)] && t.nextPort == FIRST_PORT + 1
            && t.threads == s.threads && t.listeners == s.listeners && t.finished == s.finished && t.closed == s.closed
  {
    Onward(o, s, BeaconHear(ip));
    var s1 := Hear(s, ip);
    Onward(o, s1, BeaconConnect(Some(3)));
    var s2 := Connect(s1, ip, 3);
    Onward(o, s2, BeaconPublish);
    t := Publish(s2, SessionInfo(ip, FIRST_PORT, 3));
  }

  /** A Sub-Pi registered before the relay server has started stays without a relay. */
  lemma RegisteredTooEarly(ip: string)
    ensures exists s :: Leads(Init, s) && s.mounts.Some? && (forall k: nat :: !Outstanding(s, k))
              && Wanted(s, SubPi(ip)) == Some(FIRST_PORT) && Mounted(s, SubPi(ip)) == None
  {
    Stays(Init);
    var s := Announced(Init, Init, ip);
    Onward(Init, s, BeaconNotify);
    var s1 := RunCallback(s.(beacon := BPublished(s.beacon.info, None)), 0);
    Onward(Init, s1, RelayStart);
    var s2 := s1.(mounts := Some(map[]));
    assert forall k: nat :: !Outstanding(s2, k);
  }

  /**
    * The beacon thread is held up between releasing the mutex and announcing; meanwhile the monitor
    * takes the device down and removes its relay. The late announcement then mounts a dead device.
    */
  lemma AnnouncementOvertaken(ip: string)
    ensures exists s :: Leads(Init, s) && s.mounts.Some? && (forall k: nat :: !Outstanding(s, k))
              && Wanted(s, SubPi(ip)) == None && Mounted(s, SubPi(ip)) == Some(FIRST_PORT)
  {
    Stays(Init);
    Onward(Init, Init, RelayStart);
    var s := Announced(Init, Init.(mounts := Some(map[])), ip);
    var dead := FoundDead(Init, s, ip);
    var s1 := TakenDown(Init, dead, ip);
    Onward(Init, s1, BeaconNotify);
    var s2 := RunCallback(s1.(beacon := BPublished(s1.beacon.info, None)), 0);
    assert forall k: nat :: !Outstanding(s2, k);
  }

  /** The monitor snapshots the device and finds its connection dead. */
  lemma FoundDead(o: State, s: State, ip: string) returns (t: State)
    requires Leads(o, s) && s.monitor.MIdle?
    requires s.devices == map[SubPi(ip) := SessionInfo(ip, FIRST_PORT, 3)] && s.open == map[3 := Stream(0)]
    ensures Leads(o, t)
    ensures t == s.(monitor := MReaping([Mark(CheckTarget(SubPi(ip), ip, SUB_PI, 3), Some(Stream(0)))], 0, []))
  {
    var target := CheckTarget(SubPi(ip), ip, SUB_PI, 3);
    assert target in [target];
    assert IsSnapshot(s.devices, [target]);
    Onward(o, s, MonitorSnapshot([target]));
    t := ProbedDead(o, s.(monitor := MProbing([target], 0, [], map[])), target);
  }

  lemma ProbedDead(o: State, s: State, target: CheckTarget) returns (t: State)
    requires Leads(o, s) && s.monitor == MProbing([target], 0, [], map[])
    requires target.kind == SUB_PI && target.fd in s.open
    ensures Leads(o, t) && t == s.(monitor := MReaping([Mark(target, Some(s.open[target.fd]))], 0, []))
  {
    hide Leads, Hear, Connect, Publish, PublishChannel, ReapNext, RunCallback, HearCamera, HarvestCamera, Join, Spawn, Exit, Joinable;
    Onward(o, s, MonitorProbe(false));
    var s2 := Probe(s, false);
    assert s2.monitor.offline == [Mark(target, Some(s.open[target.fd]))];
    Onward(o, s2, MonitorEnough);
    t := s2.(monitor := MReaping(s2.monitor.offline, 0, []));
  }

  /** The monitor takes it offline and announces the removal before anyone else moves. */
  lemma TakenDown(o: State, s: State, ip: string) returns (t: State)
    requires Leads(o, s) && s.mounts == Some(map[]) && |s.issued| == 1
    requires s.devices == map[SubPi(ip) := SessionInfo(ip, FIRST_PORT, 3)] && s.open == map[3 := Stream(0)]
    requires s.monitor == MReaping([Mark(CheckTarget(SubPi(ip), ip, SUB_PI, 3), Some(Stream(0)))], 0, [])
    ensures Leads(o, t) && t.mounts == Some(map[]) && t.beacon == s.beacon && t.scanner == s.scanner && t.monitor.MIdle?
    ensures t.issued == s.issued + [Removed(SubPi(ip))]
    ensures t.devices == map[SubPi(ip) := SessionInfo(ip, FIRST_PORT, 3).(online := false, fd := -1)]
  {
    hide Leads, Hear, Connect, Publish, PublishChannel, Probe, RunCallback, HearCamera, HarvestCamera, Join, Spawn, Exit, Joinable;
    Onward(o, s, MonitorReap);
    t := RemovalAnnounced(o, ReapNext(s), ip);
  }

  lemma RemovalAnnounced(o: State, s0: State, ip: string) returns (t: State)
    requires Leads(o, s0) && s0.monitor.MReaping? && s0.monitor.done == |s0.monitor.offline| && s0.monitor.pending == [1]
    requires s0.mounts == Some(map[]) && |s0.issued| == 2 && s0.issued[1] == Removed(SubPi(ip))
    ensures Leads(o, t) && t == s0.(monitor := MIdle, ran := s0.ran + {1}, lastRun := s0.lastRun[SubPi(ip) := 1])
  {
    Onward(o, s0, MonitorReapEnd);
    t := RemovalRun(o, s0.(monitor := MNotifying([1])), ip);
  }

  lemma RemovalRun(o: State, s: State, ip: string) returns (t: State)
    requires Leads(o, s) && s.monitor == MNotifying([1]) && s.mounts == Some(map[])
    requires |s.issued| == 2 && s.issued[1] == Removed(SubPi(ip))
    ensures Leads(o, t) && t == s.(monitor := MIdle, ran := s.ran + {1}, lastRun := s.lastRun[SubPi(ip) := 1])
  {
    hide Leads, Hear, Connect, Publish, PublishChannel, Probe, ReapNext, HearCamera, HarvestCamera, Join, Spawn, Exit, Joinable;
    Onward(o, s, MonitorNotify);
    assert s.monitor.pending[1..] == [];
    var s6 := RunCallback(s.(monitor := MNotifying([])), 1);
    assert s6.mounts.value == map[];
    Onward(o, s6, MonitorRest);
    t := s6.(monitor := MIdle);
  }
}
