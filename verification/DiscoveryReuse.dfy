/** What the descriptors kept by listeners and motor commands stand for, and what becomes of them when they are reused. */
module DiscoveryReuse {
  import opened Common
  import opened DeviceManager
  import opened RtspServer
  import opened SubPiManager
  import opened OnvifScanner
  import opened Discovery
  import opened DiscoverySockets
  import opened DiscoveryThreads
  import opened DiscoveryExamples

  /** The session the beacon thread is busy with. */
  function Attended(b: Beacon): Option<DeviceInfo> {
    match b
    case BConnected(info) => Some(info)
    case BPublished(info, _) => Some(info)
    case BReaping(info, _) => Some(info)
    case BSpawning(info) => Some(info)
    case _ => None
  }

  /** A record as it was made at a handshake. */
  ghost predicate Genuine(s: State, info: DeviceInfo) {
    var n := SessionOf(info.port);
    0 <= n < |s.sessions| && info.id == SubPi(info.ip) && s.sessions[n] == Session(info.ip, info.port, info.fd)
  }

  ghost predicate OfSession(s: State, l: Listener) {
    0 <= l.session < |s.sessions| && l.device == SubPi(s.sessions[l.session].ip)
  }

  ghost predicate Knows(s: State) {
    && (Attended(s.beacon).Some? ==> Genuine(s, Attended(s.beacon).value))
    && (forall t :: 0 <= t < |s.threads| ==> OfSession(s, s.threads[t]))
  }

  /** Nothing but a handshake adds a session or gives the beacon thread another one to attend to, until it has a listener. */
  ghost predicate SameSessions(s: State, s': State) {
    && s'.sessions == s.sessions
    && (Attended(s'.beacon) == Attended(s.beacon)
        || (Attended(s'.beacon) == None && |s'.threads| == |s.threads| + 1))
  }

  lemma RunSameSessions(s: State, s1: State, k: nat)
    requires k < |s1.issued| && s1.sessions == s.sessions && Attended(s1.beacon) == Attended(s.beacon)
    ensures SameSessions(s, RunCallback(s1, k))
  {
  }

  lemma ThreadStepSameSessions(s: State, step: Step)
    requires Enabled(s, step) && ThreadStep(step)
    ensures SameSessions(s, Next(s, step))
  {
  }

  lemma PublishSameSessions(s: State, info: DeviceInfo)
    requires s.beacon == BConnected(info)
    ensures SameSessions(s, Publish(s, info))
  {
  }

  lemma ChannelSameSessions(s: State, ip: string, urls: seq<string>, i: nat)
    requires i < |urls|
    ensures SameSessions(s, PublishChannel(s, ip, urls, i))
  {
  }

  lemma StepSameSessions(s: State, step: Step)
    requires Enabled(s, step) && !(step.BeaconConnect? && step.socket.Some?)
    ensures SameSessions(s, Next(s, step))
  {
    hide Harvest, Hear, Connect, Publish, PublishChannel, Probe, ReapNext, RunCallback, HearCamera, HarvestCamera,
      Join, Spawn, Exit, Joinable, Fed;
    if ThreadStep(step) {
      ThreadStepSameSessions(s, step);
    } else if step.BeaconHear? {
      HearFrame(s, step.ip);
    } else if step.BeaconPublish? {
      PublishSameSessions(s, s.beacon.info);
    } else if step.ScanPublish? {
      ChannelSameSessions(s, s.scanner.ip, s.scanner.urls, s.scanner.next);
    } else if step.ScanHear? {
      ScanTouchesNothing(s, step.ip, []);
      ScanSameBeacon(s, step.ip, []);
    } else if step.ScanHarvest? {
      ScanTouchesNothing(s, s.scanner.ip, Harvest(step.replies, 0));
      ScanSameBeacon(s, s.scanner.ip, Harvest(step.replies, 0));
    } else if step.MonitorProbe? {
      ProbeSameSessions(s, step.ok);
    } else if step.MonitorReap? {
      ReapFrame(s);
    } else if step.BeaconNotify? {
      RunSameSessions(s, s.(beacon := BPublished(s.beacon.info, None)), s.beacon.pending.value);
    } else if step.ScanNotify? {
      RunSameSessions(s, s.(scanner := Fed(s.scanner.ip, s.scanner.urls, s.scanner.next + 1)), s.scanner.pending);
    } else if step.MonitorNotify? {
      RunSameSessions(s, s.(monitor := MNotifying(s.monitor.pending[1..])), s.monitor.pending[0]);
    }
  }

  lemma ScanSameBeacon(s: State, ip: string, urls: seq<string>)
    ensures HearCamera(s, ip).beacon == s.beacon && HarvestCamera(s, ip, urls).beacon == s.beacon
  {
    hide DeviceManager.Registered, Fed, Fails;
  }

  lemma ProbeSameSessions(s: State, ok: bool)
    requires s.monitor.MProbing? && s.monitor.at < |s.monitor.targets|
    ensures SameSessions(s, Probe(s, ok))
  {
  }

  lemma ConnectKnows(s: State, ip: string, fd: int)
    requires Ports(s) && Knows(s)
    ensures Knows(Connect(s, ip, fd))
  {
    var s' := Connect(s, ip, fd);
    forall t | 0 <= t < |s'.threads|
      ensures OfSession(s', s'.threads[t])
    {
      assert OfSession(s, s.threads[t]);
    }
  }

  lemma SpawnKnows(s: State, info: DeviceInfo)
    requires Knows(s) && s.beacon == BSpawning(info)
    ensures Knows(Spawn(s, info))
  {
    var s' := Spawn(s, info);
    forall t | 0 <= t < |s'.threads|
      ensures OfSession(s', s'.threads[t])
    {
      if t < |s.threads| {
        assert OfSession(s, s.threads[t]);
      }
    }
  }

  lemma AgedKnows(s: State, s': State)
    requires Knows(s) && SameSessions(s, s') && Aged(s, s') && |s'.threads| == |s.threads|
    ensures Knows(s')
  {
    forall t | 0 <= t < |s'.threads|
      ensures OfSession(s', s'.threads[t])
    {
      assert OfSession(s, s.threads[t]);
    }
  }

  lemma SameCount(s: State, step: Step)
    requires Enabled(s, step) && !step.BeaconSpawn?
    ensures |Next(s, step).threads| == |s.threads|
  {
    hide Harvest, Hear, Connect, Publish, PublishChannel, Probe, ReapNext, RunCallback, HearCamera, HarvestCamera, Spawn;
    if !ThreadStep(step) {
      OtherStepsSameThreads(s, step);
    }
  }

  lemma KnowsKept(s: State, step: Step)
    requires DiscoverySockets.Inv(s) && Threads(s) && Knows(s) && Enabled(s, step)
    ensures Knows(Next(s, step))
  {
    hide Knows, Threads, Aged, SameSessions, Connect, Spawn, DiscoverySockets.Descriptors, DiscoverySockets.Records,
      DiscoverySockets.BeaconState;
    if step.BeaconConnect? && step.socket.Some? {
      ConnectKnows(s, s.beacon.ip, step.socket.value);
    } else if step.BeaconSpawn? {
      SpawnKnows(s, s.beacon.info);
    } else {
      StepSameSessions(s, step);
      LifeCycle(s, step);
      SameCount(s, step);
      hide Next, Enabled;
      AgedKnows(s, Next(s, step));
    }
  }

  lemma KnowsInitially()
    ensures Knows(Init)
  {
  }

  ghost predicate All(s: State) {
    DiscoverySockets.Inv(s) && MonitorState(s) && Threads(s) && Knows(s)
  }

  lemma {:induction false} AllReached(s: State, steps: seq<Step>)
    requires All(s) && Possible(s, steps)
    ensures All(After(s, steps)) && s.sessions <= After(s, steps).sessions
    decreases |steps|
  {
    if steps != [] {
      hide DiscoverySockets.Inv, MonitorState, Threads, Knows, Enabled, Next;
      var s' := Next(s, steps[0]);
      InvKept(s, steps[0]);
      MonitorStateKept(s, steps[0]);
      ThreadsKept(s, steps[0]);
      KnowsKept(s, steps[0]);
      SessionsGrow(s, steps[0]);
      AllReached(s', steps[1..]);
      PrefixTrans(s.sessions, s'.sessions, After(s', steps[1..]).sessions);
    }
  }

  lemma SessionsGrow(s: State, step: Step)
    requires Enabled(s, step)
    ensures s.sessions <= Next(s, step).sessions
  {
    if !(step.BeaconConnect? && step.socket.Some?) {
      StepSameSessions(s, step);
      hide Next, Enabled;
    }
  }

  lemma AllInitially()
    ensures All(Init)
  {
    InvInitially();
    ThreadsInitially();
    KnowsInitially();
  }

  /**
    * A listener reads and labels the stream of its own session as long as, and only as long as, the monitor
    * has not closed that session; it is always the session of the Sub-Pi under whose id it was started.
    */
  lemma ListenerReadsItsOwn(steps: seq<Step>, t: nat)
    requires Possible(Init, steps) && t < |After(Init, steps).threads|
    ensures var s := After(Init, steps);
            var n := s.threads[t].session;
            && 0 <= n < |s.sessions| && s.threads[t].device == SubPi(s.sessions[n].ip)
            && (s.sessions[n].fd in s.open && s.open[s.sessions[n].fd] == Stream(n) <==> n !in s.closed)
  {
    AllInitially();
    AllReached(Init, steps);
    hide Possible, After, Threads, MonitorState;
    var s := After(Init, steps);
    assert OfSession(s, s.threads[t]);
    assert Settled(s, s.threads[t].session);
  }

  /**
    * A descriptor looked up at one moment and used at a later one, as a motor command does: it still stands for
    * the session it was looked up for, that of an online Sub-Pi at the wanted address, exactly if the monitor
    * has not closed that session in between.
    */
  lemma LookedUpDescriptor(before: seq<Step>, between: seq<Step>, id: DeviceId)
    requires Possible(Init, before) && Possible(After(Init, before), between)
    requires var s := After(Init, before); id in s.devices && Commands(s.devices[id], s.devices[id].ip)
    ensures var s := After(Init, before);
            var s' := After(s, between);
            var n := SessionOf(s.devices[id].port);
            && 0 <= n < |s.sessions| <= |s'.sessions| && s'.sessions[n].ip == s.devices[id].ip
            && n !in s.closed
            && (s.devices[id].fd in s'.open && s'.open[s.devices[id].fd] == Stream(n) <==> n !in s'.closed)
  {
    AllInitially();
    AllReached(Init, before);
    var s := After(Init, before);
    AllReached(s, between);
    var s' := After(s, between);
    hide Possible, After, Threads, MonitorState, Knows;
    var n := SessionOf(s.devices[id].port);
    OnlineCommands(s, id);
    assert s'.sessions[n] == s.sessions[n];
    assert Settled(s', n);
  }

  lemma OnlineCommands(s: State, id: DeviceId)
    requires DiscoverySockets.Inv(s) && id in s.devices && Commands(s.devices[id], s.devices[id].ip)
    ensures var n := SessionOf(s.devices[id].port);
            0 <= n < |s.sessions| && s.sessions[n].ip == s.devices[id].ip && s.sessions[n].fd == s.devices[id].fd
            && n !in s.closed
  {
    assert id.SubPi?;
    OnlineMeans(s, id);
  }

  // ---- a run in which a descriptor is reused ----

  /** The first Sub-Pi is connected on descriptor 3 and its listener is running. */
  ghost predicate Listening(s: State, ip: string) {
    && s.devices == map[SubPi(ip) := SessionInfo(ip, FIRST_PORT, 3)] && s.open == map[3 := Stream(0)]
    && s.sessions == [Session(ip, FIRST_PORT, 3)] && s.nextPort == FIRST_PORT + 1 && s.closed == []
    && s.threads == [Listener(SubPi(ip), 0, Running)] && s.beacon.BIdle? && s.monitor.MIdle?
  }

  lemma FirstListens(ip: string) returns (s: State)
    ensures Leads(Init, s) && Listening(s, ip)
  {
    Stays(Init);
    hide Leads;
    var t := Announced(Init, Init, ip);
    Onward(Init, t, BeaconNotify);
    var t1 := RunCallback(t.(beacon := BPublished(t.beacon.info, None)), 0);
    Onward(Init, t1, BeaconSwap);
    var t2 := t1.(beacon := BReaping(t.beacon.info, {}), finished := {});
    Onward(Init, t2, BeaconReplace);
    var t3 := t2.(beacon := BSpawning(t.beacon.info));
    Onward(Init, t3, BeaconSpawn);
    s := Spawn(t3, t.beacon.info);
  }

  /** The monitor closes the session, and the kernel hands descriptor 3 out again for the second Sub-Pi. */
  lemma SecondConnects(s: State, first: string, second: string) returns (t: State)
    requires Listening(s, first) && first != second
    ensures Leads(s, t) && t.threads == s.threads && t.closed == [0]
    ensures t.sessions == s.sessions + [Session(second, FIRST_PORT + 1, 3)] && t.open == map[3 := Stream(1)]
  {
    Stays(s);
    hide Leads;
    var t1 := FoundDead(s, s, first);
    Onward(s, t1, MonitorReap);
    var t2 := ReapNext(t1);
    assert t2.closed == [0] && t2.open == map[];
    Reconnect(s, t2, second);
    t := Connect(t2.(beacon := BChecked(second)), second, 3);
  }

  lemma Reconnect(o: State, s: State, ip: string)
    requires Leads(o, s) && s.beacon.BIdle? && !DeviceManager.Registered(s.devices, SubPi(ip)) && 3 !in s.open
    ensures Leads(o, Connect(s.(beacon := BChecked(ip)), ip, 3))
  {
    Onward(o, s, BeaconHear(ip));
    Onward(o, Hear(s, ip), BeaconConnect(Some(3)));
  }

  /**
    * The listener of one Sub-Pi keeps running on a descriptor that the monitor has closed and the kernel has
    * handed out again: it reads the stream of another Sub-Pi and labels it with its own. A motor command that
    * looked the descriptor up before reaches the other Sub-Pi in the same way.
    */
  lemma DescriptorReused(first: string, second: string)
    requires first != second
    ensures exists s, t :: Leads(Init, s) && Leads(s, t)
              && SubPi(first) in s.devices && Commands(s.devices[SubPi(first)], first)
              && |t.threads| == 1 && t.threads[0] == Listener(SubPi(first), 0, Running)
              && |t.sessions| == 2 && t.sessions[1].ip == second
              && t.sessions[0].fd == s.devices[SubPi(first)].fd
              && t.sessions[0].fd in t.open && t.open[t.sessions[0].fd] == Stream(1)
  {
    var s := FirstListens(first);
    var t := SecondConnects(s, first, second);
  }
}
