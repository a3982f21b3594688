/** Listener threads, the status cache, and the channels of Hanwha cameras. */
module DiscoveryThreads {
  import opened Common
  import opened Json
  import opened DeviceManager
  import opened SubPiManager
  import opened OnvifScanner
  import opened Discovery
  import DiscoverySockets

  // ---- listener threads ----

  /** The Sub-Pi the beacon thread has published but not yet given a listener. */
  predicate Attending(s: State, id: DeviceId) {
    (s.beacon.BPublished? || s.beacon.BReaping? || s.beacon.BSpawning?) && s.beacon.info.id == id
  }

  ghost predicate Threads(s: State) {
    && (forall id :: id in s.listeners ==>
          s.listeners[id] < |s.threads| && s.threads[s.listeners[id]].device == id
          && s.threads[s.listeners[id]].life != Joined)
    && (forall t: nat :: t < |s.threads| && s.threads[t].life != Joined ==>
          s.threads[t].device in s.listeners && s.listeners[s.threads[t].device] == t)
    && (s.beacon.BSpawning? ==> s.beacon.info.id !in s.listeners)
    && (forall t :: 0 <= t < |s.threads| ==> s.threads[t].device in s.devices)
    && (forall id :: Attending(s, id) ==> id in s.devices)
    && (forall id :: id in s.status ==> id in s.devices)
  }

  ghost predicate SameThreads(s: State, s': State) {
    && s'.threads == s.threads && s'.listeners == s.listeners && s'.status == s.status
    && (forall id :: id in s.devices ==> id in s'.devices)
    && (forall id :: Attending(s', id) ==> Attending(s, id) || id in s'.devices)
    && (s'.beacon.BSpawning? ==> s'.beacon == s.beacon)
  }

  lemma SameThreadsKeep(s: State, s': State)
    requires Threads(s) && SameThreads(s, s')
    ensures Threads(s')
  {
  }

  lemma JoinKeeps(s: State, s1: State, id: DeviceId)
    requires Threads(s) && s1 == s.(beacon := s1.beacon) && Joinable(s, id)
    requires forall d :: Attending(s1, d) ==> Attending(s, d)
    requires s1.beacon.BSpawning? ==> s1.beacon.info.id == id
    ensures Threads(Join(s1, id)) && id !in Join(s1, id).listeners
  {
  }

  lemma SpawnKeeps(s: State)
    requires Threads(s) && s.beacon.BSpawning?
    ensures Threads(Spawn(s, s.beacon.info))
  {
    assert Attending(s, s.beacon.info.id);
  }

  lemma ExitKeeps(s: State, t: nat)
    requires Threads(s) && t < |s.threads| && s.threads[t].life == Running
    ensures Threads(Exit(s, t))
  {
    var s' := Exit(s, t);
    assert forall id :: Attending(s', id) <==> Attending(s, id);
    assert forall u :: 0 <= u < |s.threads| ==>
      s'.threads[u].device == s.threads[u].device && (s'.threads[u].life == Joined <==> s.threads[u].life == Joined);
    hide Attending, Exit;
  }

  lemma ReportKeeps(s: State, t: nat, report: Json)
    requires Threads(s) && t < |s.threads|
    ensures Threads(s.(status := s.status[s.threads[t].device := report]))
  {
    var s' := s.(status := s.status[s.threads[t].device := report]);
    assert forall id :: Attending(s', id) <==> Attending(s, id);
  }

  lemma PublishKeepsThreads(s: State, info: DeviceInfo)
    requires s.beacon == BConnected(info)
    ensures SameThreads(s, Publish(s, info))
  {
  }

  lemma ReapKeepsThreads(s: State)
    requires s.monitor.MReaping? && s.monitor.done < |s.monitor.offline|
    ensures SameThreads(s, ReapNext(s))
  {
  }

  lemma ChannelKeepsThreads(s: State, ip: string, urls: seq<string>, i: nat)
    requires i < |urls|
    ensures SameThreads(s, PublishChannel(s, ip, urls, i))
  {
  }

  lemma ConnectKeepsThreads(s: State, ip: string, fd: int)
    ensures SameThreads(s, Connect(s, ip, fd))
  {
  }

  lemma HearKeepsThreads(s: State, ip: string)
    requires s.beacon.BIdle?
    ensures SameThreads(s, Hear(s, ip))
  {
    hide DeviceManager.Registered;
    var s' := Hear(s, ip);
    assert s' == s || s' == s.(beacon := BChecked(ip));
    hide Hear;
  }

  lemma ProbeKeepsThreads(s: State, ok: bool)
    requires s.monitor.MProbing? && s.monitor.at < |s.monitor.targets|
    ensures SameThreads(s, Probe(s, ok))
  {
  }

  lemma ScanKeepsThreads(s: State, ip: string, urls: seq<string>)
    ensures SameThreads(s, HearCamera(s, ip)) && SameThreads(s, HarvestCamera(s, ip, urls))
  {
    hide DeviceManager.Registered;
  }

  lemma RunKeepsThreads(s: State, s1: State, k: nat)
    requires k < |s1.issued| && s1 == s.(beacon := s1.beacon, scanner := s1.scanner, monitor := s1.monitor)
    requires s1.beacon == s.beacon || (s.beacon.BPublished? && s1.beacon == BPublished(s.beacon.info, None))
    ensures SameThreads(s, RunCallback(s1, k))
  {
  }

  lemma ThreadsKept(s: State, step: Step)
    requires Threads(s) && Enabled(s, step)
    ensures Threads(Next(s, step))
  {
    hide Threads, Harvest, Hear, Connect, Publish, PublishChannel, Probe, ReapNext, RunCallback, Join, Spawn, Exit,
      HearCamera, HarvestCamera;
    if step.BeaconSpawn? {
      SpawnKeeps(s);
    } else if step.BeaconJoin? {
      JoinKeeps(s, s.(beacon := s.beacon.(todo := s.beacon.todo - {step.device})), step.device);
    } else if step.BeaconReplace? {
      JoinKeeps(s, s.(beacon := BSpawning(s.beacon.info)), s.beacon.info.id);
    } else if step.ListenerExit? {
      ExitKeeps(s, step.thread);
    } else if step.ListenerReport? {
      ReportKeeps(s, step.thread, step.report);
    } else {
      OtherStepsSameThreads(s, step);
      SameThreadsKeep(s, Next(s, step));
    }
  }

  predicate ThreadStep(step: Step) {
    step.BeaconSpawn? || step.BeaconJoin? || step.BeaconReplace? || step.ListenerExit? || step.ListenerReport?
  }

  lemma OtherStepsSameThreads(s: State, step: Step)
    requires Enabled(s, step) && !ThreadStep(step)
    ensures SameThreads(s, Next(s, step))
  {
    hide SameThreads, Harvest, Hear, Connect, Publish, PublishChannel, Probe, ReapNext, RunCallback, HearCamera, HarvestCamera;
    if step.BeaconHear? {
      HearKeepsThreads(s, step.ip);
    } else if step.BeaconConnect? && step.socket.Some? {
      ConnectKeepsThreads(s, s.beacon.ip, step.socket.value);
    } else if step.BeaconPublish? {
      PublishKeepsThreads(s, s.beacon.info);
    } else if step.ScanPublish? {
      ChannelKeepsThreads(s, s.scanner.ip, s.scanner.urls, s.scanner.next);
    } else if step.ScanHear? {
      ScanKeepsThreads(s, step.ip, []);
    } else if step.ScanHarvest? {
      ScanKeepsThreads(s, s.scanner.ip, Harvest(step.replies, 0));
    } else if step.MonitorProbe? {
      ProbeKeepsThreads(s, step.ok);
    } else if step.MonitorReap? {
      ReapKeepsThreads(s);
    } else if step.BeaconNotify? {
      RunKeepsThreads(s, s.(beacon := BPublished(s.beacon.info, None)), s.beacon.pending.value);
    } else if step.ScanNotify? {
      RunKeepsThreads(s, s.(scanner := Fed(s.scanner.ip, s.scanner.urls, s.scanner.next + 1)), s.scanner.pending);
    } else if step.MonitorNotify? {
      RunKeepsThreads(s, s.(monitor := MNotifying(s.monitor.pending[1..])), s.monitor.pending[0]);
    } else {
      PlainStepsSameThreads(s, step);
    }
  }

  lemma PlainStepsSameThreads(s: State, step: Step)
    requires Enabled(s, step)
    requires step == BeaconConnect(None) || step.BeaconSwap? || step.MonitorSnapshot? || step.MonitorEnough? || step.MonitorReapEnd?
             || step.MonitorRest? || step.RelayStart? || step.OtherOpen? || step.OtherClose?
    ensures SameThreads(s, Next(s, step))
  {
    hide Hear, Connect, Publish, PublishChannel, Probe, ReapNext, RunCallback, HearCamera, HarvestCamera, Join, Spawn, Exit, Harvest, Joinable;
  }

  lemma {:induction false} ThreadsReached(s: State, steps: seq<Step>)
    requires Threads(s) && Possible(s, steps)
    ensures Threads(After(s, steps))
    decreases |steps|
  {
    if steps != [] {
      hide Threads, Enabled, Next;
      ThreadsKept(s, steps[0]);
      ThreadsReached(Next(s, steps[0]), steps[1..]);
    }
  }

  /**
    * In every run each thread that has not been joined is the map entry of its device, so a device
    * never has two listeners; the beacon thread always assigns to an absent key; and every cached
    * status report belongs to a registered device.
    */
  lemma OneListenerPerDevice(steps: seq<Step>, t: nat, u: nat)
    requires Possible(Init, steps)
    requires var s := After(Init, steps); t < |s.threads| && u < |s.threads|
    ensures var s := After(Init, steps);
            && (s.threads[t].life != Joined && s.threads[u].life != Joined && s.threads[t].device == s.threads[u].device
                ==> t == u)
            && (s.threads[t].life != Joined <==>
                  s.threads[t].device in s.listeners && s.listeners[s.threads[t].device] == t)
            && (s.beacon.BSpawning? ==> s.beacon.info.id !in s.listeners)
            && (forall id :: id in s.status ==> id in s.devices)
  {
    ThreadsInitially();
    ThreadsReached(Init, steps);
    hide Possible, After;
  }

  /** When a listener is started, all earlier listeners of its device have been joined. */
  lemma PredecessorsJoined(steps: seq<Step>, t: nat)
    requires Possible(Init, steps) && After(Init, steps).beacon.BSpawning? && t < |After(Init, steps).threads|
    requires var s := After(Init, steps); s.threads[t].device == s.beacon.info.id
    ensures After(Init, steps).threads[t].life == Joined
  {
    ThreadsInitially();
    ThreadsReached(Init, steps);
    hide Possible, After;
  }

  lemma ThreadsInitially()
    ensures Threads(Init)
  {
  }

  /** A thread is started running, exits once, and is joined once, only after it has exited. */
  ghost predicate Aged(s: State, s': State) {
    && |s.threads| <= |s'.threads|
    && (forall t :: 0 <= t < |s.threads| ==>
          && s'.threads[t].device == s.threads[t].device && s'.threads[t].session == s.threads[t].session
          && (s'.threads[t].life == s.threads[t].life
              || (s.threads[t].life == Running && s'.threads[t].life == Exited)
              || (s.threads[t].life == Exited && s'.threads[t].life == Joined)))
    && (forall t :: |s.threads| <= t < |s'.threads| ==> s'.threads[t].life == Running)
  }

  lemma LifeCycle(s: State, step: Step)
    requires Threads(s) && Enabled(s, step)
    ensures Aged(s, Next(s, step))
  {
    hide Threads, Harvest, Hear, Connect, Publish, PublishChannel, Probe, ReapNext, RunCallback, HearCamera, HarvestCamera;
    if !ThreadStep(step) {
      OtherStepsSameThreads(s, step);
    } else if step.BeaconJoin? {
      JoinAges(s, s.(beacon := s.beacon.(todo := s.beacon.todo - {step.device})), step.device);
    } else if step.BeaconReplace? {
      JoinAges(s, s.(beacon := BSpawning(s.beacon.info)), s.beacon.info.id);
    }
  }

  lemma JoinAges(s: State, s1: State, id: DeviceId)
    requires s1 == s.(beacon := s1.beacon) && Joinable(s, id)
    ensures Aged(s, Join(s1, id))
  {
  }

  // ---- channels of Hanwha cameras ----

  ghost predicate Channels(s: State) {
    && (forall ip, ch: nat :: Hanwha(ip, ch) in s.devices ==> ch < CHANNELS)
    && (forall ip, ch: nat, lower: nat :: Hanwha(ip, ch) in s.devices && lower < ch ==> Hanwha(ip, lower) in s.devices)
    && (s.scanner.SFeeding? ==>
          && s.scanner.next < |s.scanner.urls| <= CHANNELS
          && forall j: nat :: j < s.scanner.next ==> Hanwha(s.scanner.ip, j) in s.devices)
    && (s.scanner.SNotifying? ==>
          && s.scanner.next < |s.scanner.urls| <= CHANNELS
          && forall j: nat :: j <= s.scanner.next ==> Hanwha(s.scanner.ip, j) in s.devices)
  }

  /** A harvest of an address happens only while none of it has failed. */
  ghost predicate Harvests(s: State) {
    && (forall ip :: Fails(s, ip) <= 1)
    && (forall k :: 0 <= k < |s.harvests| && !s.harvests[k].1 ==> Fails(s, s.harvests[k].0) == 1)
    && (forall j, k :: 0 <= j < k < |s.harvests| && s.harvests[j].0 == s.harvests[k].0 ==> s.harvests[j].1)
    && (forall ip :: Fails(s, ip) >= 1 ==> (ip, false) in s.harvests)
    && (s.scanner.SHarvesting? ==> Fails(s, s.scanner.ip) == 0)
  }

  ghost predicate SameCameras(s: State, s': State) {
    && (forall ip, ch: nat :: Hanwha(ip, ch) in s'.devices <==> Hanwha(ip, ch) in s.devices)
    && s'.failCount == s.failCount && s'.harvests == s.harvests && s'.scanner == s.scanner
  }

  lemma SameCamerasKeep(s: State, s': State)
    requires Channels(s) && Harvests(s) && SameCameras(s, s')
    ensures Channels(s') && Harvests(s')
  {
    assert forall ip :: Fails(s', ip) == Fails(s, ip);
  }

  lemma FeedingKeeps(s: State, ip: string, urls: seq<string>, i: nat)
    requires Channels(s) && Harvests(s) && s.scanner == SFeeding(ip, urls, i)
    ensures Channels(PublishChannel(s, ip, urls, i)) && Harvests(PublishChannel(s, ip, urls, i))
  {
    var s' := PublishChannel(s, ip, urls, i);
    assert s'.devices.Keys == s.devices.Keys + {Hanwha(ip, i)};
    assert forall a :: Fails(s', a) == Fails(s, a);
  }

  lemma NotifiedKeeps(s: State, s': State)
    requires Channels(s) && Harvests(s) && s.scanner.SNotifying?
    requires s'.devices == s.devices && s'.failCount == s.failCount && s'.harvests == s.harvests
    requires s'.scanner == Fed(s.scanner.ip, s.scanner.urls, s.scanner.next + 1)
    ensures Channels(s') && Harvests(s')
  {
    assert forall a :: Fails(s', a) == Fails(s, a);
  }

  lemma HarvestKeeps(s: State, ip: string, urls: seq<string>)
    requires Channels(s) && Harvests(s) && s.scanner == SHarvesting(ip) && |urls| <= CHANNELS
    ensures Channels(HarvestCamera(s, ip, urls)) && Harvests(HarvestCamera(s, ip, urls))
  {
    var s' := HarvestCamera(s, ip, urls);
    assert forall a :: Fails(s', a) == if a == ip && urls == [] then 1 else Fails(s, a);
    assert forall h :: h in s'.harvests <==> h in s.harvests || h == (ip, urls != []);
  }

  lemma HearCameraKeeps(s: State, ip: string)
    requires Channels(s) && Harvests(s) && s.scanner.SIdle?
    ensures Channels(HearCamera(s, ip)) && Harvests(HearCamera(s, ip))
  {
    hide DeviceManager.Registered;
    var s' := HearCamera(s, ip);
    assert s' == s || (s' == s.(scanner := SHarvesting(ip)) && Fails(s, ip) == 0);
    assert forall a :: Fails(s', a) == Fails(s, a);
  }

  predicate CameraStep(step: Step) {
    step.ScanHear? || step.ScanHarvest? || step.ScanPublish? || step.ScanNotify?
  }

  lemma OtherStepsSameCameras(s: State, step: Step)
    requires DiscoverySockets.Inv(s) && Enabled(s, step) && !CameraStep(step)
    ensures SameCameras(s, Next(s, step))
  {
    hide DiscoverySockets.Inv, Hear, Connect, Publish, Probe, ReapNext, RunCallback, Join, Spawn, Exit;
    if step.BeaconPublish? {
      PublishKeepsCameras(s, s.beacon.info);
    } else if step.MonitorReap? {
      ReapKeepsCameras(s);
    } else if step.BeaconHear? {
      HearKeepsCameras(s, step.ip);
    } else if step.BeaconConnect? && step.socket.Some? {
      ConnectKeepsCameras(s, s.beacon.ip, step.socket.value);
    } else if step.BeaconNotify? {
      RunKeepsCameras(s.(beacon := BPublished(s.beacon.info, None)), s.beacon.pending.value);
    } else if step.MonitorNotify? {
      RunKeepsCameras(s.(monitor := MNotifying(s.monitor.pending[1..])), s.monitor.pending[0]);
    } else if ThreadStep(step) {
      ThreadStepKeepsCameras(s, step);
    } else if step.MonitorProbe? {
      ProbeKeepsCameras(s, step.ok);
    }
  }

  lemma PublishKeepsCameras(s: State, info: DeviceInfo)
    requires DiscoverySockets.Inv(s) && s.beacon == BConnected(info)
    ensures SameCameras(s, Publish(s, info))
  {
  }

  lemma ReapKeepsCameras(s: State)
    requires s.monitor.MReaping? && s.monitor.done < |s.monitor.offline|
    ensures SameCameras(s, ReapNext(s))
  {
  }

  lemma HearKeepsCameras(s: State, ip: string)
    ensures SameCameras(s, Hear(s, ip))
  {
  }

  lemma ConnectKeepsCameras(s: State, ip: string, fd: int)
    ensures SameCameras(s, Connect(s, ip, fd))
  {
  }

  lemma RunKeepsCameras(s: State, k: nat)
    requires k < |s.issued|
    ensures SameCameras(s, RunCallback(s, k))
  {
  }

  lemma ThreadStepKeepsCameras(s: State, step: Step)
    requires Enabled(s, step) && ThreadStep(step)
    ensures SameCameras(s, Next(s, step))
  {
  }

  lemma ProbeKeepsCameras(s: State, ok: bool)
    requires s.monitor.MProbing? && s.monitor.at < |s.monitor.targets|
    ensures SameCameras(s, Probe(s, ok))
  {
  }

  lemma CamerasKept(s: State, step: Step)
    requires DiscoverySockets.Inv(s) && Channels(s) && Harvests(s) && Enabled(s, step)
    ensures Channels(Next(s, step)) && Harvests(Next(s, step))
  {
    hide DiscoverySockets.Inv, Channels, Harvests, Harvest, HearCamera, HarvestCamera, PublishChannel, RunCallback;
    if step.ScanHear? {
      HearCameraKeeps(s, step.ip);
    } else if step.ScanHarvest? {
      HarvestIsPrefix(step.replies, 0);
      HarvestKeeps(s, s.scanner.ip, Harvest(step.replies, 0));
    } else if step.ScanPublish? {
      FeedingKeeps(s, s.scanner.ip, s.scanner.urls, s.scanner.next);
    } else if step.ScanNotify? {
      ScanNotifyKeeps(s);
    } else {
      OtherStepsSameCameras(s, step);
      SameCamerasKeep(s, Next(s, step));
    }
  }

  lemma ScanNotifyKeeps(s: State)
    requires Channels(s) && Harvests(s) && Enabled(s, ScanNotify)
    ensures Channels(Next(s, ScanNotify)) && Harvests(Next(s, ScanNotify))
  {
    hide Channels, Harvests;
    NotifiedKeeps(s, Next(s, ScanNotify));
  }

  lemma {:induction false} CamerasReached(s: State, steps: seq<Step>)
    requires DiscoverySockets.Inv(s) && DiscoverySockets.MonitorState(s) && Channels(s) && Harvests(s) && Possible(s, steps)
    ensures Channels(After(s, steps)) && Harvests(After(s, steps))
    decreases |steps|
  {
    if steps != [] {
      hide DiscoverySockets.Inv, DiscoverySockets.MonitorState, Channels, Harvests, Enabled, Next;
      DiscoverySockets.InvKept(s, steps[0]);
      DiscoverySockets.MonitorStateKept(s, steps[0]);
      CamerasKept(s, steps[0]);
      CamerasReached(Next(s, steps[0]), steps[1..]);
    }
  }

  lemma CamerasInitially()
    ensures Channels(Init) && Harvests(Init)
  {
    assert forall ip :: Fails(Init, ip) == 0;
  }

  /** The registered channels of an address are exactly 0 to k-1. */
  ghost predicate HasChannels(s: State, ip: string, k: nat) {
    forall ch: nat :: Hanwha(ip, ch) in s.devices <==> ch < k
  }

  /**
    * At every step of every run the registered channels of an address are 0 to k-1 with k at most
    * four, and over both scans an address has at most one failed harvest, which is its last.
    */
  lemma ChannelsWithoutGaps(steps: seq<Step>, ip: string)
    requires Possible(Init, steps)
    ensures var s := After(Init, steps);
            && (exists k: nat :: k <= 4 && HasChannels(s, ip, k))
            && (forall j, k :: 0 <= j < k < |s.harvests| && s.harvests[j].0 == s.harvests[k].0 ==> s.harvests[j].1)
  {
    DiscoverySockets.InvInitially();
    CamerasInitially();
    CamerasReached(Init, steps);
    hide Possible, After;
    var s := After(Init, steps);
    var k := 0;
    while k < CHANNELS && Hanwha(ip, k) in s.devices
      invariant 0 <= k <= CHANNELS
      invariant forall ch: nat :: ch < k ==> Hanwha(ip, ch) in s.devices
    {
      k := k + 1;
    }
    assert HasChannels(s, ip, k);
  }
}
