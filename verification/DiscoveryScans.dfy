/** When the device server goes after a device it has heard of, and which report of a device it keeps. */
module DiscoveryScans {
  import opened Common
  import opened Json
  import opened DeviceManager
  import opened SubPiManager
  import opened OnvifScanner
  import opened Discovery
  import opened DiscoveryThreads
  import opened DiscoveryReuse
  import opened DiscoveryCalls
  import DiscoverySockets

  /** As far as the harvests so far tell, the address has not failed. */
  lemma FailsExactly(s: State, ip: string)
    requires Harvests(s)
    ensures Fails(s, ip) >= 1 <==> (ip, false) in s.harvests
  {
    if (ip, false) in s.harvests {
      var k :| 0 <= k < |s.harvests| && s.harvests[k] == (ip, false);
      assert !s.harvests[k].1;
    }
  }

  /**
    * In every run: a camera that has been heard of is harvested if and only if its first channel is not online and no
    * harvest of its address ever failed; a Sub-Pi is connected to if and only if it is not online. Otherwise hearing of
    * it changes nothing at all.
    */
  lemma ScansExactly(steps: seq<Step>, ip: string)
    requires Possible(Init, steps)
    ensures var s := After(Init, steps);
            && (Enabled(s, ScanHear(ip)) ==>
                  Next(s, ScanHear(ip)) ==
                  if !(Hanwha(ip, 0) in s.devices && s.devices[Hanwha(ip, 0)].online) && (ip, false) !in s.harvests
                  then s.(scanner := SHarvesting(ip)) else s)
            && (Enabled(s, BeaconHear(ip)) ==>
                  Next(s, BeaconHear(ip)) ==
                  if !(SubPi(ip) in s.devices && s.devices[SubPi(ip)].online) then s.(beacon := BChecked(ip)) else s)
  {
    DiscoverySockets.InvInitially();
    CamerasInitially();
    CamerasReached(Init, steps);
    hide Possible, After, Harvests, Fails;
    FailsExactly(After(Init, steps), ip);
  }

  // ---- a scan, to its end ----

  /** The scanner is on its way through these channels, or through with them. */
  ghost predicate OnItsWay(s: State, ip: string, urls: seq<string>) {
    match s.scanner
    case SIdle => forall j: nat :: j < |urls| ==> Hanwha(ip, j) in s.devices
    case SHarvesting(_) => false
    case SFeeding(a, us, next) =>
      a == ip && us == urls && next < |urls| && forall j: nat :: j < next ==> Hanwha(ip, j) in s.devices
    case SNotifying(a, us, next, _) =>
      a == ip && us == urls && next < |urls| && forall j: nat :: j <= next ==> Hanwha(ip, j) in s.devices
  }

  lemma HarvestedExactly(s: State, ip: string, r: Replies)
    requires s.scanner == SHarvesting(ip)
    ensures var s', urls := Next(s, ScanHarvest(r)), Harvest(r, 0);
            && s' == s.(scanner := s'.scanner, harvests := s.harvests + [(ip, urls != [])], failCount := s'.failCount)
            && s'.scanner == (if urls == [] then SIdle else SFeeding(ip, urls, 0))
            && Fails(s', ip) == Fails(s, ip) + (if urls == [] then 1 else 0)
            && forall other :: other != ip ==> Fails(s', other) == Fails(s, other)
  {
    hide Harvest;
  }

  lemma WayKept(s: State, step: Step, ip: string, urls: seq<string>)
    requires DiscoverySockets.Inv(s) && OnItsWay(s, ip, urls) && Enabled(s, step) && !step.ScanHear?
    ensures OnItsWay(Next(s, step), ip, urls)
  {
    hide DiscoverySockets.Inv, Next, PublishChannel, RunCallback;
    if step.ScanPublish? {
      OfferedChannel(s);
    } else if step.ScanNotify? {
      NotifiedWay(s);
    } else if !step.ScanHarvest? {
      OtherStepsSameCameras(s, step);
    }
  }

  lemma NotifiedWay(s: State)
    requires Enabled(s, ScanNotify)
    ensures Next(s, ScanNotify).scanner == NextChannel(s) && Next(s, ScanNotify).devices == s.devices
  {
  }

  lemma {:induction false} WayReached(s: State, steps: seq<Step>, ip: string, urls: seq<string>)
    requires DiscoverySockets.Inv(s) && DiscoverySockets.MonitorState(s) && OnItsWay(s, ip, urls) && Possible(s, steps)
    requires forall step <- steps :: !step.ScanHear?
    ensures OnItsWay(After(s, steps), ip, urls)
    decreases |steps|
  {
    if steps != [] {
      FirstEnabled(s, steps);
      hide DiscoverySockets.Inv, DiscoverySockets.MonitorState, OnItsWay, Enabled, Next;
      DiscoverySockets.InvKept(s, steps[0]);
      DiscoverySockets.MonitorStateKept(s, steps[0]);
      assert steps[0] in steps;
      WayKept(s, steps[0], ip, urls);
      WayReached(Next(s, steps[0]), steps[1..], ip, urls);
    }
  }

  lemma FirstEnabled(s: State, steps: seq<Step>)
    requires Possible(s, steps) && steps != []
    ensures Enabled(s, steps[0]) && Possible(Next(s, steps[0]), steps[1..])
  {
  }

  /**
    * In every run, whatever other threads do meanwhile: a scan does not end before every channel that answered is
    * registered, and until it has ended it is at one of its own channels, all lower ones being registered.
    */
  lemma ScanCompletes(before: seq<Step>, r: Replies, between: seq<Step>)
    requires Possible(Init, before) && After(Init, before).scanner.SHarvesting?
    requires Possible(Next(After(Init, before), ScanHarvest(r)), between) && forall step <- between :: !step.ScanHear?
    ensures var s := After(Next(After(Init, before), ScanHarvest(r)), between);
            OnItsWay(s, After(Init, before).scanner.ip, Harvest(r, 0))
  {
    var s := After(Init, before);
    hide Possible, After, DiscoverySockets.Inv, DiscoverySockets.MonitorState;
    DiscoverySockets.InvInitially();
    DiscoverySockets.InvReached(Init, before);
    DiscoverySockets.InvKept(s, ScanHarvest(r));
    DiscoverySockets.MonitorStateKept(s, ScanHarvest(r));
    HarvestedExactly(s, s.scanner.ip, r);
    hide Next, Harvest;
    WayReached(Next(s, ScanHarvest(r)), between, s.scanner.ip, Harvest(r, 0));
  }

  // ---- status reports ----

  function Status(s: State, id: DeviceId): Option<Json> {
    if id in s.status then Some(s.status[id]) else None
  }

  /** The last report a listener of the device made in these steps, or the one from before. */
  function LastReport(threads: seq<Listener>, steps: seq<Step>, id: DeviceId, before: Option<Json>): Option<Json> {
    if steps == [] then before
    else
      var now := match steps[0]
        case ListenerReport(t, report) => if t < |threads| && threads[t].device == id then Some(report) else before
        case _ => before;
      LastReport(threads, steps[1..], id, now)
  }

  lemma OneReport(s: State, step: Step, id: DeviceId)
    requires Threads(s) && Enabled(s, step)
    ensures Status(Next(s, step), id) == LastReport(s.threads, [step], id, Status(s, id))
  {
    hide Threads, Harvest, Hear, Connect, Publish, PublishChannel, Probe, ReapNext, RunCallback, Join, Spawn, Exit,
      HearCamera, HarvestCamera;
    if !step.ListenerReport? {
      StatusKept(s, step);
    }
  }

  lemma StatusKept(s: State, step: Step)
    requires Enabled(s, step) && !step.ListenerReport?
    ensures Next(s, step).status == s.status
  {
    hide Harvest, Hear, Connect, Publish, PublishChannel, Probe, ReapNext, RunCallback, HearCamera, HarvestCamera;
    if !ThreadStep(step) {
      OtherStepsSameThreads(s, step);
    }
  }

  lemma {:induction false} ThreadsKeepDevices(s: State, steps: seq<Step>)
    requires Threads(s) && Possible(s, steps)
    ensures var s' := After(s, steps);
            |s.threads| <= |s'.threads| && forall t :: 0 <= t < |s.threads| ==> s'.threads[t].device == s.threads[t].device
    decreases |steps|
  {
    if steps != [] {
      hide Threads, Enabled, Next;
      ThreadsKept(s, steps[0]);
      LifeCycle(s, steps[0]);
      ThreadsKeepDevices(Next(s, steps[0]), steps[1..]);
    }
  }

  /** Over any stretch of any run the cache holds for each device the last report its listeners have made. */
  lemma {:induction false} StatusIsLastReport(s: State, steps: seq<Step>, id: DeviceId)
    requires Threads(s) && Possible(s, steps)
    ensures Status(After(s, steps), id) == LastReport(After(s, steps).threads, steps, id, Status(s, id))
    decreases |steps|
  {
    if steps != [] {
      ReporterKnown(s, steps);
      hide Threads, Next, Status;
      ThreadsKept(s, steps[0]);
      OneReport(s, steps[0], id);
      ThreadsKeepDevices(s, steps);
      assert [steps[0]][1..] == [];
      hide Enabled;
      StatusIsLastReport(Next(s, steps[0]), steps[1..], id);
    }
  }

  lemma ReporterKnown(s: State, steps: seq<Step>)
    requires steps != [] && Possible(s, steps)
    ensures steps[0].ListenerReport? ==> steps[0].thread < |s.threads|
  {
  }

  // ---- one listener for each session ----

  /** The k-th listener is that of the k-th session; the beacon thread is busy with the one that has none yet. */
  ghost predicate Paired(s: State) {
    && (forall t :: 0 <= t < |s.threads| ==> s.threads[t].session == t)
    && |s.sessions| == |s.threads| + (if Attended(s.beacon).Some? then 1 else 0)
    && (Attended(s.beacon).Some? ==> SessionOf(Attended(s.beacon).value.port) == |s.threads|)
  }

  lemma ConnectPairs(s: State, ip: string, fd: int)
    requires DiscoverySockets.Ports(s) && Paired(s) && Attended(s.beacon).None?
    ensures Paired(Connect(s, ip, fd))
  {
  }

  lemma SpawnPairs(s: State, info: DeviceInfo)
    requires Paired(s) && s.beacon == BSpawning(info)
    ensures Paired(Spawn(s, info))
  {
  }

  lemma SamePairs(s: State, s': State)
    requires Paired(s) && SameSessions(s, s') && Aged(s, s') && |s'.threads| == |s.threads|
    ensures Paired(s')
  {
  }

  lemma PairedKept(s: State, step: Step)
    requires DiscoverySockets.Inv(s) && Threads(s) && Paired(s) && Enabled(s, step)
    ensures Paired(Next(s, step))
  {
    hide Paired, Threads, Aged, SameSessions, Connect, Spawn, DiscoverySockets.Descriptors, DiscoverySockets.Records,
      DiscoverySockets.BeaconState;
    if step.BeaconConnect? && step.socket.Some? {
      ConnectPairs(s, s.beacon.ip, step.socket.value);
    } else if step.BeaconSpawn? {
      SpawnPairs(s, s.beacon.info);
    } else {
      StepSameSessions(s, step);
      LifeCycle(s, step);
      SameCount(s, step);
      hide Next, Enabled;
      SamePairs(s, Next(s, step));
    }
  }

  lemma {:induction false} PairedReached(s: State, steps: seq<Step>)
    requires All(s) && Paired(s) && Possible(s, steps)
    ensures Paired(After(s, steps))
    decreases |steps|
  {
    if steps != [] {
      OneMoreStep(s, steps[0]);
      hide All, Paired, Enabled, Next;
      PairedReached(Next(s, steps[0]), steps[1..]);
    }
  }

  lemma OneMoreStep(s: State, step: Step)
    requires All(s) && Paired(s) && Enabled(s, step)
    ensures All(Next(s, step)) && Paired(Next(s, step))
  {
    hide DiscoverySockets.Inv, DiscoverySockets.MonitorState, Threads, Knows, Paired, Enabled, Next;
    DiscoverySockets.InvKept(s, step);
    DiscoverySockets.MonitorStateKept(s, step);
    ThreadsKept(s, step);
    KnowsKept(s, step);
    PairedKept(s, step);
  }

  /**
    * In every run each session gets exactly one listener, under the id of its own Sub-Pi, and the listeners are started
    * in the order of the sessions: only the latest session can be without one, and then the beacon thread is still
    * about to start it.
    */
  lemma EverySessionHeard(steps: seq<Step>, n: nat, t: nat)
    requires Possible(Init, steps) && n < |After(Init, steps).sessions|
    ensures var s := After(Init, steps);
            && |s.threads| <= |s.sessions|
            && (if n < |s.threads| then s.threads[n].session == n && s.threads[n].device == SubPi(s.sessions[n].ip)
                else n == |s.sessions| - 1 && !s.beacon.BIdle? && !s.beacon.BChecked? && s.beacon.info.id == SubPi(s.sessions[n].ip))
            && (t < |s.threads| && s.threads[t].session == n ==> t == n)
  {
    hide Possible, After, Threads, DiscoverySockets.MonitorState, DiscoverySockets.Inv;
    AllInitially();
    PairedInitially();
    AllReached(Init, steps);
    PairedReached(Init, steps);
    var s := After(Init, steps);
    if n < |s.threads| {
      assert OfSession(s, s.threads[n]);
    }
  }

  lemma PairedInitially()
    ensures Paired(Init)
  {
  }
}
