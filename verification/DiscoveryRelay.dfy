/** Agreement of the relay table with the registry, for callbacks that run after the mutex is released. */
module DiscoveryRelay {
  import opened Common
  import opened DeviceManager
  import opened RtspServer
  import opened SubPiManager
  import opened OnvifScanner
  import opened Discovery
  import opened DiscoverySockets

  function Lookup(m: map<DeviceId, nat>, id: DeviceId): Option<nat> {
    if id in m then Some(m[id]) else None
  }

  /** The relay a callback leaves behind for its device. */
  function Effect(issued: seq<Callback>, k: Option<nat>): Option<int> {
    if k.None? || k.value >= |issued| then None
    else match issued[k.value]
      case Registered(info) => if info.kind == SUB_PI then Some(info.port) else None
      case Removed(_) => None
  }

  /** The relay the registry calls for: an online Sub-Pi's current port. */
  function Wanted(s: State, id: DeviceId): Option<int> {
    if id.SubPi? && DeviceManager.Registered(s.devices, id) then Some(s.devices[id].port) else None
  }

  /** The relay there is. */
  function Mounted(s: State, id: DeviceId): Option<int> {
    if s.mounts.Some? && id in s.mounts.value then Some(s.mounts.value[id]) else None
  }

  function MonitorList(s: State): seq<nat> {
    match s.monitor
    case MReaping(_, _, pending) => pending
    case MNotifying(pending) => pending
    case _ => []
  }

  predicate OnBeacon(s: State, k: nat) {
    s.beacon.BPublished? && s.beacon.pending == Some(k)
  }

  predicate OnScanner(s: State, k: nat) {
    s.scanner.SNotifying? && s.scanner.pending == k
  }

  predicate OnMonitor(s: State, k: nat) {
    k in MonitorList(s)
  }

  /** The callback has been decided on but has not run. */
  predicate Outstanding(s: State, k: nat) {
    OnBeacon(s, k) || OnScanner(s, k) || OnMonitor(s, k)
  }

  ghost predicate Books(s: State) {
    && (forall id :: id in s.lastIssued ==> s.lastIssued[id] < |s.issued| && About(s.issued[s.lastIssued[id]]) == id)
    && (forall id :: id in s.lastRun ==>
          s.lastRun[id] in s.ran && s.lastRun[id] < |s.issued| && About(s.issued[s.lastRun[id]]) == id)
    && (forall k: nat :: k < |s.issued| ==> k in s.ran || Outstanding(s, k))
    && (forall k: nat :: k < |s.issued| && s.issued[k].Registered? ==>
          (s.issued[k].info.kind == SUB_PI <==> s.issued[k].info.id.SubPi?))
    && (forall k: nat :: k < |s.issued| ==> About(s.issued[k]) in s.lastIssued && k <= s.lastIssued[About(s.issued[k])])
  }

  ghost predicate Tables(s: State) {
    && (forall id :: Wanted(s, id) == Effect(s.issued, Lookup(s.lastIssued, id)))
    && (s.mounts.Some? ==> forall id :: Mounted(s, id) == Effect(s.issued, Lookup(s.lastRun, id)))
    && (s.mounts.None? ==> s.lastRun == map[])
  }

  predicate Registration(cb: Callback) {
    cb.Registered? && cb.info.kind == SUB_PI
  }

  /** Registrations of Sub-Pis carry ever larger ports. */
  ghost predicate RisingPorts(s: State) {
    && (forall i, j :: 0 <= i < j < |s.issued| && Registration(s.issued[i]) && Registration(s.issued[j]) ==>
          s.issued[i].info.port < s.issued[j].info.port)
    && (forall k :: 0 <= k < |s.issued| && Registration(s.issued[k]) ==>
          && s.issued[k].info.port < s.nextPort
          && (s.beacon.BConnected? ==> s.issued[k].info.port < s.beacon.info.port))
  }

  ghost predicate Relay(s: State) {
    Books(s) && Tables(s) && RisingPorts(s)
  }

  /** The effect of a critical section that decided on callback `cb`. */
  ghost predicate Issues(s: State, s': State, cb: Callback) {
    && s'.issued == s.issued + [cb] && s'.lastIssued == s.lastIssued[About(cb) := |s.issued|]
    && s'.ran == s.ran && s'.lastRun == s.lastRun && s'.mounts == s.mounts && s'.nextPort == s.nextPort
    && (forall k: nat :: k < |s.issued| && Outstanding(s, k) ==> Outstanding(s', k))
    && Outstanding(s', |s.issued|)
    && Wanted(s', About(cb)) == Effect([cb], Some(0))
    && (forall id :: id != About(cb) ==> Wanted(s', id) == Wanted(s, id))
    && (s'.beacon.BConnected? ==> s'.beacon == s.beacon)
    && (cb.Registered? ==> (cb.info.kind == SUB_PI <==> cb.info.id.SubPi?))
    && (Registration(cb) ==> s.beacon.BConnected? && cb.info.port == s.beacon.info.port && !s'.beacon.BConnected?
                             && cb.info.port < s.nextPort)
  }

  lemma IssueKeepsBooks(s: State, s': State, cb: Callback)
    requires Books(s) && Issues(s, s', cb)
    ensures Books(s')
  {
    hide Outstanding, Wanted, Registration;
    forall k: nat | k < |s'.issued|
      ensures k in s'.ran || Outstanding(s', k)
      ensures About(s'.issued[k]) in s'.lastIssued && k <= s'.lastIssued[About(s'.issued[k])]
    {
      if k < |s.issued| {
        assert k in s.ran || Outstanding(s, k);
        assert About(s.issued[k]) in s.lastIssued;
      }
    }
  }

  lemma IssueKeepsTables(s: State, s': State, cb: Callback)
    requires Books(s) && Tables(s) && Issues(s, s', cb)
    ensures Tables(s')
  {
    hide Outstanding, Wanted, Mounted, Registration;
    forall id
      ensures Wanted(s', id) == Effect(s'.issued, Lookup(s'.lastIssued, id))
    {
      assert Wanted(s, id) == Effect(s.issued, Lookup(s.lastIssued, id));
    }
    if s'.mounts.Some? {
      forall id
        ensures Mounted(s', id) == Effect(s'.issued, Lookup(s'.lastRun, id))
      {
        assert Mounted(s, id) == Effect(s.issued, Lookup(s.lastRun, id));
        SameTable(s, s', id);
      }
    }
  }

  lemma SameTable(s: State, s': State, id: DeviceId)
    requires s'.mounts == s.mounts
    ensures Mounted(s', id) == Mounted(s, id)
  {
  }

  lemma IssueKeeps(s: State, s': State, cb: Callback)
    requires Relay(s) && Issues(s, s', cb)
    ensures Relay(s')
  {
    IssueKeepsBooks(s, s', cb);
    IssueKeepsTables(s, s', cb);
    hide Books, Tables, Outstanding, Wanted, Effect;
    IssueKeepsPorts(s, s', cb);
    hide RisingPorts, Issues;
  }

  lemma IssueKeepsPorts(s: State, s': State, cb: Callback)
    requires RisingPorts(s) && Issues(s, s', cb)
    ensures RisingPorts(s')
  {
    hide Outstanding, Wanted, Effect;
    assert forall i :: 0 <= i < |s.issued| ==> s'.issued[i] == s.issued[i];
  }

  ghost predicate AboutToRun(s: State, s1: State, k: nat) {
    && k < |s.issued|
    && s1.issued == s.issued && s1.lastIssued == s.lastIssued && s1.ran == s.ran && s1.lastRun == s.lastRun
    && s1.mounts == s.mounts && s1.devices == s.devices && s1.nextPort == s.nextPort
    && (s1.beacon.BConnected? ==> s1.beacon == s.beacon)
    && (forall j: nat :: j < |s.issued| && j != k && Outstanding(s, j) ==> Outstanding(s1, j))
  }

  lemma RunKeepsMounted(s: State, s1: State, k: nat, id: DeviceId)
    requires Books(s) && Tables(s) && AboutToRun(s, s1, k) && s.mounts.Some?
    ensures var s' := RunCallback(s1, k); Mounted(s', id) == Effect(s'.issued, Lookup(s'.lastRun, id))
  {
    hide Outstanding, Wanted;
    assert Mounted(s, id) == Effect(s.issued, Lookup(s.lastRun, id));
  }

  lemma RunKeepsBooks(s: State, s1: State, k: nat)
    requires Books(s) && AboutToRun(s, s1, k)
    ensures Books(RunCallback(s1, k))
  {
    var s' := RunCallback(s1, k);
    forall j: nat | j < |s'.issued|
      ensures j in s'.ran || Outstanding(s', j)
    {
      assert j in s.ran || Outstanding(s, j);
      assert Outstanding(s1, j) <==> Outstanding(s', j);
    }
  }

  lemma RunKeeps(s: State, s1: State, k: nat)
    requires Relay(s) && AboutToRun(s, s1, k)
    ensures Relay(RunCallback(s1, k))
  {
    var s' := RunCallback(s1, k);
    RunKeepsBooks(s, s1, k);
    RunFrame(s1, k);
    forall id
      ensures Wanted(s', id) == Effect(s'.issued, Lookup(s'.lastIssued, id))
    {
      assert Wanted(s, id) == Effect(s.issued, Lookup(s.lastIssued, id));
    }
    if s'.mounts.Some? {
      forall id
        ensures Mounted(s', id) == Effect(s'.issued, Lookup(s'.lastRun, id))
      {
        RunKeepsMounted(s, s1, k, id);
      }
    }
    hide RunCallback, Books;
  }

  lemma RunFrame(s: State, k: nat)
    requires k < |s.issued|
    ensures var s' := RunCallback(s, k);
            && s' == s.(mounts := s'.mounts, ran := s'.ran, lastRun := s'.lastRun)
            && (s'.mounts.Some? <==> s.mounts.Some?) && (s.mounts.None? ==> s'.lastRun == s.lastRun)
  {
  }

  /** Steps that neither decide on a callback nor run one. */
  lemma OtherKeepsRelay(s: State, s': State)
    requires Relay(s)
    requires s'.issued == s.issued && s'.lastIssued == s.lastIssued && s'.ran == s.ran && s'.lastRun == s.lastRun
    requires s'.mounts == s.mounts && s'.nextPort >= s.nextPort
    requires forall id :: Wanted(s', id) == Wanted(s, id)
    requires s'.beacon.BConnected? ==> s'.beacon == s.beacon || s'.beacon.info.port == s.nextPort
    requires forall k: nat :: k < |s.issued| && Outstanding(s, k) ==> Outstanding(s', k)
    ensures Relay(s')
  {
    forall id
      ensures Wanted(s', id) == Effect(s'.issued, Lookup(s'.lastIssued, id))
    {
      assert Wanted(s, id) == Effect(s.issued, Lookup(s.lastIssued, id));
    }
    if s'.mounts.Some? {
      forall id
        ensures Mounted(s', id) == Effect(s'.issued, Lookup(s'.lastRun, id))
      {
        assert Mounted(s, id) == Effect(s.issued, Lookup(s.lastRun, id));
      }
    }
  }

  lemma StartKeeps(s: State)
    requires Relay(s) && s.mounts.None?
    ensures Relay(s.(mounts := Some(map[])))
  {
    var s' := s.(mounts := Some(map[]));
    forall id
      ensures Wanted(s', id) == Effect(s'.issued, Lookup(s'.lastIssued, id))
    {
      assert Wanted(s, id) == Effect(s.issued, Lookup(s.lastIssued, id));
    }
  }

  lemma PublishIssues(s: State, info: DeviceInfo)
    requires Inv(s) && Relay(s) && s.beacon == BConnected(info)
    ensures Relay(Publish(s, info))
  {
    var s' := Publish(s, info);
    PublishEffect(s, info);
    SessionInfoShape(s, info);
    hide Inv, Relay;
    assert Issues(s, s', Registered(s'.devices[info.id]));
    IssueKeeps(s, s', Registered(s'.devices[info.id]));
  }

  lemma SessionInfoShape(s: State, info: DeviceInfo)
    requires Inv(s) && s.beacon == BConnected(info)
    ensures info.id.SubPi? && info.kind == SUB_PI && info.online && info.port < s.nextPort
    ensures info.id in s.devices ==> s.devices[info.id].id == info.id
  {
  }

  lemma ChannelIssues(s: State, ip: string, urls: seq<string>, i: nat)
    requires Inv(s) && Relay(s) && i < |urls| && s.scanner == SFeeding(ip, urls, i)
    ensures Relay(PublishChannel(s, ip, urls, i))
  {
    var s', info := PublishChannel(s, ip, urls, i), ChannelInfo(ip, urls, i);
    HanwhaRecord(s, info.id);
    hide Inv, Relay;
    if DeviceManager.Registered(s.devices, info.id) {
      KnownChannel(s, ip, urls, i);
      hide PublishChannel, Wanted, Outstanding;
      OtherKeepsRelay(s, s');
    } else {
      NewChannelIssues(s, ip, urls, i);
      hide PublishChannel, Issues;
      IssueKeeps(s, s', Registered(s'.devices[info.id]));
    }
  }

  lemma KnownChannel(s: State, ip: string, urls: seq<string>, i: nat)
    requires i < |urls| && s.scanner == SFeeding(ip, urls, i)
    requires DeviceManager.Registered(s.devices, ChannelInfo(ip, urls, i).id)
    ensures PublishChannel(s, ip, urls, i) == s.(scanner := Fed(ip, urls, i + 1))
  {
    hide Fed, ChannelInfo;
  }

  lemma NewChannelIssues(s: State, ip: string, urls: seq<string>, i: nat)
    requires i < |urls| && s.scanner == SFeeding(ip, urls, i)
    requires var id := ChannelInfo(ip, urls, i).id;
             && !DeviceManager.Registered(s.devices, id)
             && (id in s.devices ==> s.devices[id].id == id && s.devices[id].kind == HANWHA)
    ensures var s', id := PublishChannel(s, ip, urls, i), ChannelInfo(ip, urls, i).id;
            id in s'.devices && Issues(s, s', Registered(s'.devices[id]))
  {
  }

  lemma ReapIssues(s: State)
    requires Inv(s) && MonitorState(s) && Relay(s) && s.monitor.MReaping? && s.monitor.done < |s.monitor.offline|
    ensures Relay(ReapNext(s))
  {
    var s', id := ReapNext(s), s.monitor.offline[s.monitor.done].target.id;
    ReapEffect(s);
    ReapBooks(s);
    hide Inv, MonitorState, Relay, ReapNext, FreshMark;
    ReapIsIssued(s, s', id);
    hide Issues;
    IssueKeeps(s, s', Removed(id));
  }

  lemma ReapIsIssued(s: State, s': State, id: DeviceId)
    requires s.monitor.MReaping? && id in s.devices && s'.devices == s.devices[id := s.devices[id].(online := false, fd := -1)]
    requires s'.issued == s.issued + [Removed(id)] && s'.lastIssued == s.lastIssued[id := |s.issued|]
    requires s'.ran == s.ran && s'.lastRun == s.lastRun && s'.mounts == s.mounts && s'.nextPort == s.nextPort
    requires s'.beacon == s.beacon && s'.scanner == s.scanner
    requires s'.monitor == s.monitor.(done := s.monitor.done + 1, pending := s.monitor.pending + [|s.issued|])
    ensures Issues(s, s', Removed(id))
  {
    assert s'.monitor.pending[|s.monitor.pending|] == |s.issued|;
  }

  lemma ReapBooks(s: State)
    requires s.monitor.MReaping? && s.monitor.done < |s.monitor.offline|
    requires ReapNext(s).issued == s.issued + [Removed(s.monitor.offline[s.monitor.done].target.id)]
    ensures var s' := ReapNext(s);
            && s'.lastIssued == s.lastIssued[s.monitor.offline[s.monitor.done].target.id := |s.issued|]
            && s'.ran == s.ran && s'.lastRun == s.lastRun && s'.mounts == s.mounts && s'.nextPort == s.nextPort
            && s'.beacon == s.beacon && s'.scanner == s.scanner
            && s'.monitor == s.monitor.(done := s.monitor.done + 1, pending := s.monitor.pending + [|s.issued|])
  {
  }

  predicate Notifies(step: Step) {
    step.BeaconNotify? || step.ScanNotify? || step.MonitorNotify?
  }

  /** The callback a notifying step runs. */
  ghost function Called(s: State, step: Step): nat
    requires Enabled(s, step) && Notifies(step)
  {
    if step.BeaconNotify? then s.beacon.pending.value
    else if step.ScanNotify? then s.scanner.pending
    else s.monitor.pending[0]
  }

  /** The state just before the callback runs: the thread has taken it off its list. */
  ghost function Taken(s: State, step: Step): State
    requires Enabled(s, step) && Notifies(step)
  {
    if step.BeaconNotify? then s.(beacon := BPublished(s.beacon.info, None))
    else if step.ScanNotify? then s.(scanner := Fed(s.scanner.ip, s.scanner.urls, s.scanner.next + 1))
    else s.(monitor := MNotifying(s.monitor.pending[1..]))
  }

  lemma NotifyRuns(s: State, step: Step)
    requires Enabled(s, step) && Notifies(step)
    ensures Next(s, step) == RunCallback(Taken(s, step), Called(s, step))
    ensures AboutToRun(s, Taken(s, step), Called(s, step))
  {
    hide RunCallback;
    if step.MonitorNotify? {
      assert s.monitor.pending == [s.monitor.pending[0]] + s.monitor.pending[1..];
    }
  }

  predicate RelayStep(step: Step) {
    step.BeaconPublish? || step.ScanPublish? || step.MonitorReap? || step.RelayStart? || Notifies(step)
  }

  /** A step that leaves registry, relay table and callbacks alone. */
  ghost predicate Quiet(s: State, s': State) {
    && s'.issued == s.issued && s'.lastIssued == s.lastIssued && s'.ran == s.ran && s'.lastRun == s.lastRun
    && s'.mounts == s.mounts && s'.nextPort >= s.nextPort && s'.devices == s.devices
    && (s'.beacon.BConnected? ==> s'.beacon == s.beacon || s'.beacon.info.port == s.nextPort)
    && (forall k: nat :: OnBeacon(s', k) <==> OnBeacon(s, k)) && (forall k: nat :: OnScanner(s', k) <==> OnScanner(s, k))
    && MonitorList(s') == MonitorList(s)
  }

  predicate ListenerStep(step: Step) {
    step.BeaconSwap? || step.BeaconJoin? || step.BeaconReplace? || step.BeaconSpawn?
    || step.ListenerReport? || step.ListenerExit?
  }

  lemma OtherSteps(s: State, step: Step)
    requires Enabled(s, step) && !RelayStep(step)
    ensures Quiet(s, Next(s, step))
  {
    hide Harvest, Connect, Probe, Hear, HarvestCamera, HearCamera, Join, Spawn, Exit, Quiet;
    match step
    case BeaconHear(ip) => QuietHear(s, ip);
    case BeaconConnect(None) => QuietBeacon(s);
    case BeaconConnect(Some(fd)) => QuietConnect(s, s.beacon.ip, fd);
    case MonitorProbe(ok) => QuietProbe(s, ok);
    case ScanHear(ip) => QuietScan(s, ip);
    case ScanHarvest(r) => QuietHarvest(s, s.scanner.ip, Harvest(r, 0));
    case _ =>
      if ListenerStep(step) {
        QuietListener(s, step);
      } else {
        QuietMonitor(s, step);
      }
  }

  lemma QuietBeacon(s: State)
    requires s.beacon.BChecked?
    ensures Quiet(s, s.(beacon := BIdle))
  {
  }

  lemma QuietScan(s: State, ip: string)
    requires s.scanner.SIdle?
    ensures Quiet(s, HearCamera(s, ip))
  {
    hide DeviceManager.Registered, Fails, OnBeacon, MonitorList;
    var s' := HearCamera(s, ip);
    assert s' == s || s' == s.(scanner := SHarvesting(ip));
    SameMonitorList(s, s');
    SameBeacon(s, s');
  }

  lemma SameMonitorList(s: State, s': State)
    requires s'.monitor == s.monitor
    ensures MonitorList(s') == MonitorList(s)
  {
  }

  lemma SameBeacon(s: State, s': State)
    requires s'.beacon == s.beacon
    ensures forall k: nat :: OnBeacon(s', k) <==> OnBeacon(s, k)
  {
  }

  lemma SameScanner(s: State, s': State)
    requires s'.scanner == s.scanner
    ensures forall k: nat :: OnScanner(s', k) <==> OnScanner(s, k)
  {
  }

  lemma QuietHarvest(s: State, ip: string, urls: seq<string>)
    requires s.scanner.SHarvesting?
    ensures Quiet(s, HarvestCamera(s, ip, urls))
  {
  }

  lemma QuietListener(s: State, step: Step)
    requires Enabled(s, step) && ListenerStep(step)
    ensures Quiet(s, Next(s, step))
  {
    hide Hear, Connect, Publish, PublishChannel, Probe, ReapNext, RunCallback, HearCamera, HarvestCamera, Harvest, Mounted,
      Wanted;
  }

  lemma QuietMonitor(s: State, step: Step)
    requires Enabled(s, step)
    requires step.MonitorSnapshot? || step.MonitorEnough? || step.MonitorReapEnd? || step.MonitorRest?
             || step.OtherOpen? || step.OtherClose?
    ensures Quiet(s, Next(s, step))
  {
    hide Hear, Connect, Publish, PublishChannel, Probe, ReapNext, RunCallback, HearCamera, HarvestCamera, Join, Spawn, Exit, Harvest, Joinable, Mounted, Wanted;
  }

  lemma QuietHear(s: State, ip: string)
    requires s.beacon.BIdle?
    ensures Quiet(s, Hear(s, ip))
  {
    hide DeviceManager.Registered, OnScanner, MonitorList;
    var s' := Hear(s, ip);
    assert s' == s || s' == s.(beacon := BChecked(ip));
    SameMonitorList(s, s');
    SameScanner(s, s');
  }

  lemma QuietConnect(s: State, ip: string, fd: int)
    requires s.beacon.BChecked?
    ensures Quiet(s, Connect(s, ip, fd))
  {
  }

  lemma QuietProbe(s: State, ok: bool)
    requires s.monitor.MProbing? && s.monitor.at < |s.monitor.targets|
    ensures Quiet(s, Probe(s, ok))
  {
  }

  lemma RelayKept(s: State, step: Step)
    requires Inv(s) && MonitorState(s) && Relay(s) && Enabled(s, step)
    ensures Relay(Next(s, step))
  {
    hide Inv, MonitorState, Relay, RunCallback, Publish, PublishChannel, ReapNext;
    if Notifies(step) {
      NotifyRuns(s, step);
      RunKeeps(s, Taken(s, step), Called(s, step));
    } else if !RelayStep(step) {
      OtherSteps(s, step);
      assert forall k: nat :: OnMonitor(Next(s, step), k) <==> OnMonitor(s, k);
      OtherKeepsRelay(s, Next(s, step));
    } else {
      DecidingStepKeeps(s, step);
    }
  }

  lemma DecidingStepKeeps(s: State, step: Step)
    requires Inv(s) && MonitorState(s) && Relay(s) && Enabled(s, step)
    requires RelayStep(step) && !Notifies(step)
    ensures Relay(Next(s, step))
  {
    hide Inv, MonitorState, Relay, Publish, PublishChannel, ReapNext;
    match step
    case BeaconPublish => PublishIssues(s, s.beacon.info);
    case ScanPublish => ChannelIssues(s, s.scanner.ip, s.scanner.urls, s.scanner.next);
    case MonitorReap => ReapIssues(s);
    case RelayStart => StartKeeps(s);
  }

  lemma {:induction false} RelayReached(s: State, steps: seq<Step>)
    requires Inv(s) && MonitorState(s) && Relay(s) && Possible(s, steps)
    ensures Relay(After(s, steps))
    decreases |steps|
  {
    if steps != [] {
      hide Inv, MonitorState, Relay, Enabled, Next;
      InvKept(s, steps[0]);
      MonitorStateKept(s, steps[0]);
      RelayKept(s, steps[0]);
      RelayReached(Next(s, steps[0]), steps[1..]);
    }
  }

  lemma RelayInitially()
    ensures Relay(Init)
  {
  }

  predicate IsRegistration(s: State, k: Option<nat>) {
    k.Some? && k.value < |s.issued| && Registration(s.issued[k.value])
  }

  /**
    * In every run, callbacks running in any order: the relay of a device agrees with the registry
    * exactly when the callback that ran last for it is the one decided on last, or both took it away
    * (or there was none). Cameras never get a relay.
    */
  lemma RelayAgreesExactly(steps: seq<Step>, id: DeviceId)
    requires Possible(Init, steps) && After(Init, steps).mounts.Some?
    ensures var s := After(Init, steps);
            var run, issued := Lookup(s.lastRun, id), Lookup(s.lastIssued, id);
            && (Mounted(s, id) == Wanted(s, id) <==>
                  run == issued || (!IsRegistration(s, run) && !IsRegistration(s, issued)))
            && (id.Hanwha? ==> Mounted(s, id) == None)
  {
    InvInitially();
    RelayInitially();
    RelayReached(Init, steps);
    hide Possible, After, Relay, Inv, MonitorState;
    AgreesExactly(After(Init, steps), id);
  }

  lemma AgreesExactly(s: State, id: DeviceId)
    requires Relay(s) && s.mounts.Some?
    ensures var run, issued := Lookup(s.lastRun, id), Lookup(s.lastIssued, id);
            && (Mounted(s, id) == Wanted(s, id) <==>
                  run == issued || (!IsRegistration(s, run) && !IsRegistration(s, issued)))
            && (id.Hanwha? ==> Mounted(s, id) == None)
  {
    assert Wanted(s, id) == Effect(s.issued, Lookup(s.lastIssued, id));
    assert Mounted(s, id) == Effect(s.issued, Lookup(s.lastRun, id));
    hide Wanted, Mounted, Outstanding;
    assert id.Hanwha? ==> !IsRegistration(s, Lookup(s.lastRun, id));
  }

  // ---- callbacks that keep their order ----

  /** Each callback is on one list only, and on none once it has run. */
  ghost predicate Once(s: State) {
    && (forall k: nat :: OnBeacon(s, k) ==> k < |s.issued| && k !in s.ran && !OnScanner(s, k) && !OnMonitor(s, k))
    && (forall k: nat :: OnScanner(s, k) ==> k < |s.issued| && k !in s.ran && !OnMonitor(s, k))
    && (forall k: nat :: OnMonitor(s, k) ==> k < |s.issued| && k !in s.ran)
    && (forall k :: k in s.ran ==> k < |s.issued|)
    && (forall i, j :: 0 <= i < j < |MonitorList(s)| ==> MonitorList(s)[i] != MonitorList(s)[j])
  }

  /** The callbacks about a device run in the order they were decided on, and the table is there. */
  ghost predicate InTurn(s: State, step: Step)
    requires Enabled(s, step)
  {
    Notifies(step) ==>
      && s.mounts.Some?
      && var k := Called(s, step);
      forall j: nat :: j < k && j < |s.issued| && k < |s.issued| && About(s.issued[j]) == About(s.issued[k]) ==> j in s.ran
  }

  ghost predicate ValidInTurn(s: State, steps: seq<Step>)
    decreases |steps|
  {
    steps == [] || (Enabled(s, steps[0]) && InTurn(s, steps[0]) && ValidInTurn(Next(s, steps[0]), steps[1..]))
  }

  /** Of each device's callbacks a beginning has run, and the last to run was the latest of these. */
  ghost predicate LastIsLatest(s: State) {
    && (forall k :: k in s.ran && k < |s.issued| ==>
          About(s.issued[k]) in s.lastRun && k <= s.lastRun[About(s.issued[k])])
    && (forall j: nat, k :: k in s.ran && j < k < |s.issued| && About(s.issued[j]) == About(s.issued[k]) ==> j in s.ran)
  }

  lemma IssueKeepsOnce(s: State, s': State, cb: Callback)
    requires Once(s) && LastIsLatest(s) && s'.issued == s.issued + [cb] && s'.ran == s.ran && s'.lastRun == s.lastRun
    requires forall k: nat :: OnBeacon(s', k) ==> OnBeacon(s, k) || (k == |s.issued| && !OnScanner(s', k) && !OnMonitor(s', k))
    requires forall k: nat :: OnScanner(s', k) ==> OnScanner(s, k) || (k == |s.issued| && !OnMonitor(s', k))
    requires MonitorList(s') == MonitorList(s) || MonitorList(s') == MonitorList(s) + [|s.issued|]
    ensures Once(s') && LastIsLatest(s')
  {
    hide OnBeacon, OnScanner;
    assert forall k: nat :: OnMonitor(s', k) ==> OnMonitor(s, k) || k == |s.issued|;
    forall i, j | 0 <= i < j < |MonitorList(s')|
      ensures MonitorList(s')[i] != MonitorList(s')[j]
    {
      assert OnMonitor(s, MonitorList(s')[i]);
    }
  }

  lemma QuietKeepsOnce(s: State, s': State)
    requires Once(s) && LastIsLatest(s)
    requires s'.issued == s.issued && s'.ran == s.ran && s'.lastRun == s.lastRun
    requires forall k: nat :: OnBeacon(s', k) ==> OnBeacon(s, k)
    requires forall k: nat :: OnScanner(s', k) ==> OnScanner(s, k)
    requires MonitorList(s') == MonitorList(s)
    ensures Once(s') && LastIsLatest(s')
  {
    hide OnBeacon, OnScanner;
    assert forall k: nat :: OnMonitor(s', k) <==> OnMonitor(s, k);
  }

  lemma PublishKeepsOnce(s: State, info: DeviceInfo)
    requires Inv(s) && s.beacon == BConnected(info) && Once(s) && LastIsLatest(s)
    ensures Once(Publish(s, info)) && LastIsLatest(Publish(s, info))
  {
    var s' := Publish(s, info);
    PublishEffect(s, info);
    hide Inv, Once, LastIsLatest;
    IndicesInRange(s);
    assert !Outstanding(s, |s.issued|);
    IssueKeepsOnce(s, s', Registered(s'.devices[info.id]));
  }

  lemma IndicesInRange(s: State)
    requires Once(s)
    ensures forall k: nat :: Outstanding(s, k) ==> k < |s.issued| && k !in s.ran
  {
  }

  lemma ChannelKeepsOnce(s: State, ip: string, urls: seq<string>, i: nat)
    requires Once(s) && LastIsLatest(s) && i < |urls| && s.scanner == SFeeding(ip, urls, i)
    ensures Once(PublishChannel(s, ip, urls, i)) && LastIsLatest(PublishChannel(s, ip, urls, i))
  {
    var s', info := PublishChannel(s, ip, urls, i), ChannelInfo(ip, urls, i);
    hide Once, LastIsLatest;
    IndicesInRange(s);
    assert !Outstanding(s, |s.issued|);
    if DeviceManager.Registered(s.devices, info.id) {
      QuietKeepsOnce(s, s');
    } else {
      IssueKeepsOnce(s, s', Registered(s'.devices[info.id]));
    }
  }

  lemma ReapKeepsOnce(s: State)
    requires Inv(s) && MonitorState(s) && s.monitor.MReaping? && s.monitor.done < |s.monitor.offline|
    requires Once(s) && LastIsLatest(s)
    ensures Once(ReapNext(s)) && LastIsLatest(ReapNext(s))
  {
    ReapEffect(s);
    hide Inv, MonitorState, Once, LastIsLatest;
    ReapBooks(s);
    IndicesInRange(s);
    assert !Outstanding(s, |s.issued|);
    IssueKeepsOnce(s, ReapNext(s), Removed(s.monitor.offline[s.monitor.done].target.id));
  }

  lemma CalledIsOutstanding(s: State, step: Step)
    requires Enabled(s, step) && Notifies(step) && Once(s)
    ensures Called(s, step) < |s.issued| && Called(s, step) !in s.ran
  {
    var k := Called(s, step);
    assert OnBeacon(s, k) || OnScanner(s, k) || OnMonitor(s, k);
  }

  lemma TakenKeepsOnce(s: State, step: Step)
    requires Enabled(s, step) && Notifies(step) && Once(s)
    ensures Once(Taken(s, step)) && !Outstanding(Taken(s, step), Called(s, step))
  {
    if step.MonitorNotify? {
      TakenFromMonitor(s);
    } else if step.BeaconNotify? {
      TakenFromBeacon(s);
    } else {
      TakenFromScanner(s);
    }
  }

  lemma TakenFromBeacon(s: State)
    requires s.beacon.BPublished? && s.beacon.pending.Some? && Once(s)
    ensures var s1 := s.(beacon := BPublished(s.beacon.info, None)); Once(s1) && !Outstanding(s1, s.beacon.pending.value)
  {
    var s1 := s.(beacon := BPublished(s.beacon.info, None));
    assert OnBeacon(s, s.beacon.pending.value);
    assert forall j: nat :: OnScanner(s1, j) <==> OnScanner(s, j);
    assert forall j: nat :: OnMonitor(s1, j) <==> OnMonitor(s, j);
  }

  lemma TakenFromScanner(s: State)
    requires s.scanner.SNotifying? && Once(s)
    ensures var s1 := s.(scanner := Fed(s.scanner.ip, s.scanner.urls, s.scanner.next + 1));
            Once(s1) && !Outstanding(s1, s.scanner.pending)
  {
    var s1 := s.(scanner := Fed(s.scanner.ip, s.scanner.urls, s.scanner.next + 1));
    assert OnScanner(s, s.scanner.pending);
    assert forall j: nat :: OnBeacon(s1, j) <==> OnBeacon(s, j);
    assert forall j: nat :: OnMonitor(s1, j) <==> OnMonitor(s, j);
  }

  lemma TakenFromMonitor(s: State)
    requires s.monitor.MNotifying? && s.monitor.pending != [] && Once(s)
    ensures var s1 := s.(monitor := MNotifying(s.monitor.pending[1..]));
            Once(s1) && !Outstanding(s1, s.monitor.pending[0])
  {
    var s1, k := s.(monitor := MNotifying(s.monitor.pending[1..])), s.monitor.pending[0];
    assert OnMonitor(s, k);
    assert forall i :: 0 <= i < |s1.monitor.pending| ==> s1.monitor.pending[i] == s.monitor.pending[i + 1];
    assert forall j: nat :: OnMonitor(s1, j) ==> OnMonitor(s, j);
    assert forall j: nat :: OnBeacon(s1, j) <==> OnBeacon(s, j);
    assert forall j: nat :: OnScanner(s1, j) <==> OnScanner(s, j);
  }

  lemma RanKeepsOnce(s1: State, s': State, k: nat)
    requires Once(s1) && k < |s1.issued| && !Outstanding(s1, k)
    requires s' == s1.(mounts := s'.mounts, ran := s1.ran + {k}, lastRun := s'.lastRun)
    ensures Once(s')
  {
    assert forall j: nat :: OnBeacon(s', j) <==> OnBeacon(s1, j);
    assert forall j: nat :: OnScanner(s', j) <==> OnScanner(s1, j);
    assert forall j: nat :: OnMonitor(s', j) <==> OnMonitor(s1, j);
  }

  lemma RunKeepsOnce(s: State, step: Step)
    requires Enabled(s, step) && Notifies(step) && InTurn(s, step) && Once(s) && LastIsLatest(s)
    ensures Once(Next(s, step)) && LastIsLatest(Next(s, step))
  {
    var k, s1, s' := Called(s, step), Taken(s, step), Next(s, step);
    CalledIsOutstanding(s, step);
    TakenKeepsOnce(s, step);
    NotifyRuns(s, step);
    RunFrame(s1, k);
    hide Outstanding, OnBeacon, OnScanner, OnMonitor, MonitorList;
    RanKeepsOnce(s1, s', k);
    assert s'.lastRun == s.lastRun[About(s.issued[k]) := k] && s'.ran == s.ran + {k} && s'.issued == s.issued;
    hide Next, Taken, Enabled, RunCallback, Once;
    assert forall j :: j in s.ran && About(s.issued[j]) == About(s.issued[k]) && j < |s.issued| ==> j < k;
  }

  lemma OnceKept(s: State, step: Step)
    requires Inv(s) && MonitorState(s) && Enabled(s, step) && InTurn(s, step) && Once(s) && LastIsLatest(s)
    ensures Once(Next(s, step)) && LastIsLatest(Next(s, step))
  {
    hide Inv, MonitorState, Once, LastIsLatest, RunCallback, Publish, PublishChannel, ReapNext, InTurn;
    if Notifies(step) {
      RunKeepsOnce(s, step);
    } else if step.BeaconPublish? {
      PublishKeepsOnce(s, s.beacon.info);
    } else if step.ScanPublish? {
      ChannelKeepsOnce(s, s.scanner.ip, s.scanner.urls, s.scanner.next);
    } else if step.MonitorReap? {
      ReapKeepsOnce(s);
    } else if step.RelayStart? {
      QuietKeepsOnce(s, Next(s, step));
    } else {
      OtherSteps(s, step);
      QuietKeepsOnce(s, Next(s, step));
    }
  }

  lemma {:induction false} InTurnReached(s: State, steps: seq<Step>)
    requires Inv(s) && MonitorState(s) && Relay(s) && Once(s) && LastIsLatest(s) && ValidInTurn(s, steps)
    ensures Possible(s, steps)
    ensures Relay(After(s, steps)) && Once(After(s, steps)) && LastIsLatest(After(s, steps))
    decreases |steps|
  {
    if steps != [] {
      hide Inv, MonitorState, Relay, Once, LastIsLatest, Enabled, Next, InTurn;
      InvKept(s, steps[0]);
      MonitorStateKept(s, steps[0]);
      RelayKept(s, steps[0]);
      OnceKept(s, steps[0]);
      InTurnReached(Next(s, steps[0]), steps[1..]);
    }
  }

  /**
    * If the relay server has started before the first callback runs and callbacks about one device
    * run in the order of their critical sections, then whenever none about a device is outstanding
    * its relay is exactly what the registry calls for: its current port if it is an online Sub-Pi,
    * nothing otherwise, after any number of losses and recoveries.
    */
  lemma RelayAgreesInOrder(steps: seq<Step>, id: DeviceId)
    requires ValidInTurn(Init, steps)
    ensures Possible(Init, steps)
    ensures var s := After(Init, steps);
            s.mounts.Some? && (forall k: nat :: k < |s.issued| && Outstanding(s, k) ==> About(s.issued[k]) != id) ==>
              Mounted(s, id) == Wanted(s, id)
  {
    InvInitially();
    RelayInitially();
    OnceInitially();
    InTurnReached(Init, steps);
    hide Possible, ValidInTurn, After, Outstanding;
    var s := After(Init, steps);
    if s.mounts.Some? && (forall k: nat :: k < |s.issued| && Outstanding(s, k) ==> About(s.issued[k]) != id) {
      LatestHasRun(s, id);
      hide Books, Once, LastIsLatest, RisingPorts;
      assert Wanted(s, id) == Effect(s.issued, Lookup(s.lastIssued, id));
      assert Mounted(s, id) == Effect(s.issued, Lookup(s.lastRun, id));
    }
  }

  lemma OnceInitially()
    ensures Once(Init) && LastIsLatest(Init)
  {
  }

  lemma LatestHasRun(s: State, id: DeviceId)
    requires Books(s) && LastIsLatest(s)
    requires forall k: nat :: k < |s.issued| && Outstanding(s, k) ==> About(s.issued[k]) != id
    ensures Lookup(s.lastRun, id) == Lookup(s.lastIssued, id)
  {
    hide Outstanding;
    if id in s.lastIssued {
      assert s.lastIssued[id] in s.ran;
    }
    if id in s.lastRun {
      assert About(s.issued[s.lastRun[id]]) == id;
    }
  }
}
