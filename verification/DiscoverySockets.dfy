/** Sockets, ports and the monitor's snapshot: what every step of the device server keeps. */
module DiscoverySockets {
  import opened Common
  import opened DeviceManager
  import opened SubPiManager
  import opened OnvifScanner
  import opened RtspServer
  import opened Discovery

  /** Records agree with their keys; a Sub-Pi is online exactly while it has a descriptor; cameras never have one. */
  ghost predicate Records(s: State) {
    forall id :: id in s.devices ==>
      var d := s.devices[id];
      && d.id == id && d.ip == id.ip
      && (id.SubPi? ==> d.kind == SUB_PI && (d.online <==> d.fd != -1))
      && (id.Hanwha? ==> d.kind == HANWHA && d.fd == -1)
  }

  ghost predicate Ports(s: State) {
    && s.nextPort == FIRST_PORT + |s.sessions|
    && (forall n :: 0 <= n < |s.sessions| ==> s.sessions[n].port == FIRST_PORT + n && s.sessions[n].fd >= 0)
    && (forall id :: id in s.devices && id.SubPi? ==>
          var n := SessionOf(s.devices[id].port);
          0 <= n < |s.sessions| && s.sessions[n].ip == id.ip
          && (s.devices[id].online ==> s.devices[id].fd == s.sessions[n].fd))
  }

  /** Session n is the one an online Sub-Pi runs on. */
  predicate Held(s: State, n: nat)
    requires n < |s.sessions|
  {
    var id := SubPi(s.sessions[n].ip);
    id in s.devices && s.devices[id].online && SessionOf(s.devices[id].port) == n
  }

  /** Session n is connected but not yet published. */
  predicate InFlight(s: State, n: nat) {
    s.beacon.BConnected? && SessionOf(s.beacon.info.port) == n
  }

  predicate Owned(s: State, n: nat)
    requires n < |s.sessions|
  {
    Held(s, n) || InFlight(s, n)
  }

  predicate Means(s: State, n: nat)
    requires n < |s.sessions|
  {
    s.sessions[n].fd in s.open && s.open[s.sessions[n].fd] == Stream(n)
  }

  ghost predicate BeaconState(s: State) {
    match s.beacon
    case BChecked(ip) => !DeviceManager.Registered(s.devices, SubPi(ip))
    case BConnected(info) =>
      && s.sessions != []
      && var n := |s.sessions| - 1;
      && info == SessionInfo(s.sessions[n].ip, s.sessions[n].port, s.sessions[n].fd)
      && !DeviceManager.Registered(s.devices, info.id)
      && (info.id in s.devices ==> s.devices[info.id].port < info.port)
    case _ => true
  }

  /** A session is in flight or online, and then its descriptor is open and means it, or it has been closed. */
  ghost predicate Settled(s: State, n: nat)
    requires n < |s.sessions|
  {
    (Owned(s, n) <==> n !in s.closed) && (Owned(s, n) <==> Means(s, n))
  }

  ghost predicate Descriptors(s: State) {
    && (forall n: nat :: n < |s.sessions| ==> Settled(s, n))
    && (forall fd :: fd in s.open && s.open[fd].Stream? ==>
          s.open[fd].session < |s.sessions| && s.sessions[s.open[fd].session].fd == fd)
    && (forall n :: n in s.closed ==> n < |s.sessions|)
    && (forall i, j :: 0 <= i < j < |s.closed| ==> s.closed[i] != s.closed[j])
    && s.strayCloses == 0
  }

  ghost predicate Inv(s: State) {
    Records(s) && Ports(s) && BeaconState(s) && Descriptors(s)
  }

  ghost predicate Untouched(s: State, s': State) {
    && s'.devices == s.devices && s'.open == s.open && s'.sessions == s.sessions && s'.closed == s.closed
    && s'.strayCloses == s.strayCloses && s'.nextPort == s.nextPort
    && (s'.beacon == s.beacon || !(s.beacon.BConnected? || s'.beacon.BConnected? || s'.beacon.BChecked?))
  }

  lemma SameSockets(s: State, s': State)
    requires Records(s) && Ports(s) && Descriptors(s)
    requires s'.devices == s.devices && s'.open == s.open && s'.sessions == s.sessions && s'.closed == s.closed
    requires s'.strayCloses == s.strayCloses && s'.nextPort == s.nextPort
    requires s'.beacon == s.beacon || !(s.beacon.BConnected? || s'.beacon.BConnected?)
    ensures Records(s') && Ports(s') && Descriptors(s')
  {
    forall n: nat | n < |s'.sessions|
      ensures Settled(s', n)
    {
      assert Settled(s, n);
    }
  }

  lemma UntouchedKeeps(s: State, s': State)
    requires Inv(s) && Untouched(s, s')
    ensures Inv(s')
  {
    hide Records, Ports, Descriptors;
    SameSockets(s, s');
  }

  lemma HearFrame(s: State, ip: string)
    ensures var s' := Hear(s, ip);
            && s' == s.(beacon := s'.beacon)
            && (s'.beacon == s.beacon || (s'.beacon == BChecked(ip) && !DeviceManager.Registered(s.devices, SubPi(ip))))
  {
    hide DeviceManager.Registered;
  }

  lemma HearKeeps(s: State, ip: string)
    requires Inv(s) && s.beacon.BIdle?
    ensures Inv(Hear(s, ip))
  {
    HearFrame(s, ip);
    hide Records, Ports, Descriptors, Hear, DeviceManager.Registered;
    SameSockets(s, Hear(s, ip));
  }

  lemma ConnectKeeps(s: State, ip: string, fd: int)
    requires Inv(s) && s.beacon == BChecked(ip) && fd >= 0 && fd !in s.open
    ensures Inv(Connect(s, ip, fd))
  {
    var s' := Connect(s, ip, fd);
    forall n: nat | n < |s'.sessions|
      ensures Settled(s', n)
    {
      if n < |s.sessions| {
        assert Settled(s, n);
        assert Means(s', n) <==> Means(s, n);
      }
    }
  }

  lemma PublishEffect(s: State, info: DeviceInfo)
    requires Records(s) && BeaconState(s) && s.beacon == BConnected(info)
    ensures var s' := Publish(s, info);
            && s'.beacon == BPublished(info, Some(|s.issued|))
            && info.id in s'.devices && s'.devices == s.devices[info.id := s'.devices[info.id]]
            && s'.devices[info.id].(sourceUrl := "") == info
            && s'.issued == s.issued + [Registered(s'.devices[info.id])]
  {
  }

  lemma PublishKeeps(s: State, info: DeviceInfo)
    requires Inv(s) && s.beacon == BConnected(info)
    ensures Inv(Publish(s, info))
  {
    var s' := Publish(s, info);
    PublishEffect(s, info);
    PublishedSessions(s, s', info);
  }

  lemma PublishedSessions(s: State, s': State, info: DeviceInfo)
    requires Inv(s) && s.beacon == BConnected(info) && s'.beacon.BPublished?
    requires s'.open == s.open && s'.sessions == s.sessions && s'.closed == s.closed && s'.strayCloses == s.strayCloses
    requires s'.nextPort == s.nextPort
    requires info.id in s'.devices && s'.devices == s.devices[info.id := s'.devices[info.id]]
    requires s'.devices[info.id].(sourceUrl := "") == info
    ensures Inv(s')
  {
    forall n: nat | n < |s'.sessions|
      ensures Settled(s', n)
    {
      assert Settled(s, n);
    }
  }

  lemma CameraKeeps(s: State, s': State, d: DeviceInfo)
    requires Inv(s) && Untouched(s.(devices := s'.devices), s')
    requires s'.devices == s.devices[d.id := d]
    requires d.id.Hanwha? && d.ip == d.id.ip && d.kind == HANWHA && d.fd == -1
    ensures Inv(s')
  {
    forall n: nat | n < |s'.sessions|
      ensures Settled(s', n)
    {
      assert Settled(s, n);
    }
  }

  lemma PublishChannelKeeps(s: State, ip: string, urls: seq<string>, i: nat)
    requires Inv(s) && i < |urls|
    ensures Inv(PublishChannel(s, ip, urls, i))
  {
    hide Inv;
    var s', info := PublishChannel(s, ip, urls, i), ChannelInfo(ip, urls, i);
    if DeviceManager.Registered(s.devices, info.id) {
      UntouchedKeeps(s, s');
    } else {
      HanwhaRecord(s, info.id);
      CameraKeeps(s, s', s'.devices[info.id]);
    }
  }

  lemma HanwhaRecord(s: State, id: DeviceId)
    requires Inv(s) && id.Hanwha?
    ensures id in s.devices ==>
              s.devices[id].id == id && s.devices[id].ip == id.ip && s.devices[id].kind == HANWHA && s.devices[id].fd == -1
  {
  }

  lemma OtherKeeps(s: State, s': State, fd: int)
    requires Inv(s) && s' == s.(open := s'.open)
    requires (s'.open == s.open[fd := Foreign] && fd !in s.open)
             || (s'.open == s.open - {fd} && fd in s.open && s.open[fd].Foreign?)
    ensures Inv(s')
  {
    forall n: nat | n < |s'.sessions|
      ensures Settled(s', n)
    {
      assert Settled(s, n);
    }
  }

  // ---- the monitor's snapshot ----

  /** A copied target still describes its device. */
  ghost predicate Fresh(s: State, t: CheckTarget) {
    t.id in s.devices && s.devices[t.id].online && t == TargetOf(s.devices[t.id], t.id)
  }

  /** A failed target still describes its device, and its descriptor still stands for what was probed. */
  ghost predicate FreshMark(s: State, m: Mark) {
    && Fresh(s, m.target)
    && (m.target.kind == SUB_PI ==>
          m.target.fd in s.open && s.open[m.target.fd].Stream? && m.conn == Some(s.open[m.target.fd]))
  }

  ghost predicate DistinctTargets(ts: seq<CheckTarget>) {
    forall i, j :: 0 <= i < j < |ts| ==> ts[i].id != ts[j].id
  }

  ghost predicate DistinctMarks(ms: seq<Mark>) {
    forall i, j :: 0 <= i < j < |ms| ==> ms[i].target.id != ms[j].target.id
  }

  ghost predicate MonitorState(s: State) {
    match s.monitor
    case MProbing(targets, at, offline, up) =>
      && at <= |targets| && DistinctTargets(targets) && DistinctMarks(offline)
      && (forall t <- targets :: Fresh(s, t))
      && (forall m <- offline :: FreshMark(s, m))
      && Apart(offline, targets, at)
    case MReaping(offline, done, _) =>
      && done <= |offline| && DistinctMarks(offline)
      && (forall j :: done <= j < |offline| ==> FreshMark(s, offline[j]))
    case _ => true
  }

  /** The steps of the other threads leave an online device and its descriptor alone. */
  ghost predicate Respects(s: State, s': State) {
    forall id :: id in s.devices && s.devices[id].online ==>
      && id in s'.devices && s'.devices[id] == s.devices[id]
      && (id.SubPi? && s.devices[id].fd in s.open && s.open[s.devices[id].fd].Stream? ==>
            s.devices[id].fd in s'.open && s'.open[s.devices[id].fd] == s.open[s.devices[id].fd])
  }

  lemma RespectedSnapshot(s: State, s': State)
    requires Records(s) && MonitorState(s) && Respects(s, s') && s'.monitor == s.monitor
    ensures MonitorState(s')
  {
    forall t: CheckTarget | Fresh(s, t)
      ensures Fresh(s', t)
    {
    }
    forall m: Mark | FreshMark(s, m)
      ensures FreshMark(s', m)
    {
      assert Fresh(s, m.target);
    }
  }

  lemma OnlineMeans(s: State, id: DeviceId)
    requires Inv(s) && id in s.devices && id.SubPi? && s.devices[id].online
    ensures var n := SessionOf(s.devices[id].port);
            && 0 <= n < |s.sessions| && Held(s, n) && n !in s.closed && s.sessions[n].ip == id.ip
            && s.devices[id].fd == s.sessions[n].fd && s.devices[id].fd in s.open
            && s.open[s.devices[id].fd] == Stream(n)
  {
    assert Settled(s, SessionOf(s.devices[id].port));
  }

  lemma MarkIsFresh(s: State, t: CheckTarget)
    requires Inv(s) && Fresh(s, t)
    ensures FreshMark(s, Mark(t, if t.fd in s.open then Some(s.open[t.fd]) else None))
  {
    hide Ports, Descriptors, BeaconState;
    if t.kind == SUB_PI {
      OnlineMeans(s, t.id);
    }
  }

  lemma SameFreshness(s: State, s': State)
    requires s'.devices == s.devices && s'.open == s.open
    ensures forall t :: Fresh(s, t) ==> Fresh(s', t)
    ensures forall m :: FreshMark(s, m) ==> FreshMark(s', m)
  {
  }

  /** No device is both marked and still to be probed. */
  ghost predicate Apart(marks: seq<Mark>, targets: seq<CheckTarget>, at: nat) {
    forall i, j :: 0 <= i < |marks| && at <= j < |targets| ==> marks[i].target.id != targets[j].id
  }

  lemma MarksGrow(marks: seq<Mark>, mark: Mark, targets: seq<CheckTarget>, at: nat)
    requires DistinctTargets(targets) && DistinctMarks(marks) && Apart(marks, targets, at)
    requires at < |targets| && mark.target == targets[at]
    ensures DistinctMarks(marks + [mark]) && Apart(marks, targets, at + 1) && Apart(marks + [mark], targets, at + 1)
  {
  }

  lemma ProbeKeeps(s: State, ok: bool)
    requires Inv(s) && MonitorState(s) && s.monitor.MProbing? && s.monitor.at < |s.monitor.targets|
    ensures MonitorState(Probe(s, ok))
  {
    var t := s.monitor.targets[s.monitor.at];
    var mark := Mark(t, if t.fd in s.open then Some(s.open[t.fd]) else None);
    MarkIsFresh(s, t);
    MarksGrow(s.monitor.offline, mark, s.monitor.targets, s.monitor.at);
    hide Inv, Fresh, FreshMark, DistinctMarks, DistinctTargets, Apart;
    var s' := Probe(s, ok);
    SameFreshness(s, s');
    var before, after := s.monitor.offline, s'.monitor.offline;
    assert after == before || after == before + [mark];
    assert s'.monitor.targets == s.monitor.targets && s'.monitor.at == s.monitor.at + 1;
    hide Probe;
    forall m | m in after
      ensures FreshMark(s', m)
    {
      assert m in before || m == mark;
    }
  }

  function Ids(marks: seq<Mark>): seq<DeviceId> {
    seq(|marks|, i requires 0 <= i < |marks| => marks[i].target.id)
  }

  /** The monitor's probes so far are the health check of the targets so far. */
  ghost predicate Checked(s: State, peek: nat -> Peek, sent: nat -> Sent)
    requires s.monitor.MProbing? && s.monitor.at <= |s.monitor.targets|
  {
    var m := s.monitor;
    && HanwhaAddresses(m.targets[..m.at]) <= m.up.Keys
    && Ids(m.offline) == Offline(m.targets[..m.at], peek, sent, m.up)
  }

  /** One probe is one pass of the health check: the steps of the machine add up to the method. */
  lemma ProbeIsHealthCheck(s: State, ok: bool, peek: nat -> Peek, sent: nat -> Sent)
    requires s.monitor.MProbing? && s.monitor.at < |s.monitor.targets| && Checked(s, peek, sent)
    requires s.monitor.targets[s.monitor.at].kind == SUB_PI ==> (ok <==> Alive(peek(s.monitor.at), sent(s.monitor.at)))
    ensures Checked(Probe(s, ok), peek, sent)
  {
    var m, m' := s.monitor, Probe(s, ok).monitor;
    var before, t := m.targets[..m.at], m.targets[m.at];
    assert m'.targets[..m'.at] == before + [t];
    AddressesAppend(before, t);
    OfflineExtends(before, peek, sent, m.up, m'.up);
    hide Offline, HanwhaAddresses;
    assert m'.offline == m.offline || Ids(m'.offline) == Ids(m.offline) + [t.id];
    OfflineStep(before, t, peek, sent, m'.up);
  }

  /**
    * The guards of the third phase never fire: the device is there and online, so it is taken
    * offline and reported, and the one descriptor closed is that of the session that was probed.
    */
  lemma ReapEffect(s: State)
    requires Inv(s) && MonitorState(s) && s.monitor.MReaping? && s.monitor.done < |s.monitor.offline|
    ensures var m := s.monitor.offline[s.monitor.done];
            var id := m.target.id;
            var s' := ReapNext(s);
            && FreshMark(s, m)
            && s'.devices == s.devices[id := s.devices[id].(online := false, fd := -1)]
            && s'.issued == s.issued + [Removed(id)]
            && s'.strayCloses == s.strayCloses
            && (id.SubPi? ==> m.conn.Some? && m.conn.value.Stream? && s'.open == s.open - {m.target.fd}
                              && s'.closed == s.closed + [m.conn.value.session])
            && (id.Hanwha? ==> s'.open == s.open && s'.closed == s.closed)
  {
    hide Ports, Descriptors, BeaconState;
    var m := s.monitor.offline[s.monitor.done];
    assert FreshMark(s, m);
  }

  lemma ReapFrame(s: State)
    requires s.monitor.MReaping? && s.monitor.done < |s.monitor.offline|
    ensures var s' := ReapNext(s);
            && s'.sessions == s.sessions && s'.nextPort == s.nextPort && s'.beacon == s.beacon
            && s'.monitor.MReaping? && s'.monitor.offline == s.monitor.offline && s'.monitor.done == s.monitor.done + 1
  {
  }

  lemma ReapKeeps(s: State)
    requires Inv(s) && MonitorState(s) && s.monitor.MReaping? && s.monitor.done < |s.monitor.offline|
    ensures Inv(ReapNext(s))
  {
    var m := s.monitor.offline[s.monitor.done];
    var s' := ReapNext(s);
    ReapEffect(s);
    ReapFrame(s);
    hide ReapNext, MonitorState;
    if m.target.id.SubPi? {
      OfflineKeeps(s, s', m.target.id);
    } else {
      CameraKeeps(s, s', s'.devices[m.target.id]);
    }
  }

  lemma OfflineKeeps(s: State, s': State, id: DeviceId)
    requires Inv(s) && id in s.devices && id.SubPi? && s.devices[id].online
    requires s'.sessions == s.sessions && s'.nextPort == s.nextPort && s'.beacon == s.beacon
    requires s'.devices == s.devices[id := s.devices[id].(online := false, fd := -1)]
    requires var fd := s.devices[id].fd;
             && s'.open == s.open - {fd} && s'.strayCloses == s.strayCloses
             && fd in s.open && s.open[fd].Stream? && s'.closed == s.closed + [s.open[fd].session]
    ensures Inv(s')
  {
    OnlineMeans(s, id);
    OfflineKeepsRecords(s, s', id);
    hide Records, Ports, BeaconState;
    forall n: nat | n < |s'.sessions|
      ensures Settled(s', n)
    {
      assert Settled(s, n);
    }
  }

  lemma OfflineKeepsRecords(s: State, s': State, id: DeviceId)
    requires Records(s) && Ports(s) && BeaconState(s) && id in s.devices && id.SubPi? && s.devices[id].online
    requires s'.sessions == s.sessions && s'.nextPort == s.nextPort && s'.beacon == s.beacon
    requires s'.devices == s.devices[id := s.devices[id].(online := false, fd := -1)]
    ensures Records(s') && Ports(s') && BeaconState(s')
  {
    OfflineKeepsPorts(s, s', id);
    hide Ports;
  }

  lemma OfflineKeepsPorts(s: State, s': State, id: DeviceId)
    requires Ports(s) && id in s.devices
    requires s'.sessions == s.sessions && s'.nextPort == s.nextPort
    requires s'.devices == s.devices[id := s.devices[id].(online := false, fd := -1)]
    ensures Ports(s')
  {
  }

  lemma ReapKeepsMonitor(s: State)
    requires Inv(s) && MonitorState(s) && s.monitor.MReaping? && s.monitor.done < |s.monitor.offline|
    ensures MonitorState(ReapNext(s))
  {
    var m := s.monitor.offline[s.monitor.done];
    var s' := ReapNext(s);
    ReapEffect(s);
    ReapFrame(s);
    hide ReapNext;
    forall j | s'.monitor.done <= j < |s'.monitor.offline|
      ensures FreshMark(s', s'.monitor.offline[j])
    {
      assert FreshMark(s, s.monitor.offline[j]);
      StillFresh(s, s', m, s.monitor.offline[j]);
    }
  }

  lemma StillFresh(s: State, s': State, gone: Mark, m: Mark)
    requires Inv(s) && FreshMark(s, gone) && FreshMark(s, m) && m.target.id != gone.target.id
    requires var id := gone.target.id;
             && s'.devices == s.devices[id := s.devices[id].(online := false, fd := -1)]
             && s'.open == if id.SubPi? then s.open - {gone.target.fd} else s.open
    ensures FreshMark(s', m)
  {
    hide Ports, Descriptors, BeaconState;
    if m.target.id.SubPi? && gone.target.id.SubPi? {
      OnlineMeans(s, m.target.id);
      OnlineMeans(s, gone.target.id);
    }
  }

  // ---- every step, every run ----

  ghost predicate SocketStep(step: Step) {
    step.BeaconHear? || step.BeaconConnect? || step.BeaconPublish? || step.ScanPublish?
    || step.MonitorReap? || step.OtherOpen? || step.OtherClose?
  }

  lemma OthersTouchNothing(s: State, step: Step)
    requires Enabled(s, step) && !SocketStep(step)
    ensures Untouched(s, Next(s, step))
  {
    hide Harvest, Probe, RunCallback, Join, Spawn, Exit, HearCamera, HarvestCamera, Joinable;
    if step.MonitorProbe? {
      ProbeTouchesNothing(s, step.ok);
    } else if step.BeaconNotify? {
      RunTouchesNothing(s, s.(beacon := BPublished(s.beacon.info, None)), s.beacon.pending.value);
    } else if step.ScanNotify? {
      RunTouchesNothing(s, s.(scanner := Fed(s.scanner.ip, s.scanner.urls, s.scanner.next + 1)), s.scanner.pending);
    } else if step.MonitorNotify? {
      RunTouchesNothing(s, s.(monitor := MNotifying(s.monitor.pending[1..])), s.monitor.pending[0]);
    } else if step.BeaconJoin? {
      JoinTouchesNothing(s, s.(beacon := s.beacon.(todo := s.beacon.todo - {step.device})), step.device);
    } else if step.BeaconReplace? {
      JoinTouchesNothing(s, s.(beacon := BSpawning(s.beacon.info)), s.beacon.info.id);
    } else if step.BeaconSpawn? || step.ListenerExit? {
      ThreadTouchesNothing(s, step);
    } else if step.ScanHear? {
      ScanTouchesNothing(s, step.ip, []);
    } else if step.ScanHarvest? {
      ScanTouchesNothing(s, s.scanner.ip, Harvest(step.replies, 0));
    }
  }

  lemma RunTouchesNothing(s: State, s1: State, k: nat)
    requires k < |s1.issued| && s1 == s.(beacon := s1.beacon, scanner := s1.scanner, monitor := s1.monitor)
    requires s1.beacon == s.beacon || (s.beacon.BPublished? && s1.beacon.BPublished?)
    ensures Untouched(s, RunCallback(s1, k))
  {
  }

  lemma JoinTouchesNothing(s: State, s1: State, id: DeviceId)
    requires s1 == s.(beacon := s1.beacon) && s.beacon.BReaping? && (s1.beacon.BReaping? || s1.beacon.BSpawning?)
    ensures Untouched(s, Join(s1, id))
  {
  }

  lemma ThreadTouchesNothing(s: State, step: Step)
    requires Enabled(s, step) && (step.BeaconSpawn? || step.ListenerExit?)
    ensures Untouched(s, Next(s, step))
  {
  }

  lemma ScanTouchesNothing(s: State, ip: string, urls: seq<string>)
    ensures Untouched(s, HearCamera(s, ip)) && HearCamera(s, ip).monitor == s.monitor
    ensures Untouched(s, HarvestCamera(s, ip, urls)) && HarvestCamera(s, ip, urls).monitor == s.monitor
  {
    hide DeviceManager.Registered, Fed, Fails;
  }

  lemma ProbeTouchesNothing(s: State, ok: bool)
    requires s.monitor.MProbing? && s.monitor.at < |s.monitor.targets|
    ensures Untouched(s, Probe(s, ok))
  {
  }

  lemma InvKept(s: State, step: Step)
    requires Inv(s) && MonitorState(s) && Enabled(s, step)
    ensures Inv(Next(s, step))
  {
    hide Inv, MonitorState, Hear, Connect, Publish, PublishChannel, ReapNext, Probe, Harvest;
    match step
    case BeaconHear(ip) => HearKeeps(s, ip);
    case BeaconConnect(None) => GiveUpKeeps(s);
    case BeaconConnect(Some(fd)) => ConnectKeeps(s, s.beacon.ip, fd);
    case BeaconPublish => PublishKeeps(s, s.beacon.info);
    case ScanPublish => PublishChannelKeeps(s, s.scanner.ip, s.scanner.urls, s.scanner.next);
    case MonitorReap => ReapKeeps(s);
    case OtherOpen(fd) => OtherKeeps(s, Next(s, step), fd);
    case OtherClose(fd) => OtherKeeps(s, Next(s, step), fd);
    case _ =>
      OthersTouchNothing(s, step);
      UntouchedKeeps(s, Next(s, step));
  }

  lemma GiveUpKeeps(s: State)
    requires Inv(s) && s.beacon.BChecked?
    ensures Inv(s.(beacon := BIdle))
  {
    UntouchedKeeps(s, s.(beacon := BIdle));
  }

  lemma StepRespects(s: State, step: Step)
    requires Inv(s) && Enabled(s, step) && !step.MonitorReap?
    ensures Respects(s, Next(s, step))
  {
    hide Ports, Descriptors, Harvest, Hear, Connect, Publish, PublishChannel, Probe;
    if !SocketStep(step) {
      OthersTouchNothing(s, step);
    } else if step.BeaconHear? {
      HearRespects(s, step.ip);
    } else if step.BeaconPublish? {
      PublishEffect(s, s.beacon.info);
      PublishFrame(s, s.beacon.info);
    } else if step.ScanPublish? {
      ChannelRespects(s, s.scanner.ip, s.scanner.urls, s.scanner.next);
    } else if step.BeaconConnect? && step.socket.Some? {
      ConnectRespects(s, s.beacon.ip, step.socket.value);
    }
  }

  lemma HearRespects(s: State, ip: string)
    ensures Respects(s, Hear(s, ip))
  {
  }

  lemma PublishFrame(s: State, info: DeviceInfo)
    ensures Publish(s, info).open == s.open && Publish(s, info).monitor == s.monitor
  {
  }

  lemma ChannelRespects(s: State, ip: string, urls: seq<string>, i: nat)
    requires i < |urls|
    ensures Respects(s, PublishChannel(s, ip, urls, i)) && PublishChannel(s, ip, urls, i).monitor == s.monitor
  {
  }

  lemma ConnectRespects(s: State, ip: string, fd: int)
    requires fd !in s.open
    ensures Respects(s, Connect(s, ip, fd))
  {
  }

  lemma MonitorStateKept(s: State, step: Step)
    requires Inv(s) && MonitorState(s) && Enabled(s, step)
    ensures MonitorState(Next(s, step))
  {
    match step
    case MonitorSnapshot(_) => SnapshotKeeps(s, step);
    case MonitorProbe(ok) => ProbeKeeps(s, ok);
    case MonitorReap => ReapKeepsMonitor(s);
    case MonitorEnough => EnoughKeeps(s, step);
    case MonitorReapEnd => LaterKeeps(s, step);
    case MonitorNotify => LaterKeeps(s, step);
    case MonitorRest => LaterKeeps(s, step);
    case _ =>
      hide MonitorState, Inv;
      StepRespects(s, step);
      SameMonitor(s, step);
      RecordsOf(s);
      RespectedSnapshot(s, Next(s, step));
  }

  lemma RecordsOf(s: State)
    requires Inv(s)
    ensures Records(s)
  {
  }

  lemma SnapshotKeeps(s: State, step: Step)
    requires step.MonitorSnapshot? && Enabled(s, step)
    ensures MonitorState(Next(s, step))
  {
  }

  lemma EnoughKeeps(s: State, step: Step)
    requires step.MonitorEnough? && Enabled(s, step) && MonitorState(s)
    ensures MonitorState(Next(s, step))
  {
    assert Respects(s, Next(s, step));
    forall m: Mark | FreshMark(s, m)
      ensures FreshMark(Next(s, step), m)
    {
    }
  }

  lemma LaterKeeps(s: State, step: Step)
    requires (step.MonitorReapEnd? || step.MonitorNotify? || step.MonitorRest?) && Enabled(s, step)
    ensures MonitorState(Next(s, step))
  {
  }

  lemma SameMonitor(s: State, step: Step)
    requires Enabled(s, step)
    requires !step.MonitorSnapshot? && !step.MonitorProbe? && !step.MonitorReap? && !step.MonitorEnough?
    requires !step.MonitorReapEnd? && !step.MonitorNotify? && !step.MonitorRest?
    ensures Next(s, step).monitor == s.monitor
  {
    hide Harvest, Hear, Connect, Publish, PublishChannel, HearCamera, HarvestCamera, AddRelay, RemoveRelay, Fed;
    if step.BeaconHear? {
      HearFrame(s, step.ip);
    } else if step.BeaconConnect? && step.socket.Some? {
      ConnectFrame(s, s.beacon.ip, step.socket.value);
    } else if step.BeaconPublish? {
      PublishFrame(s, s.beacon.info);
    } else if step.ScanPublish? {
      ChannelRespects(s, s.scanner.ip, s.scanner.urls, s.scanner.next);
    } else if step.ScanHear? {
      ScanTouchesNothing(s, step.ip, []);
    } else if step.ScanHarvest? {
      ScanTouchesNothing(s, s.scanner.ip, Harvest(step.replies, 0));
    }
  }

  lemma ConnectFrame(s: State, ip: string, fd: int)
    ensures Connect(s, ip, fd).monitor == s.monitor
  {
  }

  lemma InvInitially()
    ensures Inv(Init) && MonitorState(Init)
  {
  }

  lemma {:induction false} InvReached(s: State, steps: seq<Step>)
    requires Inv(s) && MonitorState(s) && Possible(s, steps)
    ensures Inv(After(s, steps)) && MonitorState(After(s, steps))
    decreases |steps|
  {
    if steps != [] {
      hide Inv, MonitorState, Enabled, Next;
      InvKept(s, steps[0]);
      MonitorStateKept(s, steps[0]);
      InvReached(Next(s, steps[0]), steps[1..]);
    }
  }
}
