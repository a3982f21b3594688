/**
  * The device server as a step machine: beacon receiver, scanner, monitor and listener threads over
  * one registry, with every critical section of the device mutex one step and everything else between
  * such sections its own step. Descriptors are handed out by the kernel and may be reused, so each
  * command connection also has a session number.
  */
module Discovery {
  import opened Common
  import opened Json
  import opened DeviceManager
  import opened RtspServer
  import opened SubPiManager
  import opened OnvifScanner

  /** What a descriptor stands for: a command connection to a Sub-Pi, or anything else in the process. */
  datatype Conn = Stream(session: nat) | Foreign

  /** A successful handshake: the peer, the port named to it, the descriptor. */
  datatype Session = Session(ip: string, port: int, fd: int)

  datatype Callback = Registered(info: DeviceInfo) | Removed(device: DeviceId)

  datatype Beacon =
    | BIdle
    | BChecked(ip: string)                                 // not registered; about to connect
    | BConnected(info: DeviceInfo)                         // connected; about to publish
    | BPublished(info: DeviceInfo, pending: Option<nat>)   // mutex released; callback outstanding
    | BReaping(info: DeviceInfo, todo: set<DeviceId>)      // joining finished listeners
    | BSpawning(info: DeviceInfo)                          // about to assign the new listener

  datatype Scanner =
    | SIdle
    | SHarvesting(ip: string)
    | SFeeding(ip: string, urls: seq<string>, next: nat)
    | SNotifying(ip: string, urls: seq<string>, next: nat, pending: nat)

  /**
    * A device that failed its check. The source keeps the id only; the copied target and what its
    * descriptor stood for when it was probed are here to say what has not changed since.
    */
  datatype Mark = Mark(target: CheckTarget, conn: Option<Conn>)

  datatype Monitor =
    | MIdle
    | MProbing(targets: seq<CheckTarget>, at: nat, offline: seq<Mark>, up: map<string, bool>)
    | MReaping(offline: seq<Mark>, done: nat, pending: seq<nat>)
    | MNotifying(pending: seq<nat>)

  datatype Life = Running | Exited | Joined

  /** A listener thread keeps the descriptor of the session it was started for. */
  datatype Listener = Listener(device: DeviceId, session: int, life: Life)

  datatype State = State(
    devices: Registry,
    status: map<DeviceId, Json>,
    open: map<int, Conn>,            // the process's descriptor table
    sessions: seq<Session>,          // every handshake so far
    closed: seq<nat>,                // sessions closed by the monitor, in order
    strayCloses: nat,                // closes that hit something else
    nextPort: nat,
    beacon: Beacon,
    scanner: Scanner,
    failCount: map<string, nat>,
    harvests: seq<(string, bool)>,   // every harvest and whether it gave anything
    monitor: Monitor,
    mounts: Mounts,
    issued: seq<Callback>,           // callbacks in the order of their critical sections
    ran: set<nat>,                   // which of them have run
    lastIssued: map<DeviceId, nat>,  // the latest callback about a device
    lastRun: map<DeviceId, nat>,     // the latest that found a mount table
    threads: seq<Listener>,
    listeners: map<DeviceId, nat>,
    finished: set<DeviceId>)

  const Init := State(map[], map[], map[], [], [], 0, FIRST_PORT, BIdle, SIdle, map[], [], MIdle, None,
                      [], {}, map[], map[], [], map[], {})

  datatype Step =
    | BeaconHear(ip: string)
    | BeaconConnect(socket: Option<int>)
    | BeaconPublish
    | BeaconNotify
    | BeaconSwap
    | BeaconJoin(device: DeviceId)
    | BeaconReplace
    | BeaconSpawn
    | ListenerReport(thread: nat, report: Json)
    | ListenerExit(thread: nat)
    | ScanHear(ip: string)
    | ScanHarvest(replies: Replies)
    | ScanPublish
    | ScanNotify
    | MonitorSnapshot(targets: seq<CheckTarget>)
    | MonitorProbe(ok: bool)
    | MonitorEnough
    | MonitorReap
    | MonitorReapEnd
    | MonitorNotify
    | MonitorRest
    | RelayStart
    | OtherOpen(fd: int)
    | OtherClose(fd: int)

  /** The session a port belongs to. */
  function SessionOf(port: int): int { port - FIRST_PORT }

  function Fails(s: State, ip: string): nat {
    if ip in s.failCount then s.failCount[ip] else 0
  }

  predicate Joinable(s: State, id: DeviceId) {
    id in s.listeners ==> s.listeners[id] < |s.threads| && s.threads[s.listeners[id]].life == Exited
  }

  ghost predicate Enabled(s: State, step: Step) {
    match step
    case BeaconHear(_) => s.beacon.BIdle?
    case BeaconConnect(fd) => s.beacon.BChecked? && (fd.Some? ==> fd.value >= 0 && fd.value !in s.open)
    case BeaconPublish => s.beacon.BConnected?
    case BeaconNotify => s.beacon.BPublished? && s.beacon.pending.Some? && s.beacon.pending.value < |s.issued|
    case BeaconSwap => s.beacon.BPublished? && s.beacon.pending.None?
    case BeaconJoin(id) => s.beacon.BReaping? && id in s.beacon.todo && Joinable(s, id)
    case BeaconReplace => s.beacon.BReaping? && s.beacon.todo == {} && Joinable(s, s.beacon.info.id)
    case BeaconSpawn => s.beacon.BSpawning?
    case ListenerReport(t, _) => t < |s.threads| && s.threads[t].life == Running
    case ListenerExit(t) => t < |s.threads| && s.threads[t].life == Running
    case ScanHear(_) => s.scanner.SIdle?
    case ScanHarvest(_) => s.scanner.SHarvesting?
    case ScanPublish => s.scanner.SFeeding? && s.scanner.next < |s.scanner.urls|
    case ScanNotify => s.scanner.SNotifying? && s.scanner.pending < |s.issued|
    case MonitorSnapshot(targets) => s.monitor.MIdle? && IsSnapshot(s.devices, targets)
    case MonitorProbe(_) => s.monitor.MProbing? && s.monitor.at < |s.monitor.targets|
    case MonitorEnough => s.monitor.MProbing?
    case MonitorReap => s.monitor.MReaping? && s.monitor.done < |s.monitor.offline|
    case MonitorReapEnd => s.monitor.MReaping? && s.monitor.done == |s.monitor.offline|
    case MonitorNotify => s.monitor.MNotifying? && s.monitor.pending != [] && s.monitor.pending[0] < |s.issued|
    case MonitorRest => s.monitor.MNotifying? && s.monitor.pending == []
    case RelayStart => s.mounts.None?
    case OtherOpen(fd) => fd >= 0 && fd !in s.open
    case OtherClose(fd) => fd in s.open && s.open[fd].Foreign?
  }

  function About(cb: Callback): DeviceId {
    match cb
    case Registered(info) => info.id
    case Removed(id) => id
  }

  /** The callback log once a critical section has decided whether there is one to make. */
  function Issued(s: State, cb: Option<Callback>): seq<Callback> {
    if cb.None? then s.issued else s.issued + [cb.value]
  }

  function LastIssued(s: State, cb: Option<Callback>): map<DeviceId, nat> {
    if cb.None? then s.lastIssued else s.lastIssued[About(cb.value) := |s.issued|]
  }

  function OnChange(changed: Option<DeviceInfo>): Option<Callback> {
    if changed.None? then None else Some(Registered(changed.value))
  }

  /** A callback does what the controller wired it to: add or remove the relay. */
  function RunCallback(s: State, k: nat): State
    requires k < |s.issued|
  {
    var cb := s.issued[k];
    s.(mounts := match cb case Registered(info) => AddRelay(s.mounts, info) case Removed(id) => RemoveRelay(s.mounts, id),
       ran := s.ran + {k},
       lastRun := if s.mounts.Some? then s.lastRun[About(cb) := k] else s.lastRun)
  }

  function Join(s: State, id: DeviceId): State {
    if id in s.listeners && s.listeners[id] < |s.threads| then
      s.(threads := s.threads[s.listeners[id] := s.threads[s.listeners[id]].(life := Joined)],
         listeners := s.listeners - {id})
    else s
  }

  function Fed(ip: string, urls: seq<string>, next: nat): Scanner {
    if next >= |urls| then SIdle else SFeeding(ip, urls, next)
  }

  /** One pass of the loop of the third monitor phase; at most one descriptor is closed. */
  function ReapNext(s: State): State
    requires s.monitor.MReaping? && s.monitor.done < |s.monitor.offline|
  {
    var m := s.monitor;
    var id := m.offline[m.done].target.id;
    var r := ReapOne(Reaped(s.devices, [], []), id);
    var cb := if r.removed == [] then None else Some(Removed(id));
    var hit := r.closed != [] && r.closed[0] in s.open && s.open[r.closed[0]].Stream?;
    s.(devices := r.devices,
       open := if r.closed == [] then s.open else s.open - {r.closed[0]},
       closed := if hit then s.closed + [s.open[r.closed[0]].session] else s.closed,
       strayCloses := if r.closed != [] && !hit then s.strayCloses + 1 else s.strayCloses,
       issued := Issued(s, cb),
       lastIssued := LastIssued(s, cb),
       monitor := MReaping(m.offline, m.done + 1, if cb.None? then m.pending else m.pending + [|s.issued|]))
  }

  function Probe(s: State, ok: bool): State
    requires s.monitor.MProbing? && s.monitor.at < |s.monitor.targets|
  {
    var m := s.monitor;
    var t := m.targets[m.at];
    var up := if t.kind != SUB_PI && t.ip !in m.up then m.up[t.ip := ok] else m.up;
    var alive := if t.kind == SUB_PI then ok else up[t.ip];
    var mark := Mark(t, if t.fd in s.open then Some(s.open[t.fd]) else None);
    s.(monitor := MProbing(m.targets, m.at + 1, m.offline + if alive then [] else [mark], up))
  }

  function Hear(s: State, ip: string): State {
    if DeviceManager.Registered(s.devices, SubPi(ip)) then s else s.(beacon := BChecked(ip))
  }

  function Connect(s: State, ip: string, fd: int): State {
    s.(sessions := s.sessions + [Session(ip, s.nextPort, fd)],
       open := s.open[fd := Stream(|s.sessions|)],
       beacon := BConnected(SessionInfo(ip, s.nextPort, fd)),
       nextPort := s.nextPort + 1)
  }

  function Publish(s: State, info: DeviceInfo): State {
    var f := FoundSubPi(s.devices, info);
    var cb := OnChange(f.changed);
    s.(devices := f.devices, issued := Issued(s, cb), lastIssued := LastIssued(s, cb),
       beacon := BPublished(info, if cb.None? then None else Some(|s.issued|)))
  }

  function Spawn(s: State, info: DeviceInfo): State {
    s.(threads := s.threads + [Listener(info.id, SessionOf(info.port), Running)],
       listeners := s.listeners[info.id := |s.threads|], beacon := BIdle)
  }

  function Exit(s: State, t: nat): State
    requires t < |s.threads|
  {
    s.(threads := s.threads[t := s.threads[t].(life := Exited)], finished := s.finished + {s.threads[t].device})
  }

  function HearCamera(s: State, ip: string): State {
    if DeviceManager.Registered(s.devices, Hanwha(ip, 0)) || Fails(s, ip) >= 1 then s
    else s.(scanner := SHarvesting(ip))
  }

  function HarvestCamera(s: State, ip: string, urls: seq<string>): State {
    s.(harvests := s.harvests + [(ip, urls != [])],
       scanner := Fed(ip, urls, 0),
       failCount := if urls == [] then s.failCount[ip := Fails(s, ip) + 1] else s.failCount)
  }

  function PublishChannel(s: State, ip: string, urls: seq<string>, i: nat): State
    requires i < |urls|
  {
    var f := FoundHanwha(s.devices, ChannelInfo(ip, urls, i));
    var cb := OnChange(f.changed);
    s.(devices := f.devices, issued := Issued(s, cb), lastIssued := LastIssued(s, cb),
       scanner := if cb.None? then Fed(ip, urls, i + 1) else SNotifying(ip, urls, i, |s.issued|))
  }

  function Next(s: State, step: Step): State
    requires Enabled(s, step)
  {
    match step
    case BeaconHear(ip) => Hear(s, ip)
    case BeaconConnect(None) => s.(beacon := BIdle)
    case BeaconConnect(Some(fd)) => Connect(s, s.beacon.ip, fd)
    case BeaconPublish => Publish(s, s.beacon.info)
    case BeaconNotify => RunCallback(s.(beacon := BPublished(s.beacon.info, None)), s.beacon.pending.value)
    case BeaconSwap => s.(beacon := BReaping(s.beacon.info, s.finished), finished := {})
    case BeaconJoin(id) => Join(s.(beacon := s.beacon.(todo := s.beacon.todo - {id})), id)
    case BeaconReplace => Join(s.(beacon := BSpawning(s.beacon.info)), s.beacon.info.id)
    case BeaconSpawn => Spawn(s, s.beacon.info)
    case ListenerReport(t, report) => s.(status := s.status[s.threads[t].device := report])
    case ListenerExit(t) => Exit(s, t)
    case ScanHear(ip) => HearCamera(s, ip)
    case ScanHarvest(r) => HarvestCamera(s, s.scanner.ip, Harvest(r, 0))
    case ScanPublish => PublishChannel(s, s.scanner.ip, s.scanner.urls, s.scanner.next)
    case ScanNotify =>
      RunCallback(s.(scanner := Fed(s.scanner.ip, s.scanner.urls, s.scanner.next + 1)), s.scanner.pending)
    case MonitorSnapshot(targets) => s.(monitor := MProbing(targets, 0, [], map[]))
    case MonitorProbe(ok) => Probe(s, ok)
    case MonitorEnough => s.(monitor := MReaping(s.monitor.offline, 0, []))
    case MonitorReap => ReapNext(s)
    case MonitorReapEnd => s.(monitor := MNotifying(s.monitor.pending))
    case MonitorNotify => RunCallback(s.(monitor := MNotifying(s.monitor.pending[1..])), s.monitor.pending[0])
    case MonitorRest => s.(monitor := MIdle)
    case RelayStart => s.(mounts := Some(map[]))
    case OtherOpen(fd) => s.(open := s.open[fd := Foreign])
    case OtherClose(fd) => s.(open := s.open - {fd})
  }

  ghost predicate Possible(s: State, steps: seq<Step>)
    decreases |steps|
  {
    steps == [] || (Enabled(s, steps[0]) && Possible(Next(s, steps[0]), steps[1..]))
  }

  ghost function After(s: State, steps: seq<Step>): State
    requires Possible(s, steps)
    decreases |steps|
  {
    if steps == [] then s else After(Next(s, steps[0]), steps[1..])
  }
}
