/** What holds of sockets, ports and the monitor in every run of the device server. */
module DiscoveryLaws {
  import opened Common
  import opened DeviceManager
  import opened SubPiManager
  import opened OnvifScanner
  import opened Discovery
  import opened DiscoverySockets

  /**
    * Stale-snapshot safety. The monitor works on a copy taken long before, without the mutex; yet at
    * any moment of any run every target of the current cycle is still registered, online and
    * unchanged, and when the third phase reaches a failed device both its guards pass and the
    * descriptor it closes still stands for the very connection that was probed.
    */
  lemma StaleSnapshotIsSafe(steps: seq<Step>)
    requires Possible(Init, steps)
    ensures var s := After(Init, steps);
            && (s.monitor.MProbing? ==> forall t <- s.monitor.targets :: Fresh(s, t))
            && (s.monitor.MReaping? && s.monitor.done < |s.monitor.offline| ==>
                  var m := s.monitor.offline[s.monitor.done];
                  var id := m.target.id;
                  var s' := ReapNext(s);
                  && Fresh(s, m.target)
                  && id in s'.devices && s'.devices == s.devices[id := s.devices[id].(online := false, fd := -1)]
                  && s'.issued == s.issued + [Removed(id)]
                  && (id.SubPi? ==> m.target.fd in s.open && m.conn == Some(s.open[m.target.fd])
                                    && m.conn.value.Stream? && s'.closed == s.closed + [m.conn.value.session])
                  && (id.Hanwha? ==> s'.closed == s.closed))
  {
    InvInitially();
    InvReached(Init, steps);
    hide Possible, After;
    var s := After(Init, steps);
    if s.monitor.MReaping? && s.monitor.done < |s.monitor.offline| {
      ReapEffect(s);
    }
  }

  /**
    * Socket conservation. Each command connection ever made is exactly one of: still in flight on
    * the beacon thread, the socket of exactly one online Sub-Pi, or closed exactly once; and no
    * close ever hits a descriptor that stands for something else.
    */
  lemma SocketConservation(steps: seq<Step>, n: nat)
    requires Possible(Init, steps) && n < |After(Init, steps).sessions|
    ensures var s := After(Init, steps);
            && (Held(s, n) ==> !InFlight(s, n) && n !in s.closed && Means(s, n))
            && (InFlight(s, n) ==> !Held(s, n) && n !in s.closed && Means(s, n))
            && (n in s.closed ==> !Held(s, n) && !InFlight(s, n) && !Means(s, n))
            && (Held(s, n) || InFlight(s, n) || n in s.closed)
            && (forall i, j :: 0 <= i < j < |s.closed| ==> s.closed[i] != s.closed[j])
            && (Held(s, n) ==> forall id :: id in s.devices && s.devices[id].online && s.devices[id].fd == s.sessions[n].fd ==>
                  id == SubPi(s.sessions[n].ip))
            && s.strayCloses == 0
  {
    InvInitially();
    InvReached(Init, steps);
    hide Possible, After;
    var s := After(Init, steps);
    assert Settled(s, n);
    if Held(s, n) {
      OnlyHolder(s, n);
    }
  }

  /** No two online devices have the same descriptor. */
  lemma OnlyHolder(s: State, n: nat)
    requires Inv(s) && n < |s.sessions| && Held(s, n)
    ensures forall id :: id in s.devices && s.devices[id].online && s.devices[id].fd == s.sessions[n].fd ==>
              id == SubPi(s.sessions[n].ip)
  {
    OnlineMeans(s, SubPi(s.sessions[n].ip));
    forall id | id in s.devices && s.devices[id].online && s.devices[id].fd == s.sessions[n].fd
      ensures id == SubPi(s.sessions[n].ip)
    {
      if id.SubPi? {
        OnlineMeans(s, id);
      }
    }
  }

  /**
    * A Sub-Pi is online exactly while its record has a descriptor, that of a session of its own that
    * is not closed; cameras never have one. Publishing a session never meets a device already online.
    */
  lemma OnlineMeansConnected(steps: seq<Step>, id: DeviceId)
    requires Possible(Init, steps)
    ensures var s := After(Init, steps);
            && (id in s.devices && id.SubPi? ==>
                  && (s.devices[id].online <==> s.devices[id].fd != -1)
                  && (s.devices[id].online ==>
                        var n := SessionOf(s.devices[id].port);
                        0 <= n < |s.sessions| && Held(s, n) && n !in s.closed && s.sessions[n].ip == id.ip
                        && s.devices[id].fd in s.open && s.open[s.devices[id].fd] == Stream(n)))
            && (id in s.devices && id.Hanwha? ==> s.devices[id].fd == -1)
            && (s.beacon.BConnected? ==> FoundSubPi(s.devices, s.beacon.info).changed.Some?)
  {
    InvInitially();
    InvReached(Init, steps);
    hide Possible, After;
    var s := After(Init, steps);
    if id in s.devices && id.SubPi? && s.devices[id].online {
      OnlineMeans(s, id);
    }
  }

  /**
    * The descriptor of a session keeps meaning that session exactly until the monitor closes it. So a
    * motor command, which uses a descriptor it looked up earlier without holding the mutex, reaches
    * the Sub-Pi it was looked up for if and only if the monitor has not closed that session meanwhile.
    */
  lemma DescriptorMeaning(steps: seq<Step>, n: nat)
    requires Possible(Init, steps) && n < |After(Init, steps).sessions|
    ensures var s := After(Init, steps);
            (s.sessions[n].fd in s.open && s.open[s.sessions[n].fd] == Stream(n)) <==> n !in s.closed
  {
    InvInitially();
    InvReached(Init, steps);
    hide Possible, After;
    assert Settled(After(Init, steps), n);
  }

  /**
    * Ports. The port of every registered Sub-Pi, online or not, is the one named in its own latest
    * handshake; ports are distinct, start at 15001, stay below the counter, and are valid UDP ports
    * as long as there have been at most 50535 handshakes.
    */
  lemma PortsAreDistinct(steps: seq<Step>, a: DeviceId, b: DeviceId)
    requires Possible(Init, steps)
    requires var s := After(Init, steps); a in s.devices && b in s.devices && a.SubPi? && b.SubPi?
    ensures var s := After(Init, steps);
            && FIRST_PORT <= s.devices[a].port < s.nextPort == FIRST_PORT + |s.sessions|
            && s.sessions[SessionOf(s.devices[a].port)] == Session(a.ip, s.devices[a].port, s.sessions[SessionOf(s.devices[a].port)].fd)
            && (a != b ==> s.devices[a].port != s.devices[b].port)
            && (|s.sessions| <= 50535 ==> s.devices[a].port <= 65535)
  {
    InvInitially();
    InvReached(Init, steps);
    hide Possible, After, Descriptors, BeaconState;
  }

  /** From one state to a later one: records stay, and a Sub-Pi's port only changes to a larger one when it comes back. */
  ghost predicate Later(s: State, s': State) {
    forall id :: id in s.devices ==>
      && id in s'.devices
      && s'.devices[id].sourceUrl == s.devices[id].sourceUrl
      && (id.SubPi? ==> s.devices[id].port <= s'.devices[id].port)
  }

  lemma StepIsLater(s: State, step: Step)
    requires Inv(s) && MonitorState(s) && Enabled(s, step)
    ensures Later(s, Next(s, step))
  {
    hide Ports, Descriptors, BeaconState, Harvest, Hear, Connect, Publish, PublishChannel, Probe, ReapNext, MonitorState,
      HearCamera, HarvestCamera, RunCallback, Join, Spawn, Exit, Joinable, Fed;
    match step
    case BeaconHear(_) => HearOnlyListens(s, step);
    case BeaconConnect(None) =>
    case BeaconConnect(Some(fd)) => ConnectKeepsRecords(s, s.beacon.ip, fd);
    case BeaconPublish => PublishIsLater(s, s.beacon.info);
    case ScanPublish => ChannelIsLater(s, s.scanner.ip, s.scanner.urls, s.scanner.next);
    case MonitorReap => ReapEffect(s);
    case OtherOpen(_) =>
    case OtherClose(_) =>
    case _ => OthersTouchNothing(s, step);
  }

  lemma PublishIsLater(s: State, info: DeviceInfo)
    requires Records(s) && BeaconState(s) && s.beacon == BConnected(info)
    ensures Later(s, Publish(s, info))
  {
    PublishEffect(s, info);
    PublishKeepsUrls(s, info);
    hide Publish;
  }

  lemma HearOnlyListens(s: State, step: Step)
    requires step.BeaconHear? && Enabled(s, step)
    ensures Next(s, step).devices == s.devices
  {
  }

  lemma ConnectKeepsRecords(s: State, ip: string, fd: int)
    ensures Connect(s, ip, fd).devices == s.devices
  {
  }

  lemma PublishKeepsUrls(s: State, info: DeviceInfo)
    ensures forall id :: id in s.devices ==>
              id in Publish(s, info).devices && Publish(s, info).devices[id].sourceUrl == s.devices[id].sourceUrl
  {
  }

  lemma ChannelIsLater(s: State, ip: string, urls: seq<string>, i: nat)
    requires i < |urls|
    ensures Later(s, PublishChannel(s, ip, urls, i))
  {
  }

  /**
    * Over any stretch of any run no device is ever forgotten, the stream address of a channel never
    * changes after its first registration, and the port of a Sub-Pi never goes back.
    */
  lemma {:induction false} RecordsOnlyAdvance(s: State, steps: seq<Step>)
    requires Inv(s) && MonitorState(s) && Possible(s, steps)
    ensures Later(s, After(s, steps))
    decreases |steps|
  {
    if steps != [] {
      hide Inv, MonitorState, Enabled, Next;
      StepIsLater(s, steps[0]);
      InvKept(s, steps[0]);
      MonitorStateKept(s, steps[0]);
      RecordsOnlyAdvance(Next(s, steps[0]), steps[1..]);
    }
  }

  /** A Sub-Pi that comes back does so with a strictly larger port, the one just named to it. */
  lemma RecoveryUsesNewPort(s: State, info: DeviceInfo)
    requires Inv(s) && s.beacon == BConnected(info) && info.id in s.devices
    ensures !s.devices[info.id].online
    ensures var d := Publish(s, info).devices[info.id];
            d.online && d.port == info.port == s.nextPort - 1 && d.port > s.devices[info.id].port
  {
    hide Descriptors;
  }
}
