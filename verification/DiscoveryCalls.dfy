/** What is announced about devices, compared with what the registry holds: in every run the one tells the other. */
module DiscoveryCalls {
  import opened Common
  import opened DeviceManager
  import opened SubPiManager
  import opened OnvifScanner
  import opened Discovery
  import opened DiscoverySockets
  import opened DiscoveryRelay

  /** The latest announcement about a device. */
  function Latest(issued: seq<Callback>, id: DeviceId): Option<Callback> {
    if issued == [] then None
    else
      var n := |issued| - 1;
      if About(issued[n]) == id then Some(issued[n]) else Latest(issued[..n], id)
  }

  /** The registry as one would draw it up from the announcements alone. */
  ghost predicate TellsOf(s: State, id: DeviceId) {
    match Latest(s.issued, id)
    case None => id !in s.devices
    case Some(Registered(info)) => info.online && id in s.devices && s.devices[id] == info
    case Some(Removed(_)) => id in s.devices && !s.devices[id].online
  }

  /** What is announced was not so before. */
  ghost predicate News(issued: seq<Callback>, n: nat)
    requires n < |issued|
  {
    var before := Latest(issued[..n], About(issued[n]));
    match issued[n]
    case Registered(info) => info.online && (before.None? || before.value.Removed?)
    case Removed(_) => before.Some? && before.value.Registered?
  }

  ghost predicate Told(s: State) {
    && (forall id :: TellsOf(s, id))
    && (forall n: nat :: n < |s.issued| ==> News(s.issued, n))
  }

  /** A step that announces one device as it now stands and leaves all others alone. */
  ghost predicate Tells(s: State, s': State, cb: Callback) {
    var id := About(cb);
    && s'.issued == s.issued + [cb]
    && id in s'.devices && s'.devices == s.devices[id := s'.devices[id]]
    && match cb
       case Registered(info) => !(id in s.devices && s.devices[id].online) && info.online && s'.devices[id] == info
       case Removed(_) => id in s.devices && s.devices[id].online && !s'.devices[id].online
  }

  lemma TellsKeeps(s: State, s': State, cb: Callback)
    requires Told(s) && Tells(s, s', cb)
    ensures Told(s')
  {
    var n := |s.issued|;
    assert s'.issued[..n] == s.issued && s'.issued[n] == cb;
    assert TellsOf(s, About(cb));
    forall id
      ensures TellsOf(s', id)
    {
      assert TellsOf(s, id);
    }
    hide TellsOf, Latest;
    forall k: nat | k < |s'.issued|
      ensures News(s'.issued, k)
    {
      if k < n {
        assert s'.issued[..k] == s.issued[..k] && News(s.issued, k);
      } else {
        NewsAtEnd(s, s', cb);
      }
    }
  }

  lemma NewsAtEnd(s: State, s': State, cb: Callback)
    requires TellsOf(s, About(cb)) && Tells(s, s', cb)
    ensures News(s'.issued, |s.issued|)
  {
    assert s'.issued[..|s.issued|] == s.issued && s'.issued[|s.issued|] == cb;
  }

  lemma SameTold(s: State, s': State)
    requires Told(s) && s'.issued == s.issued && s'.devices == s.devices
    ensures Told(s')
  {
    hide News, Latest;
    forall id
      ensures TellsOf(s', id)
    {
      assert TellsOf(s, id);
    }
  }

  lemma PublishTells(s: State, info: DeviceInfo)
    requires Inv(s) && s.beacon == BConnected(info)
    ensures var s' := Publish(s, info);
            info.id in s'.devices && s'.devices[info.id].online && Tells(s, s', Registered(s'.devices[info.id]))
  {
    PublishEffect(s, info);
    SessionInfoShape(s, info);
    hide Publish, Ports, Descriptors;
  }

  /**
    * A channel that is offered is registered and online from then on: as it was found if it is new, as it was
    * registered if it is known. It is announced if and only if it was not online, and as it stands then.
    */
  lemma OfferedChannel(s: State)
    requires Enabled(s, ScanPublish)
    ensures var s', id, url := Next(s, ScanPublish), Hanwha(s.scanner.ip, s.scanner.next), s.scanner.urls[s.scanner.next];
            && id in s'.devices && s'.devices[id].online
            && (if id in s.devices then SameCamera(s.devices[id], s'.devices[id])
                else s'.devices[id] == DeviceInfo(id, s.scanner.ip, HANWHA, true, url, 0, -1))
            && s'.devices.Keys == s.devices.Keys + {id}
            && (forall other :: other in s.devices && other != id ==> s'.devices[other] == s.devices[other])
            && s'.issued == s.issued + (if id in s.devices && s.devices[id].online then [] else [Registered(s'.devices[id])])
            && s'.scanner == (if id in s.devices && s.devices[id].online then NextChannel(s)
                              else SNotifying(s.scanner.ip, s.scanner.urls, s.scanner.next, |s.issued|))
  {
  }

  /** Where the scanner goes on once a channel is done. */
  function NextChannel(s: State): Discovery.Scanner
    requires s.scanner.SFeeding? || s.scanner.SNotifying?
  {
    if s.scanner.next + 1 < |s.scanner.urls| then SFeeding(s.scanner.ip, s.scanner.urls, s.scanner.next + 1) else SIdle
  }

  lemma ChannelTells(s: State)
    requires Inv(s) && Told(s) && Enabled(s, ScanPublish)
    ensures Told(Next(s, ScanPublish))
  {
    OfferedChannel(s);
    var s', id := Next(s, ScanPublish), Hanwha(s.scanner.ip, s.scanner.next);
    HanwhaRecord(s, id);
    hide Next, Inv, Told;
    if id in s.devices && s.devices[id].online {
      assert s'.devices == s.devices;
      SameTold(s, s');
    } else {
      assert s'.devices == s.devices[id := s'.devices[id]];
      TellsKeeps(s, s', Registered(s'.devices[id]));
    }
  }

  lemma ReapTells(s: State)
    requires Inv(s) && MonitorState(s) && s.monitor.MReaping? && s.monitor.done < |s.monitor.offline|
    ensures Tells(s, ReapNext(s), Removed(s.monitor.offline[s.monitor.done].target.id))
  {
    ReapEffect(s);
    hide ReapNext, Inv, MonitorState;
  }

  lemma RunTellsNothing(s: State, step: Step)
    requires Enabled(s, step) && Notifies(step)
    ensures Next(s, step).issued == s.issued && Next(s, step).devices == s.devices
  {
    NotifyRuns(s, step);
    RunFrame(Taken(s, step), Called(s, step));
    hide RunCallback;
  }

  lemma ToldKept(s: State, step: Step)
    requires Inv(s) && MonitorState(s) && Told(s) && Enabled(s, step)
    ensures Told(Next(s, step))
  {
    hide Inv, MonitorState, Told, Publish, PublishChannel, ReapNext;
    if step.BeaconPublish? {
      PublishTells(s, s.beacon.info);
      TellsKeeps(s, Next(s, step), Registered(Next(s, step).devices[s.beacon.info.id]));
    } else if step.ScanPublish? {
      ChannelTells(s);
    } else if step.MonitorReap? {
      ReapTells(s);
      TellsKeeps(s, Next(s, step), Removed(s.monitor.offline[s.monitor.done].target.id));
    } else if Notifies(step) {
      RunTellsNothing(s, step);
      SameTold(s, Next(s, step));
    } else {
      if !step.RelayStart? {
        OtherSteps(s, step);
      }
      SameTold(s, Next(s, step));
    }
  }

  lemma {:induction false} ToldReached(s: State, steps: seq<Step>)
    requires Inv(s) && MonitorState(s) && Told(s) && Possible(s, steps)
    ensures Told(After(s, steps))
    decreases |steps|
  {
    if steps != [] {
      hide Inv, MonitorState, Told, Enabled, Next;
      InvKept(s, steps[0]);
      MonitorStateKept(s, steps[0]);
      ToldKept(s, steps[0]);
      ToldReached(Next(s, steps[0]), steps[1..]);
    }
  }

  /**
    * In every run the registry can be read off the announcements: a device that was never announced is unknown, one
    * announced last as registered is online and exactly as announced, one announced last as removed is known and
    * offline. Every announcement is news, so registrations and removals of a device alternate, and what is registered
    * is online.
    */
  lemma AnnouncementsTellRegistry(steps: seq<Step>, id: DeviceId, n: nat)
    requires Possible(Init, steps)
    ensures var s := After(Init, steps);
            && (Latest(s.issued, id).None? <==> id !in s.devices)
            && (id in s.devices ==>
                  if s.devices[id].online then Latest(s.issued, id) == Some(Registered(s.devices[id]))
                  else Latest(s.issued, id) == Some(Removed(id)))
            && (n < |s.issued| ==> News(s.issued, n) && (s.issued[n].Registered? ==> s.issued[n].info.online))
  {
    hide Possible, After, Inv, MonitorState;
    InvInitially();
    ToldInitially();
    ToldReached(Init, steps);
    ReadOff(After(Init, steps), id, n);
  }

  lemma ToldInitially()
    ensures Told(Init)
  {
  }

  lemma ReadOff(s: State, id: DeviceId, n: nat)
    requires Told(s)
    ensures Latest(s.issued, id).None? <==> id !in s.devices
    ensures id in s.devices ==>
              if s.devices[id].online then Latest(s.issued, id) == Some(Registered(s.devices[id]))
              else Latest(s.issued, id) == Some(Removed(id))
    ensures n < |s.issued| ==> News(s.issued, n) && (s.issued[n].Registered? ==> s.issued[n].info.online)
  {
    assert TellsOf(s, id);
    LatestIsAbout(s.issued, id);
    hide News, Latest;
    if n < |s.issued| {
      OnlineNews(s.issued, n);
    }
  }

  lemma OnlineNews(issued: seq<Callback>, n: nat)
    requires n < |issued| && News(issued, n)
    ensures issued[n].Registered? ==> issued[n].info.online
  {
  }

  lemma {:induction false} LatestIsAbout(issued: seq<Callback>, id: DeviceId)
    ensures Latest(issued, id).Some? ==> Latest(issued, id).value in issued && About(Latest(issued, id).value) == id
  {
    if issued != [] {
      LatestIsAbout(issued[..|issued| - 1], id);
    }
  }
}
