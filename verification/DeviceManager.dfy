/** The device registry: each function below is one critical section of the device mutex. */
module DeviceManager {
  import opened Common
  import opened Json

  type Registry = map<DeviceId, DeviceInfo>

  /** Duplicate check of both discovery threads: only an online device counts as registered. */
  predicate Registered(devices: Registry, id: DeviceId) {
    id in devices && devices[id].online
  }

  datatype Found = Found(devices: Registry, changed: Option<DeviceInfo>)

  /** A Sub-Pi was found: register it, or bring it back with its new socket and port. */
  function FoundSubPi(devices: Registry, info: DeviceInfo): Found {
    if info.id !in devices then Found(devices[info.id := info], Some(info))
    else if devices[info.id].online then Found(devices, None)
    else
      var back := devices[info.id].(online := true, fd := info.fd, port := info.port);
      Found(devices[info.id := back], Some(back))
  }

  /** A Hanwha channel was found: register it, or bring it back as it was. */
  function FoundHanwha(devices: Registry, info: DeviceInfo): Found {
    if info.id !in devices then Found(devices[info.id := info], Some(info))
    else if devices[info.id].online then Found(devices, None)
    else
      var back := devices[info.id].(online := true);
      Found(devices[info.id := back], Some(back))
  }

  /** From here on the device is online, the others are as they were, and any change is announced as it now stands. */
  ghost predicate BroughtOnline(before: Registry, info: DeviceInfo, after: Registry, changed: Option<DeviceInfo>) {
    && after.Keys == before.Keys + {info.id}
    && (forall id :: id in before && id != info.id ==> after[id] == before[id])
    && (if info.id in before then after[info.id].online else after[info.id] == info)
    && (changed.None? <==> info.id in before && before[info.id].online)
    && (if changed.Some? then changed.value == after[info.id] else after == before)
  }

  /** A camera comes back with everything it was registered with. */
  predicate SameCamera(before: DeviceInfo, after: DeviceInfo) {
    && after.id == before.id && after.ip == before.ip && after.kind == before.kind
    && after.sourceUrl == before.sourceUrl && after.port == before.port && after.fd == before.fd
  }

  /** A Sub-Pi comes back on a new connection with a new port. */
  predicate SameSubPi(before: DeviceInfo, info: DeviceInfo, after: DeviceInfo) {
    && after.id == before.id && after.ip == before.ip && after.kind == before.kind && after.sourceUrl == before.sourceUrl
    && after.port == info.port && after.fd == info.fd
  }

  lemma FoundIsOnline(devices: Registry, info: DeviceInfo)
    ensures var f := FoundSubPi(devices, info);
            && BroughtOnline(devices, info, f.devices, f.changed)
            && (info.id in devices && !devices[info.id].online ==> SameSubPi(devices[info.id], info, f.devices[info.id]))
    ensures var f := FoundHanwha(devices, info);
            && BroughtOnline(devices, info, f.devices, f.changed)
            && (info.id in devices ==> SameCamera(devices[info.id], f.devices[info.id]))
  {
  }

  /** What the monitor copies of an online device. */
  datatype CheckTarget = CheckTarget(id: DeviceId, ip: string, kind: DeviceType, fd: int)

  function TargetOf(info: DeviceInfo, id: DeviceId): CheckTarget {
    CheckTarget(id, info.ip, info.kind, info.fd)
  }

  /** Every online device once, nothing else. */
  ghost predicate IsSnapshot(devices: Registry, targets: seq<CheckTarget>) {
    && (forall i, j :: 0 <= i < j < |targets| ==> targets[i].id != targets[j].id)
    && (forall t <- targets :: t.id in devices && devices[t.id].online && t == TargetOf(devices[t.id], t.id))
    && (forall id :: id in devices && devices[id].online ==> TargetOf(devices[id], id) in targets)
  }

  /** Result of the third monitor phase: the new registry, who was removed, what was closed. */
  datatype Reaped = Reaped(devices: Registry, removed: seq<DeviceId>, closed: seq<int>)

  function ReapOne(r: Reaped, id: DeviceId): Reaped {
    if id !in r.devices || !r.devices[id].online then r
    else
      var info := r.devices[id];
      if info.kind == SUB_PI && info.fd != -1 then
        Reaped(r.devices[id := info.(online := false, fd := -1)], r.removed + [id], r.closed + [info.fd])
      else
        Reaped(r.devices[id := info.(online := false)], r.removed + [id], r.closed)
  }

  function Reap(devices: Registry, ids: seq<DeviceId>): Reaped {
    if ids == [] then Reaped(devices, [], [])
    else ReapOne(Reap(devices, ids[..|ids| - 1]), ids[|ids| - 1])
  }

  /** Exactly the listed devices that were online go offline, and of their records nothing else but the socket changes. */
  ghost predicate TakenOffline(before: Registry, ids: seq<DeviceId>, after: Registry) {
    && after.Keys == before.Keys
    && forall id :: id in before ==>
         var d, e := before[id], after[id];
         && (e.online <==> d.online && id !in ids)
         && e.id == d.id && e.ip == d.ip && e.kind == d.kind && e.sourceUrl == d.sourceUrl && e.port == d.port
         && e.fd == if d.kind == SUB_PI && d.online && id in ids then -1 else d.fd
  }

  /** The sockets of the Sub-Pis among these devices, in their order. */
  function Sockets(devices: Registry, ids: seq<DeviceId>): seq<int>
    requires forall id <- ids :: id in devices
  {
    if ids == [] then []
    else
      var n := |ids| - 1;
      var d := devices[ids[n]];
      Sockets(devices, ids[..n]) + if d.kind == SUB_PI && d.fd != -1 then [d.fd] else []
  }

  /** Each of these devices is announced once, and the sockets closed are those of its Sub-Pis. */
  ghost predicate Reported(before: Registry, ids: seq<DeviceId>, removed: seq<DeviceId>, closed: seq<int>) {
    && Distinct(removed)
    && (forall id :: id in removed <==> id in ids && id in before && before[id].online)
    && closed == Sockets(before, removed)
  }

  lemma {:induction false} ReapMeaning(devices: Registry, ids: seq<DeviceId>)
    ensures var r := Reap(devices, ids);
            TakenOffline(devices, ids, r.devices) && Reported(devices, ids, r.removed, r.closed)
  {
    if ids != [] {
      var init, last := ids[..|ids| - 1], ids[|ids| - 1];
      ReapMeaning(devices, init);
      assert forall id :: id in ids <==> id in init || id == last by {
        assert ids == init + [last];
      }
      ReapedNext(devices, init, ids, last, Reap(devices, init));
    }
  }

  lemma ReapedNext(devices: Registry, init: seq<DeviceId>, ids: seq<DeviceId>, last: DeviceId, r: Reaped)
    requires TakenOffline(devices, init, r.devices) && Reported(devices, init, r.removed, r.closed)
    requires forall id :: id in ids <==> id in init || id == last
    ensures var next := ReapOne(r, last);
            TakenOffline(devices, ids, next.devices) && Reported(devices, ids, next.removed, next.closed)
  {
    var next := ReapOne(r, last);
    if last in r.devices && r.devices[last].online {
      NextReported(devices, init, ids, last, r);
    } else {
      hide Sockets;
      assert next == r;
      assert last in devices ==> (devices[last].online && last !in init <==> r.devices[last].online);
    }
  }

  lemma NextReported(devices: Registry, init: seq<DeviceId>, ids: seq<DeviceId>, last: DeviceId, r: Reaped)
    requires TakenOffline(devices, init, r.devices) && Reported(devices, init, r.removed, r.closed)
    requires forall id :: id in ids <==> id in init || id == last
    requires last in r.devices && r.devices[last].online
    ensures var next := ReapOne(r, last); Reported(devices, ids, next.removed, next.closed)
  {
    var next := ReapOne(r, last);
    var d := devices[last];
    assert last in devices && d.online && last !in init && r.devices[last].fd == d.fd && r.devices[last].kind == d.kind;
    assert next.removed == r.removed + [last];
    assert next.closed == r.closed + if d.kind == SUB_PI && d.fd != -1 then [d.fd] else [];
    hide TakenOffline, ReapOne;
    assert next.removed[..|r.removed|] == r.removed;
    DistinctAppend(r.removed, last);
    hide Distinct;
    assert forall id :: id in next.removed <==> id in r.removed || id == last;
  }

  // Health check: what the kernel may answer.
  datatype Peek = EndOfStream | Data | WouldBlock | PeekError
  datatype Sent = Accepted | SendBlocked | SendError

  predicate Alive(peek: Peek, sent: Sent) {
    peek != EndOfStream && peek != PeekError && sent != SendError
  }

  /** The devices that failed their check when every Hanwha address has the given verdict. */
  function Offline(targets: seq<CheckTarget>, peek: nat -> Peek, sent: nat -> Sent, up: map<string, bool>): seq<DeviceId> {
    if targets == [] then []
    else
      var n := |targets| - 1;
      var t := targets[n];
      var ok := if t.kind == SUB_PI then Alive(peek(n), sent(n)) else t.ip in up && up[t.ip];
      Offline(targets[..n], peek, sent, up) + if ok then [] else [t.id]
  }

  function HanwhaAddresses(targets: seq<CheckTarget>): set<string> {
    set t | t in targets && t.kind == HANWHA :: t.ip
  }

  /** The probes made so far: one per cached address, the k-th one answered by `tcp(k)`. */
  ghost predicate Probed(cache: map<string, bool>, probes: seq<string>, tcp: nat -> bool) {
    && (forall ip :: ip in probes <==> ip in cache)
    && (forall i, j :: 0 <= i < j < |probes| ==> probes[i] != probes[j])
    && (forall k :: 0 <= k < |probes| ==> probes[k] in cache && cache[probes[k]] == tcp(k))
  }

  method LookUp(ip: string, cache: map<string, bool>, probes: seq<string>, tcp: nat -> bool)
    returns (cache': map<string, bool>, probes': seq<string>)
    requires Probed(cache, probes, tcp)
    ensures Probed(cache', probes', tcp) && cache'.Keys == cache.Keys + {ip}
    ensures forall k :: k in cache ==> cache'[k] == cache[k]
  {
    cache', probes' := cache, probes;
    if ip !in cache {
      cache', probes' := cache[ip := tcp(|probes|)], probes + [ip];
    }
  }

  method CheckSocket(peek: Peek, sent: Sent) returns (ok: bool)
    ensures ok <==> Alive(peek, sent)
  {
    ok := peek != EndOfStream && peek != PeekError;
    if ok {
      ok := sent != SendError;
    }
  }

  /** A Sub-Pi is checked on its socket, a Hanwha channel by its address, each address once. */
  method CheckOne(t: CheckTarget, peek: Peek, sent: Sent, cache: map<string, bool>, probes: seq<string>, tcp: nat -> bool)
    returns (ok: bool, cache': map<string, bool>, probes': seq<string>)
    requires Probed(cache, probes, tcp)
    ensures Probed(cache', probes', tcp) && cache'.Keys == cache.Keys + if t.kind == HANWHA then {t.ip} else {}
    ensures forall k :: k in cache ==> cache'[k] == cache[k]
    ensures ok == if t.kind == SUB_PI then Alive(peek, sent) else t.ip in cache' && cache'[t.ip]
  {
    hide Probed;
    cache', probes' := cache, probes;
    if t.kind == SUB_PI {
      ok := CheckSocket(peek, sent);
    } else {
      cache', probes' := LookUp(t.ip, cache, probes, tcp);
      ok := cache'[t.ip];
    }
  }

  /**
    * The second monitor phase over the targets looked at before discovery stops. `tcp(k)` is the
    * outcome of the k-th connection attempt to port 554.
    */
  method HealthCheck(targets: seq<CheckTarget>, peek: nat -> Peek, sent: nat -> Sent, tcp: nat -> bool, limit: nat)
    returns (wentOffline: seq<DeviceId>, cache: map<string, bool>, probes: seq<string>)
    ensures var n := if limit < |targets| then limit else |targets|;
            wentOffline == Offline(targets[..n], peek, sent, cache) && cache.Keys == HanwhaAddresses(targets[..n])
    ensures Probed(cache, probes, tcp)
    ensures forall id :: id in wentOffline <==>
              Died(if limit < |targets| then targets[..limit] else targets, peek, sent, cache, id)
  {
    wentOffline, cache, probes := [], map[], [];
    var i := 0;
    while i < |targets| && i < limit
      invariant 0 <= i <= |targets| && i <= limit
      invariant wentOffline == Offline(targets[..i], peek, sent, cache)
      invariant cache.Keys == HanwhaAddresses(targets[..i])
      invariant Probed(cache, probes, tcp)
    {
      hide Probed, Offline, HanwhaAddresses, Alive;
      var t := targets[i];
      assert targets[..i + 1] == targets[..i] + [t];
      AddressesAppend(targets[..i], t);
      ghost var before := cache;
      var ok;
      ok, cache, probes := CheckOne(t, peek(i), sent(i), cache, probes, tcp);
      OfflineExtends(targets[..i], peek, sent, before, cache);
      OfflineStep(targets[..i], t, peek, sent, cache);
      if !ok {
        wentOffline := wentOffline + [t.id];
      }
      i := i + 1;
    }
    hide Offline, HanwhaAddresses, Alive, Probed;
    OfflineExactly(targets[..i], peek, sent, cache);
    assert i == |targets| ==> targets[..i] == targets;
  }

  /**
    * A Sub-Pi is dead when its peer has closed the connection or one of the two calls fails for good; a call that
    * would only block says nothing against it. A camera is dead when nothing answers under its address.
    */
  predicate Dead(t: CheckTarget, peek: Peek, sent: Sent, up: map<string, bool>) {
    match t.kind
    case SUB_PI => peek == EndOfStream || peek == PeekError || sent == SendError
    case HANWHA => !(t.ip in up && up[t.ip])
  }

  /** The device was looked at and found dead. */
  ghost predicate Died(targets: seq<CheckTarget>, peek: nat -> Peek, sent: nat -> Sent, up: map<string, bool>, id: DeviceId) {
    exists i :: 0 <= i < |targets| && targets[i].id == id && Dead(targets[i], peek(i), sent(i), up)
  }

  lemma DiedNext(before: seq<CheckTarget>, t: CheckTarget, peek: nat -> Peek, sent: nat -> Sent, up: map<string, bool>, id: DeviceId)
    ensures Died(before + [t], peek, sent, up, id) <==>
              Died(before, peek, sent, up, id) || (t.id == id && Dead(t, peek(|before|), sent(|before|), up))
  {
    hide Dead;
    var all := before + [t];
    assert all[|before|] == t;
    assert forall i :: 0 <= i < |before| ==> all[i] == before[i];
  }

  /** The devices that fail their check are those found dead. */
  lemma {:induction false} OfflineExactly(targets: seq<CheckTarget>, peek: nat -> Peek, sent: nat -> Sent, up: map<string, bool>)
    ensures forall id :: id in Offline(targets, peek, sent, up) <==> Died(targets, peek, sent, up, id)
  {
    if targets != [] {
      var n := |targets| - 1;
      var before, t := targets[..n], targets[n];
      OfflineExactly(before, peek, sent, up);
      OfflineStep(before, t, peek, sent, up);
      hide Died, Offline;
      forall id
        ensures id in Offline(targets, peek, sent, up) <==> Died(targets, peek, sent, up, id)
      {
        DiedNext(before, t, peek, sent, up, id);
        assert before + [t] == targets;
      }
    }
  }

  lemma OfflineStep(before: seq<CheckTarget>, t: CheckTarget, peek: nat -> Peek, sent: nat -> Sent, up: map<string, bool>)
    ensures var ok := if t.kind == SUB_PI then Alive(peek(|before|), sent(|before|)) else t.ip in up && up[t.ip];
            Offline(before + [t], peek, sent, up) == Offline(before, peek, sent, up) + if ok then [] else [t.id]
  {
    assert (before + [t])[..|before|] == before;
  }

  lemma AddressesAppend(targets: seq<CheckTarget>, t: CheckTarget)
    ensures HanwhaAddresses(targets + [t]) == HanwhaAddresses(targets) + if t.kind == HANWHA then {t.ip} else {}
  {
    assert forall u :: u in targets + [t] <==> u in targets || u == t;
  }

  lemma {:induction false} OfflineExtends(targets: seq<CheckTarget>, peek: nat -> Peek, sent: nat -> Sent,
                                          up: map<string, bool>, more: map<string, bool>)
    requires HanwhaAddresses(targets) <= up.Keys <= more.Keys && forall k :: k in up ==> more[k] == up[k]
    ensures Offline(targets, peek, sent, more) == Offline(targets, peek, sent, up)
  {
    if targets != [] {
      var n := |targets| - 1;
      assert targets == targets[..n] + [targets[n]];
      AddressesAppend(targets[..n], targets[n]);
      OfflineExtends(targets[..n], peek, sent, up, more);
    }
  }

  /** All channels of one address get the same verdict. */
  lemma {:induction false} SameAddressSameVerdict(targets: seq<CheckTarget>, peek: nat -> Peek, sent: nat -> Sent,
                                                  up: map<string, bool>, t: CheckTarget)
    requires t in targets && t.kind == HANWHA
    requires forall i, j :: 0 <= i < j < |targets| ==> targets[i].id != targets[j].id
    ensures t.id in Offline(targets, peek, sent, up) <==> !(t.ip in up && up[t.ip])
  {
    var n := |targets| - 1;
    OfflineAreTargets(targets[..n], peek, sent, up);
    assert targets == targets[..n] + [targets[n]];
    if t != targets[n] {
      SameAddressSameVerdict(targets[..n], peek, sent, up, t);
    }
  }

  lemma {:induction false} OfflineAreTargets(targets: seq<CheckTarget>, peek: nat -> Peek, sent: nat -> Sent, up: map<string, bool>)
    ensures forall id <- Offline(targets, peek, sent, up) :: exists t :: t in targets && t.id == id
  {
    if targets != [] {
      var n := |targets| - 1;
      OfflineAreTargets(targets[..n], peek, sent, up);
      assert targets == targets[..n] + [targets[n]];
      assert targets[n] in targets;
    }
  }

  function StatusEntry(devices: Registry, status: map<DeviceId, Json>, id: DeviceId): Option<Json>
    requires id in status
  {
    if id in devices then Put(status[id], "ip", Str(devices[id].ip)) else Some(status[id])
  }

  /** A device report as the client server gets it: the address of the device is in it, nothing else is changed. */
  lemma StatusEntryExactly(devices: Registry, status: map<DeviceId, Json>, id: DeviceId, name: string)
    requires id in status
    ensures var e := StatusEntry(devices, status, id);
            && (id !in devices ==> e == Some(status[id]))
            && (id in devices ==> (e.Some? <==> status[id].Null? || status[id].Object?))
            && (id in devices && e.Some? ==>
                  && e.value.Object? && "ip" in e.value.fields && e.value.fields["ip"] == Str(devices[id].ip)
                  && (name != "ip" ==>
                        (name in e.value.fields <==> status[id].Object? && name in status[id].fields)
                        && (name in e.value.fields ==> e.value.fields[name] == status[id].fields[name])))
  {
  }

  class Manager {
    var devices: Registry
    var status: map<DeviceId, Json>

    constructor ()
      ensures devices == map[] && status == map[]
    {
      devices, status := map[], map[];
    }

    method IsRegistered(id: DeviceId) returns (yes: bool)
      ensures yes <==> Registered(devices, id)
      ensures yes <==> id in devices && devices[id].online
    {
      yes := false;
      if id in devices {
        yes := devices[id].online;
      }
    }

    method OnSubPiFound(info: DeviceInfo) returns (changed: Option<DeviceInfo>)
      modifies this`devices
      ensures Found(devices, changed) == FoundSubPi(old(devices), info)
      ensures BroughtOnline(old(devices), info, devices, changed)
      ensures info.id in old(devices) && !old(devices)[info.id].online ==>
                SameSubPi(old(devices)[info.id], info, devices[info.id])
    {
      changed := None;
      if info.id in devices {
        var existing := devices[info.id];
        if !existing.online {
          existing := existing.(online := true);
          existing := existing.(fd := info.fd);
          existing := existing.(port := info.port);
          devices := devices[info.id := existing];
          changed := Some(existing);
        }
      } else {
        devices := devices[info.id := info];
        changed := Some(info);
      }
    }

    method OnHanwhaFound(info: DeviceInfo) returns (changed: Option<DeviceInfo>)
      modifies this`devices
      ensures Found(devices, changed) == FoundHanwha(old(devices), info)
      ensures BroughtOnline(old(devices), info, devices, changed)
      ensures info.id in old(devices) ==> SameCamera(old(devices)[info.id], devices[info.id])
    {
      changed := None;
      if info.id in devices {
        var existing := devices[info.id];
        if !existing.online {
          existing := existing.(online := true);
          devices := devices[info.id := existing];
          changed := Some(existing);
        }
      } else {
        devices := devices[info.id := info];
        changed := Some(info);
      }
    }

    method OnAvailable(id: DeviceId, report: Json)
      modifies this`status
      ensures status == old(status)[id := report]
    {
      status := status[id := report];
    }

    /** First monitor phase. The source walks the map in key order; any order will do. */
    method Snapshot() returns (targets: seq<CheckTarget>)
      ensures IsSnapshot(devices, targets)
      ensures forall t <- targets :: t.id in devices && t.ip == devices[t.id].ip && t.kind == devices[t.id].kind
                                     && t.fd == devices[t.id].fd
    {
      targets := [];
      var left := devices.Keys;
      while left != {}
        invariant left <= devices.Keys
        invariant forall t <- targets :: t.id in devices && t.id !in left && devices[t.id].online
                                         && t == TargetOf(devices[t.id], t.id)
        invariant forall i, j :: 0 <= i < j < |targets| ==> targets[i].id != targets[j].id
        invariant forall id :: id in devices && id !in left && devices[id].online ==> TargetOf(devices[id], id) in targets
        decreases left
      {
        var id :| id in left;
        left := left - {id};
        var info := devices[id];
        if info.online {
          targets := targets + [CheckTarget(id, info.ip, info.kind, info.fd)];
        }
      }
    }

    /** Third monitor phase; the caller closes nothing else. */
    method ReapOffline(ids: seq<DeviceId>) returns (removed: seq<DeviceId>, closed: seq<int>)
      modifies this`devices
      ensures Reaped(devices, removed, closed) == Reap(old(devices), ids)
      ensures TakenOffline(old(devices), ids, devices) && Reported(old(devices), ids, removed, closed)
    {
      removed, closed := [], [];
      var i := 0;
      while i < |ids|
        invariant 0 <= i <= |ids|
        invariant Reaped(devices, removed, closed) == Reap(old(devices), ids[..i])
      {
        assert ids[..i + 1][..i] == ids[..i];
        var id := ids[i];
        i := i + 1;
        if id !in devices {
          continue;
        }
        var info := devices[id];
        if !info.online {
          continue;
        }
        info := info.(online := false);
        if info.kind == SUB_PI && info.fd != -1 {
          closed := closed + [info.fd];
          info := info.(fd := -1);
        }
        devices := devices[id := info];
        removed := removed + [id];
      }
      assert ids[..i] == ids;
      ReapMeaning(old(devices), ids);
    }

    /** None if a report is not an object, which raises a type error. */
    method StatusList() returns (list: Option<seq<Json>>, order: seq<DeviceId>)
      ensures list.Some? <==> forall id :: id in status ==> StatusEntry(devices, status, id).Some?
      ensures list.Some? ==>
                && (forall id :: id in order <==> id in status)
                && (forall i, j :: 0 <= i < j < |order| ==> order[i] != order[j])
                && |list.value| == |order|
                && forall i :: 0 <= i < |order| ==> StatusEntry(devices, status, order[i]) == Some(list.value[i])
    {
      var result: seq<Json> := [];
      order := [];
      var left := status.Keys;
      while left != {}
        invariant left <= status.Keys
        invariant forall id :: id in order <==> id in status && id !in left
        invariant forall i, j :: 0 <= i < j < |order| ==> order[i] != order[j]
        invariant |result| == |order|
        invariant forall i :: 0 <= i < |order| ==> StatusEntry(devices, status, order[i]) == Some(result[i])
        decreases left
      {
        var id :| id in left;
        left := left - {id};
        var entry := Some(status[id]);
        if id in devices {
          entry := Put(status[id], "ip", Str(devices[id].ip));
        }
        if entry.None? {
          return None, order;
        }
        result, order := result + [entry.value], order + [id];
      }
      forall id | id in status
        ensures StatusEntry(devices, status, id).Some?
      {
        assert id in order;
      }
      list := Some(result);
    }

    /** The socket for motor commands: some online Sub-Pi with this address, or -1. */
    method CommandSocket(ip: string) returns (fd: int)
      ensures (exists id :: id in devices && Commands(devices[id], ip) && devices[id].fd == fd)
              || (fd == -1 && forall id :: id in devices ==> !Commands(devices[id], ip))
      ensures forall id :: id in devices && devices[id].kind == SUB_PI && devices[id].online && devices[id].ip == ip ==>
                exists other :: other in devices && devices[other].kind == SUB_PI && devices[other].online
                                && devices[other].ip == ip && devices[other].fd == fd
    {
      var left := devices.Keys;
      while left != {}
        invariant left <= devices.Keys
        invariant forall id :: id in devices && id !in left ==> !Commands(devices[id], ip)
        decreases left
      {
        var id :| id in left;
        left := left - {id};
        var info := devices[id];
        if info.kind == SUB_PI && info.online && info.ip == ip {
          return info.fd;
        }
      }
      return -1;
    }
  }

  predicate Commands(info: DeviceInfo, ip: string) {
    info.kind == SUB_PI && info.online && info.ip == ip
  }
}
