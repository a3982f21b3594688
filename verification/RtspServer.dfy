/** The relay mounts: path "/" + id, so one entry per device id, and the UDP port it listens on. */
module RtspServer {
  import opened Common

  /** None until the server has started: there is no table to change yet. */
  type Mounts = Option<map<DeviceId, int>>

  function AddRelay(m: Mounts, info: DeviceInfo): Mounts {
    if m.None? || info.kind != SUB_PI then m else Some(m.value[info.id := info.port])
  }

  function RemoveRelay(m: Mounts, id: DeviceId): Mounts {
    if m.None? then m else Some(m.value - {id})
  }

  class Server {
    var mounts: Mounts

    constructor ()
      ensures mounts == None
    {
      mounts := None;
    }

    method Start()
      modifies this
      ensures mounts == if old(mounts).None? then Some(map[]) else old(mounts)
    {
      if mounts.None? {
        mounts := Some(map[]);
      }
    }

    method RemoveRelayPath(id: DeviceId)
      modifies this
      ensures mounts == RemoveRelay(old(mounts), id)
    {
      if mounts.None? {
        return;
      }
      mounts := Some(mounts.value - {id});
    }

    method AddRelayPath(info: DeviceInfo)
      modifies this
      ensures mounts == AddRelay(old(mounts), info)
    {
      if mounts.None? {
        return;
      }
      if info.kind != SUB_PI {
        return;
      }
      RemoveRelayPath(info.id);
      mounts := Some(mounts.value[info.id := info.port]);
      assert mounts.value == old(mounts).value[info.id := info.port];
    }
  }
}
