/** The beacon thread's own state: port counter and listener threads. */
module SubPiManager {
  import opened Common

  type Thread = nat

  const FIRST_PORT := 15001

  /** The record of a Sub-Pi session: the port is the one named in its START_STREAM message. */
  function SessionInfo(ip: string, port: int, fd: int): DeviceInfo {
    DeviceInfo(SubPi(ip), ip, SUB_PI, true, "", port, fd)
  }

  function StartMessage(port: nat): string {
    "START_STREAM:" + Decimal(port)
  }

  /** What the Sub-Pi reads after the colon is the port. */
  lemma PortInMessage(port: nat)
    ensures var m := StartMessage(port);
            && |m| > 13 && m[..13] == "START_STREAM:"
            && (forall i :: 13 <= i < |m| ==> '0' <= m[i] <= '9') && Value(m[13..]) == port
  {
    DecimalValue(port);
    hide Decimal;
    var m := StartMessage(port);
    assert m[13..] == Decimal(port);
    assert forall i :: 13 <= i < |m| ==> m[i] == Decimal(port)[i - 13];
  }

  class Manager {
    var nextPort: nat
    var listeners: map<DeviceId, Thread>
    var finished: set<DeviceId>
    var joined: seq<Thread>

    constructor ()
      ensures nextPort == FIRST_PORT && listeners == map[] && finished == {} && joined == []
    {
      nextPort, listeners, finished, joined := FIRST_PORT, map[], {}, [];
    }

    /**
      * A beacon was heard. `connect` is the descriptor of the command connection, None if it
      * failed; a port is used up only by a successful handshake.
      */
    method Handshake(ip: string, registered: bool, connect: Option<int>)
      returns (session: Option<DeviceInfo>, message: string)
      modifies this`nextPort
      ensures session.Some? <==> !registered && connect.Some?
      ensures nextPort == old(nextPort) + if session.Some? then 1 else 0
      ensures session.Some? ==> session.value == SessionInfo(ip, old(nextPort), connect.value)
      ensures session.Some? ==> message == StartMessage(old(nextPort))
    {
      session, message := None, "";
      if registered {
        return;
      }
      if connect.None? {
        return;
      }
      message := "START_STREAM:" + Decimal(nextPort);
      session := Some(DeviceInfo(SubPi(ip), ip, SUB_PI, true, "", nextPort, connect.value));
      nextPort := nextPort + 1;
    }

    /** Takes the finished list and joins what it names; every join ends one entry of the thread map. */
    method CleanupFinishedThreads() returns (order: seq<DeviceId>)
      modifies this`finished, this`listeners, this`joined
      ensures finished == {}
      ensures listeners == old(listeners) - old(finished)
      ensures (forall id :: id in order <==> id in old(finished) && id in old(listeners))
      ensures forall i, j :: 0 <= i < j < |order| ==> order[i] != order[j]
      ensures joined == old(joined) + seq(|order|, i requires 0 <= i < |order| =>
                          if order[i] in old(listeners) then old(listeners)[order[i]] else 0)
    {
      var todo := finished;
      finished := {};
      order := [];
      ghost var all, before, was := todo, listeners, joined;
      while todo != {}
        invariant todo <= all && finished == {}
        invariant listeners == before - (all - todo)
        invariant forall id :: id in order <==> id in all && id !in todo && id in before
        invariant forall i, j :: 0 <= i < j < |order| ==> order[i] != order[j]
        invariant joined == was + seq(|order|, i requires 0 <= i < |order| =>
                              if order[i] in before then before[order[i]] else 0)
        decreases todo
      {
        var id :| id in todo;
        todo := todo - {id};
        if id in listeners {
          joined := joined + [listeners[id]];
          listeners := listeners - {id};
          order := order + [id];
        }
      }
    }

    /** Joins the old listener of a device, if there is one, and installs the new one. */
    method ReplaceListener(id: DeviceId, thread: Thread)
      modifies this`listeners, this`joined
      ensures listeners == old(listeners)[id := thread]
      ensures joined == old(joined) + if id in old(listeners) then [old(listeners)[id]] else []
    {
      if id in listeners {
        joined := joined + [listeners[id]];
        listeners := listeners - {id};
      }
      listeners := listeners[id := thread];
    }
  }
}
