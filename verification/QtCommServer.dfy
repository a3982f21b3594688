/** The table of Qt clients, their roles, and the broadcasts. */
module QtCommServer {
  import opened Common
  import opened Json

  datatype Packet = Message(kind: byte, body: Json) | Picture(meta: Json, jpeg: seq<byte>)

  /** An attempt to send; whether it succeeds changes nothing here. */
  datatype Delivery = Delivery(fd: int, packet: Packet)

  /** Walking over the clients, sending each what is chosen for it. */
  function Addressed(fds: seq<int>, choose: int -> Option<Packet>): seq<Delivery> {
    if fds == [] then []
    else
      var n := |fds| - 1;
      Addressed(fds[..n], choose) + if choose(fds[n]).Some? then [Delivery(fds[n], choose(fds[n]).value)] else []
  }

  function ToAll(packet: Packet): int -> Option<Packet> {
    fd => Some(packet)
  }

  predicate Meets(role: string, minRole: string) {
    || (minRole == "user" && (role == "user" || role == "admin"))
    || (minRole == "admin" && role == "admin")
  }

  function ToRole(roles: map<int, string>, packet: Packet, minRole: string): int -> Option<Packet> {
    fd => if fd in roles && Meets(roles[fd], minRole) then Some(packet) else None
  }

  function ByRole(roles: map<int, string>, forUser: Packet, forAdmin: Packet): int -> Option<Packet> {
    fd =>
      if fd !in roles then None
      else if roles[fd] == "admin" then Some(forAdmin)
      else if roles[fd] == "user" then Some(forUser)
      else None
  }

  function ToTagged(roles: map<int, string>, packet: Packet): int -> Option<Packet> {
    fd => if fd in roles && roles[fd] != "" then Some(packet) else None
  }

  class Server {
    var fds: seq<int>
    var roles: map<int, string>
    var sent: seq<Delivery>

    constructor ()
      ensures fds == [] && roles == map[] && sent == []
    {
      fds, roles, sent := [], map[], [];
    }

    method Register(fd: int)
      modifies this`fds
      ensures fds == old(fds) + [fd]
    {
      fds := fds + [fd];
    }

    /** What a handler does to the table when it ends. */
    method Deregister(fd: int)
      modifies this`fds, this`roles
      ensures fds == Without(old(fds), fd) && roles == old(roles) - {fd}
    {
      fds := Without(fds, fd);
      roles := roles - {fd};
    }

    method SetClientRole(fd: int, role: string)
      modifies this`roles
      ensures roles == old(roles)[fd := role]
    {
      roles := roles[fd := role];
    }

    method SendMessage(fd: int, kind: byte, body: Json)
      modifies this`sent
      ensures sent == old(sent) + [Delivery(fd, Message(kind, body))]
    {
      sent := sent + [Delivery(fd, Message(kind, body))];
    }

    method SendImageMessage(fd: int, meta: Json, jpeg: seq<byte>)
      modifies this`sent
      ensures sent == old(sent) + [Delivery(fd, Picture(meta, jpeg))]
    {
      sent := sent + [Delivery(fd, Picture(meta, jpeg))];
    }

    method Broadcast(kind: byte, body: Json)
      modifies this`sent
      ensures sent == old(sent) + Addressed(fds, ToAll(Message(kind, body)))
    {
      for i := 0 to |fds|
        invariant sent == old(sent) + Addressed(fds[..i], ToAll(Message(kind, body)))
      {
        assert fds[..i + 1][..i] == fds[..i];
        SendMessage(fds[i], kind, body);
      }
      assert fds[..|fds|] == fds;
    }

    method BroadcastToRole(kind: byte, body: Json, minRole: string)
      modifies this`sent
      ensures sent == old(sent) + Addressed(fds, ToRole(roles, Message(kind, body), minRole))
    {
      for i := 0 to |fds|
        invariant sent == old(sent) + Addressed(fds[..i], ToRole(roles, Message(kind, body), minRole))
      {
        assert fds[..i + 1][..i] == fds[..i];
        var fd := fds[i];
        if fd in roles && roles[fd] != "" {
          var role := roles[fd];
          if minRole == "user" && (role == "user" || role == "admin") {
            SendMessage(fd, kind, body);
          } else if minRole == "admin" && role == "admin" {
            SendMessage(fd, kind, body);
          }
        }
      }
      assert fds[..|fds|] == fds;
    }

    method BroadcastByRole(kind: byte, userBody: Json, adminBody: Json)
      modifies this`sent
      ensures sent == old(sent) + Addressed(fds, ByRole(roles, Message(kind, userBody), Message(kind, adminBody)))
    {
      for i := 0 to |fds|
        invariant sent ==
                  old(sent) + Addressed(fds[..i], ByRole(roles, Message(kind, userBody), Message(kind, adminBody)))
      {
        assert fds[..i + 1][..i] == fds[..i];
        var fd := fds[i];
        if fd in roles && roles[fd] != "" {
          if roles[fd] == "admin" {
            SendMessage(fd, kind, adminBody);
          } else if roles[fd] == "user" {
            SendMessage(fd, kind, userBody);
          }
        }
      }
      assert fds[..|fds|] == fds;
    }

    method BroadcastImage(meta: Json, jpeg: seq<byte>)
      modifies this`sent
      ensures sent == old(sent) + Addressed(fds, ToTagged(roles, Picture(meta, jpeg)))
    {
      for i := 0 to |fds|
        invariant sent == old(sent) + Addressed(fds[..i], ToTagged(roles, Picture(meta, jpeg)))
      {
        assert fds[..i + 1][..i] == fds[..i];
        var fd := fds[i];
        if fd in roles && roles[fd] != "" {
          SendImageMessage(fd, meta, jpeg);
        }
      }
      assert fds[..|fds|] == fds;
    }
  }

  /** What one descriptor is sent. */
  function For(sent: seq<Delivery>, fd: int): seq<Packet> {
    if sent == [] then []
    else For(sent[..|sent| - 1], fd) + if sent[|sent| - 1].fd == fd then [sent[|sent| - 1].packet] else []
  }

  function Repeat(packet: Packet, n: nat): seq<Packet> {
    if n == 0 then [] else Repeat(packet, n - 1) + [packet]
  }

  /** A broadcast sends to a descriptor as often as it is registered, always what was chosen for it. */
  lemma {:induction false} SentAsRegistered(fds: seq<int>, choose: int -> Option<Packet>, fd: int)
    ensures For(Addressed(fds, choose), fd) ==
            if choose(fd).Some? then Repeat(choose(fd).value, Count(fds, fd)) else []
  {
    if fds != [] {
      var n := |fds| - 1;
      SentAsRegistered(fds[..n], choose, fd);
      if choose(fds[n]).Some? {
        var before, last := Addressed(fds[..n], choose), Delivery(fds[n], choose(fds[n]).value);
        assert (before + [last])[..|before|] == before;
      } else {
        assert Addressed(fds, choose) == Addressed(fds[..n], choose);
      }
    }
  }

  lemma {:induction false} CountDistinct(fds: seq<int>, fd: int)
    requires Distinct(fds)
    ensures Count(fds, fd) == if fd in fds then 1 else 0
  {
    if fds != [] {
      var n := |fds| - 1;
      CountDistinct(fds[..n], fd);
      assert fds == fds[..n] + [fds[n]];
      if fd in fds[..n] {
        var i :| 0 <= i < n && fds[i] == fd;
        assert fds[n] != fd;
      }
    }
  }

  /** With every descriptor registered once, a broadcast reaches each chosen client exactly once, and nobody else. */
  lemma ReachedOnce(fds: seq<int>, choose: int -> Option<Packet>, fd: int)
    requires Distinct(fds)
    ensures For(Addressed(fds, choose), fd) ==
            if fd in fds && choose(fd).Some? then [choose(fd).value] else []
  {
    SentAsRegistered(fds, choose, fd);
    CountDistinct(fds, fd);
    if choose(fd).Some? {
      assert Repeat(choose(fd).value, 1) == Repeat(choose(fd).value, 0) + [choose(fd).value];
    }
  }
}
