/** Exact transfers over a kernel that moves as many bytes per call as it likes. */
module NetUtil {
  import opened Common

  /** How waiting for data on a socket can end. */
  datatype Select = Failed | TimedOut | Ready

  /** How many of the waits report data. */
  function ReadyCount(selects: seq<Select>): nat {
    if selects == [] then 0 else (if selects[0] == Ready then 1 else 0) + ReadyCount(selects[1..])
  }

  function Min(a: int, b: int): int { if a < b then a else b }

  /**
    * One connected socket as the kernel shows it: `incoming` is what will still be delivered
    * before the stream ends or fails, `budget` how much will still be accepted, and `chunk(k)`
    * how many bytes the kernel would like to move on call number k.
    */
  class Socket {
    var incoming: seq<byte>
    var outgoing: seq<byte>
    var budget: nat
    var calls: nat
    const chunk: nat -> int

    constructor (incoming: seq<byte>, budget: nat, chunk: nat -> int)
      ensures this.incoming == incoming && outgoing == [] && this.budget == budget && this.chunk == chunk
    {
      this.incoming, outgoing, this.budget, calls := incoming, [], budget, 0;
      this.chunk := chunk;
    }

    method Recv(buf: array<byte>, at: nat, max: nat) returns (n: int)
      requires 0 < max && at + max <= buf.Length
      modifies this`incoming, this`calls, buf
      ensures n <= 0 <==> old(incoming) == []
      ensures n <= 0 ==> incoming == old(incoming) && buf[..] == old(buf[..])
      ensures n > 0 ==> n <= max && n <= |old(incoming)|
      ensures n > 0 ==> incoming == old(incoming)[n..]
      ensures n > 0 ==> buf[..] == old(buf[..at]) + old(incoming)[..n] + old(buf[at + n..])
    {
      var wish := chunk(calls);
      calls := calls + 1;
      if |incoming| == 0 {
        return Min(wish, 0);
      }
      n := Min(if wish < 1 then 1 else wish, Min(max, |incoming|));
      var data := incoming;
      forall i | 0 <= i < n {
        buf[at + i] := data[i];
      }
      incoming := incoming[n..];
    }

    method Send(data: seq<byte>) returns (n: int)
      requires data != []
      modifies this`outgoing, this`budget, this`calls
      ensures n <= 0 <==> old(budget) == 0
      ensures n <= 0 ==> outgoing == old(outgoing) && budget == 0
      ensures n > 0 ==> n <= |data| && n <= old(budget)
      ensures n > 0 ==> outgoing == old(outgoing) + data[..n] && budget == old(budget) - n
    {
      var wish := chunk(calls);
      calls := calls + 1;
      if budget == 0 {
        return Min(wish, 0);
      }
      n := Min(if wish < 1 then 1 else wish, Min(|data|, budget));
      outgoing := outgoing + data[..n];
      budget := budget - n;
    }
  }

  /** Succeeds exactly when the kernel still accepts all of `data`; otherwise a strict prefix went out. */
  method SendExact(sock: Socket, data: seq<byte>) returns (ok: bool)
    modifies sock`outgoing, sock`budget, sock`calls
    ensures ok <==> |data| <= old(sock.budget)
    ensures ok ==> sock.outgoing == old(sock.outgoing) + data && sock.budget == old(sock.budget) - |data|
    ensures !ok ==> sock.outgoing == old(sock.outgoing) + data[..old(sock.budget)] && sock.budget == 0
  {
    var sent := 0;
    while sent < |data|
      invariant 0 <= sent <= |data| && sent <= old(sock.budget)
      invariant sock.budget == old(sock.budget) - sent
      invariant sock.outgoing == old(sock.outgoing) + data[..sent]
    {
      var n := sock.Send(data[sent..]);
      if n <= 0 {
        return false;
      }
      assert data[..sent] + data[sent..][..n] == data[..sent + n];
      sent := sent + n;
    }
    assert data[..sent] == data;
    return true;
  }

  /** Succeeds exactly when `len` bytes are still to come; then they are in `buf` in order. */
  method RecvExact(sock: Socket, buf: array<byte>, len: nat) returns (ok: bool)
    requires len <= buf.Length
    modifies sock`incoming, sock`calls, buf
    ensures ok <==> len <= |old(sock.incoming)|
    ensures ok ==> buf[..len] == old(sock.incoming)[..len] && sock.incoming == old(sock.incoming)[len..]
    ensures !ok ==> sock.incoming == [] && buf[..|old(sock.incoming)|] == old(sock.incoming)
    ensures buf[len..] == old(buf[len..])
  {
    ghost var all := sock.incoming;
    var received := 0;
    while received < len
      invariant 0 <= received <= len && received <= |all|
      invariant sock.incoming == all[received..]
      invariant buf[..received] == all[..received]
      invariant buf[len..] == old(buf[len..])
    {
      var n := sock.Recv(buf, received, len - received);
      if n <= 0 {
        return false;
      }
      received := received + n;
    }
    return true;
  }
}
