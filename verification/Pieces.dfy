/** What a socket has accepted, by the sends it came from. */
module Pieces {
  import opened Common

  /** Consecutive bytes of one send: those from `from` to `to` of all its bytes. */
  datatype Piece<O> = Piece(origin: O, bytes: seq<byte>, from: nat, to: nat)

  /**
    * What is on a wire once `n` more bytes of a send have been accepted, `from` of which have gone already. `on` if
    * they went to this wire; the piece grows if nothing has come in between.
    */
  function Put<O(==)>(ps: seq<Piece<O>>, origin: O, bytes: seq<byte>, from: nat, n: nat, on: bool): seq<Piece<O>> {
    if on && ps != [] && ps[|ps| - 1].origin == origin
    then ps[..|ps| - 1] + [ps[|ps| - 1].(to := from + n)]
    else ps + [Piece(origin, bytes, from, from + n)]
  }

  function BytesOf<O>(piece: Piece<O>): seq<byte> {
    if piece.from <= piece.to <= |piece.bytes| then piece.bytes[piece.from..piece.to] else []
  }

  function Bytes<O>(ps: seq<Piece<O>>): seq<byte> {
    if ps == [] then [] else Bytes(ps[..|ps| - 1]) + BytesOf(ps[|ps| - 1])
  }

  predicate Complete<O>(piece: Piece<O>) {
    piece.from == 0 && piece.to == |piece.bytes|
  }

  /** Whole sends one after the other, the last of which may not be all there. */
  predicate Whole<O>(ps: seq<Piece<O>>) {
    && (forall i :: 0 <= i < |ps| - 1 ==> Complete(ps[i]))
    && (ps != [] ==> ps[|ps| - 1].from == 0 && ps[|ps| - 1].to <= |ps[|ps| - 1].bytes|)
  }

  /** Some send begins in its middle, or breaks off before the next one. */
  ghost predicate Torn<O>(ps: seq<Piece<O>>) {
    exists i :: 0 <= i < |ps| && (ps[i].from > 0 || (i < |ps| - 1 && !Complete(ps[i])))
  }

  lemma WholeIsNotTorn<O>(ps: seq<Piece<O>>)
    ensures Torn(ps) ==> !Whole(ps)
  {
  }

  /** A chunk of the send that is in progress, or the first chunk of a new one, keeps a wire whole. */
  lemma PutWhole<O>(ps: seq<Piece<O>>, origin: O, bytes: seq<byte>, from: nat, n: nat, on: bool)
    requires Whole(ps) && 0 < n && from + n <= |bytes| && (on <==> from > 0)
    requires if from == 0 then ps != [] ==> Complete(ps[|ps| - 1])
             else ps != [] && ps[|ps| - 1] == Piece(origin, bytes, 0, from)
    ensures var qs := Put(ps, origin, bytes, from, n, on);
            Whole(qs) && qs != [] && qs[|qs| - 1] == Piece(origin, bytes, 0, from + n)
  {
  }

  /** A chunk in the middle of another send leaves a torn one behind. */
  lemma PutTorn<O>(ps: seq<Piece<O>>, origin: O, bytes: seq<byte>, from: nat, n: nat, on: bool)
    requires ps != [] && !Complete(ps[|ps| - 1]) && ps[|ps| - 1].origin != origin
    ensures Torn(Put(ps, origin, bytes, from, n, on))
  {
    var qs := Put(ps, origin, bytes, from, n, on);
    assert qs[|ps| - 1] == ps[|ps| - 1];
  }

  /** So does the rest of a send that began on another wire. */
  lemma PutStray<O>(ps: seq<Piece<O>>, origin: O, bytes: seq<byte>, from: nat, n: nat)
    requires from > 0
    ensures Torn(Put(ps, origin, bytes, from, n, false))
  {
    var qs := Put(ps, origin, bytes, from, n, false);
    assert qs[|ps|].from > 0;
  }

  lemma StaysTorn<O>(ps: seq<Piece<O>>, origin: O, bytes: seq<byte>, from: nat, n: nat, on: bool)
    requires Torn(ps)
    ensures Torn(Put(ps, origin, bytes, from, n, on))
  {
    var qs := Put(ps, origin, bytes, from, n, on);
    var i :| 0 <= i < |ps| && (ps[i].from > 0 || (i < |ps| - 1 && !Complete(ps[i])));
    assert qs[i].from == ps[i].from;
    assert i < |ps| - 1 ==> qs[i] == ps[i];
  }

  /** All bytes of the sends that begin on a wire. */
  function Started<O>(ps: seq<Piece<O>>): seq<byte> {
    if ps == [] then [] else Started(ps[..|ps| - 1]) + if ps[|ps| - 1].from == 0 then ps[|ps| - 1].bytes else []
  }

  lemma WholeInit<O>(ps: seq<Piece<O>>)
    requires Whole(ps) && ps != []
    ensures var init := ps[..|ps| - 1]; Whole(init) && (init != [] ==> Complete(init[|init| - 1]))
  {
    var init := ps[..|ps| - 1];
    assert forall i :: 0 <= i < |init| ==> init[i] == ps[i];
  }

  /** The bytes of a whole wire: every send but the last in full, and as much of that as is there. */
  lemma {:induction false} WholeBytes<O>(ps: seq<Piece<O>>)
    requires Whole(ps)
    ensures Bytes(ps) <= Started(ps)
    ensures ps == [] || Complete(ps[|ps| - 1]) ==> Bytes(ps) == Started(ps)
  {
    if ps != [] {
      var init, last := ps[..|ps| - 1], ps[|ps| - 1];
      WholeInit(ps);
      WholeBytes(init);
      assert BytesOf(last) <= last.bytes && (Complete(last) ==> BytesOf(last) == last.bytes);
      hide Whole, BytesOf, Complete;
      assert Bytes(ps) == Bytes(init) + BytesOf(last);
    }
  }

  /** The bytes of one send, in the order in which they were accepted. */
  function Of<O(==)>(ps: seq<Piece<O>>, origin: O): seq<byte> {
    if ps == [] then []
    else Of(ps[..|ps| - 1], origin) + if ps[|ps| - 1].origin == origin then BytesOf(ps[|ps| - 1]) else []
  }

  lemma OfOneMore<O>(ps: seq<Piece<O>>, q: Piece<O>, other: O)
    ensures Of(ps + [q], other) == Of(ps, other) + if q.origin == other then BytesOf(q) else []
    ensures Bytes(ps + [q]) == Bytes(ps) + BytesOf(q)
  {
    assert (ps + [q])[..|ps|] == ps;
  }

  lemma GrownBytes<O>(q: Piece<O>, n: nat)
    requires q.from <= q.to && q.to + n <= |q.bytes|
    ensures BytesOf(q.(to := q.to + n)) == BytesOf(q) + q.bytes[q.to..q.to + n]
  {
  }

  lemma GrownOf<O>(init: seq<Piece<O>>, q: Piece<O>, n: nat, other: O)
    requires q.from <= q.to && q.to + n <= |q.bytes|
    ensures Of(init + [q.(to := q.to + n)], other) ==
            Of(init + [q], other) + if q.origin == other then q.bytes[q.to..q.to + n] else []
  {
    OfOneMore(init, q, other);
    OfOneMore(init, q.(to := q.to + n), other);
    GrownBytes(q, n);
    hide Of, BytesOf;
    if q.origin == other {
      ConcatAssociative(Of(init, other), BytesOf(q), q.bytes[q.to..q.to + n]);
    } else {
      assert Of(init + [q], other) + [] == Of(init + [q], other);
    }
  }

  lemma PutGrows<O>(ps: seq<Piece<O>>, origin: O, from: nat, n: nat, other: O)
    requires ps != [] && ps[|ps| - 1].origin == origin
    requires var q := ps[|ps| - 1]; q.from <= q.to == from && from + n <= |q.bytes|
    ensures var q := ps[|ps| - 1];
            Of(Put(ps, origin, q.bytes, from, n, true), other) == Of(ps, other) + if other == origin then q.bytes[from..from + n] else []
  {
    GrownOf(ps[..|ps| - 1], ps[|ps| - 1], n, other);
    assert ps[..|ps| - 1] + [ps[|ps| - 1]] == ps;
  }

  /** A chunk that does not continue the last piece is a piece of its own. */
  lemma PutIsNew<O>(ps: seq<Piece<O>>, origin: O, bytes: seq<byte>, from: nat, n: nat, on: bool)
    requires from + n <= |bytes| && !(on && ps != [] && ps[|ps| - 1].origin == origin)
    ensures Put(ps, origin, bytes, from, n, on) == ps + [Piece(origin, bytes, from, from + n)]
    ensures BytesOf(Piece(origin, bytes, from, from + n)) == bytes[from..from + n]
  {
  }

  lemma PutAdds<O>(ps: seq<Piece<O>>, origin: O, bytes: seq<byte>, from: nat, n: nat, on: bool, other: O)
    requires from + n <= |bytes| && !(on && ps != [] && ps[|ps| - 1].origin == origin)
    ensures Of(Put(ps, origin, bytes, from, n, on), other) == Of(ps, other) + if other == origin then bytes[from..from + n] else []
  {
    hide Put, BytesOf, Of;
    PutIsNew(ps, origin, bytes, from, n, on);
    OfOneMore(ps, Piece(origin, bytes, from, from + n), other);
  }

  /** A piece that grows ends where the chunk begins. */
  predicate Follows<O(==)>(ps: seq<Piece<O>>, origin: O, bytes: seq<byte>, from: nat, on: bool) {
    on && ps != [] && ps[|ps| - 1].origin == origin ==>
      ps[|ps| - 1].bytes == bytes && ps[|ps| - 1].from <= ps[|ps| - 1].to == from
  }

  /** A chunk adds its bytes to those of its send and to no other. */
  lemma PutOf<O>(ps: seq<Piece<O>>, origin: O, bytes: seq<byte>, from: nat, n: nat, on: bool, other: O)
    requires from + n <= |bytes| && Follows(ps, origin, bytes, from, on)
    ensures Of(Put(ps, origin, bytes, from, n, on), other) == Of(ps, other) + if other == origin then bytes[from..from + n] else []
  {
    hide Of, Put;
    if on && ps != [] && ps[|ps| - 1].origin == origin {
      PutGrows(ps, origin, from, n, other);
    } else {
      PutAdds(ps, origin, bytes, from, n, on, other);
    }
  }

  lemma {:induction false} OfNothing<O>(ps: seq<Piece<O>>, origin: O)
    requires forall i :: 0 <= i < |ps| ==> ps[i].origin != origin
    ensures Of(ps, origin) == []
  {
    if ps != [] {
      OfNothing(ps[..|ps| - 1], origin);
    }
  }
}
