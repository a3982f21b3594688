/** Types and constants shared by the device server and the client server. */
module Common {

  type byte = b: int | 0 <= b < 256

  datatype Option<+T> = None | Some(value: T)

  const MIB := 0x10_0000

  // Message types: one byte on the wire.
  const ACK: byte := 0x00
  const LOGIN: byte := 0x01
  const SUCCESS: byte := 0x02
  const FAIL: byte := 0x03
  const DEVICE: byte := 0x04
  const AVAILABLE: byte := 0x05
  const AI: byte := 0x06
  const CAMERA: byte := 0x07
  const ASSIGN: byte := 0x08
  const META: byte := 0x09
  const IMAGE: byte := 0x0a
  const HANDSHAKE: byte := 0x0b

  /** The registry keys: the source builds them as text, see `Key`. */
  datatype DeviceId = SubPi(ip: string) | Hanwha(ip: string, channel: nat)

  datatype DeviceType = HANWHA | SUB_PI

  datatype DeviceInfo = DeviceInfo(
    id: DeviceId, ip: string, kind: DeviceType, online: bool,
    sourceUrl: string, port: int, fd: int)

  function Decimal(n: nat): (text: string)
    ensures text != []
    ensures forall i :: 0 <= i < |text| ==> '0' <= text[i] <= '9'
  {
    (if n < 10 then [] else Decimal(n / 10)) + [('0' as int + n % 10) as char]
  }

  /** The number a numeral stands for. */
  function Value(text: string): nat
    requires forall i :: 0 <= i < |text| ==> '0' <= text[i] <= '9'
  {
    if text == [] then 0
    else 10 * Value(text[..|text| - 1]) + (text[|text| - 1] as int - '0' as int)
  }

  /** A numeral stands for the number it was made from, and has no leading zero. */
  lemma {:induction false} DecimalValue(n: nat)
    ensures Value(Decimal(n)) == n && (Decimal(n)[0] == '0' ==> n == 0)
  {
    var x := Decimal(n);
    assert x[|x| - 1] as int == '0' as int + n % 10;
    assert x[..|x| - 1] == if n < 10 then [] else Decimal(n / 10);
    if n >= 10 {
      DecimalValue(n / 10);
      assert x[0] == Decimal(n / 10)[0];
    }
  }

  /** The key under which a device is stored. */
  function Key(id: DeviceId): string {
    match id
    case SubPi(ip) => "SubPi_" + ip
    case Hanwha(ip, channel) => "Hanwha_" + ip + "_CH_" + Decimal(channel)
  }

  lemma {:induction false} DecimalInjective(a: nat, b: nat)
    requires Decimal(a) == Decimal(b)
    ensures a == b
  {
    var x, y := Decimal(a), Decimal(b);
    assert x[|x| - 1] == y[|y| - 1];
    assert x[..|x| - 1] == if a < 10 then [] else Decimal(a / 10);
    assert y[..|y| - 1] == if b < 10 then [] else Decimal(b / 10);
    if a >= 10 && b >= 10 {
      DecimalInjective(a / 10, b / 10);
    }
  }

  /** Two texts that end in '_' and digits only have the same number of digits at the end. */
  lemma SameSuffix(s: string, before: string, p: string, before': string, q: string)
    requires s == before + "_" + p && s == before' + "_" + q
    requires forall i :: 0 <= i < |p| ==> '0' <= p[i] <= '9'
    requires forall i :: 0 <= i < |q| ==> '0' <= q[i] <= '9'
    ensures before == before' && p == q
  {
    LastUnderscore(s, before, p);
    LastUnderscore(s, before', q);
    assert |before| == |before'|;
  }

  lemma LastUnderscore(s: string, before: string, p: string)
    requires s == before + "_" + p
    requires forall i :: 0 <= i < |p| ==> '0' <= p[i] <= '9'
    ensures |before| < |s| && s[|before|] == '_' && forall k :: |before| < k < |s| ==> s[k] != '_'
    ensures s[..|before|] == before && s[|before| + 1..] == p
  {
    assert forall k :: |before| < k < |s| ==> s[k] == p[k - |before| - 1];
  }

  lemma HanwhaKey(ip: string, channel: nat)
    ensures Key(Hanwha(ip, channel)) == ("Hanwha_" + ip + "_CH") + "_" + Decimal(channel)
  {
    hide Decimal;
    assert Key(Hanwha(ip, channel)) == "Hanwha_" + ip + "_CH_" + Decimal(channel);
  }

  /** Two keys agree only on the same device, so a map keyed by text is a map keyed by `DeviceId`. */
  lemma KeyInjective(a: DeviceId, b: DeviceId)
    requires Key(a) == Key(b)
    ensures a == b
  {
    hide Decimal;
    var s := Key(a);
    assert s[0] == if a.SubPi? then 'S' else 'H';
    assert s[0] == if b.SubPi? then 'S' else 'H';
    if a.SubPi? {
      assert s[6..] == a.ip && s[6..] == b.ip;
    } else {
      HanwhaKey(a.ip, a.channel);
      HanwhaKey(b.ip, b.channel);
      hide Key;
      var x, y := "Hanwha_" + a.ip + "_CH", "Hanwha_" + b.ip + "_CH";
      SameSuffix(s, x, Decimal(a.channel), y, Decimal(b.channel));
      DecimalInjective(a.channel, b.channel);
      assert x[7..|x| - 3] == a.ip && y[7..|y| - 3] == b.ip;
    }
  }

  /** The listener recovers the address of a Sub-Pi by dropping six characters of its key. */
  lemma AddressOfKey(ip: string)
    ensures Key(SubPi(ip))[6..] == ip
  {
    assert Key(SubPi(ip)) == "SubPi_" + ip;
  }

  lemma ConcatAssociative<T>(a: seq<T>, b: seq<T>, c: seq<T>)
    ensures a + (b + c) == (a + b) + c
  {
  }

  // ---- lists of clients ----

  predicate Distinct<T(==)>(s: seq<T>) {
    forall i, j :: 0 <= i < j < |s| ==> s[i] != s[j]
  }

  /** The list without any occurrence of `x`, the rest in order. */
  function Without<T(==)>(s: seq<T>, x: T): seq<T> {
    if s == [] then [] else (if s[0] == x then [] else [s[0]]) + Without(s[1..], x)
  }

  lemma {:induction false} WithoutContents<T>(s: seq<T>, x: T)
    ensures forall y :: y in Without(s, x) <==> y in s && y != x
    ensures Distinct(s) ==> Distinct(Without(s, x))
  {
    if s != [] {
      var rest := Without(s[1..], x);
      WithoutContents(s[1..], x);
      assert Without(s, x) == if s[0] == x then rest else [s[0]] + rest;
      hide Without;
      MembersOf(s);
      MembersOf([s[0]] + rest);
      assert ([s[0]] + rest)[1..] == rest;
      if Distinct(s) {
        DistinctTail(s);
        DistinctCons(s[0], rest);
      }
    }
  }

  lemma MembersOf<T>(s: seq<T>)
    requires s != []
    ensures forall x :: x in s <==> x == s[0] || x in s[1..]
  {
    assert s == [s[0]] + s[1..];
  }

  lemma DistinctCons<T>(x: T, s: seq<T>)
    requires Distinct(s) ==> x !in s
    ensures Distinct(s) ==> Distinct([x] + s)
  {
  }

  lemma DistinctAppend<T>(s: seq<T>, x: T)
    requires Distinct(s) && x !in s
    ensures Distinct(s + [x])
  {
  }

  lemma DistinctTail<T>(s: seq<T>)
    requires Distinct(s) && s != []
    ensures Distinct(s[1..]) && s[0] !in s[1..]
    ensures forall x :: x in s <==> x == s[0] || x in s[1..]
  {
    MembersOf(s);
    assert forall j :: 0 <= j < |s[1..]| ==> s[1..][j] == s[j + 1];
  }

  /** How often `x` is in the list. */
  function Count<T(==)>(s: seq<T>, x: T): nat {
    if s == [] then 0 else Count(s[..|s| - 1], x) + if s[|s| - 1] == x then 1 else 0
  }

  lemma {:induction false} CountMeansIn<T>(s: seq<T>, x: T)
    ensures Count(s, x) > 0 <==> x in s
  {
    if s != [] {
      var n := |s| - 1;
      CountMeansIn(s[..n], x);
      assert s == s[..n] + [s[n]];
    }
  }

  lemma CountAppend<T>(s: seq<T>, y: T, x: T)
    ensures Count(s + [y], x) == Count(s, x) + if y == x then 1 else 0
  {
    assert (s + [y])[..|s|] == s;
  }

  lemma {:induction false} CountFirst<T>(s: seq<T>, x: T)
    requires s != []
    ensures Count(s, x) == (if s[0] == x then 1 else 0) + Count(s[1..], x)
  {
    var n := |s| - 1;
    if n > 0 {
      CountFirst(s[..n], x);
      assert s[..n][1..] == s[1..][..n - 1];
      assert s[1..][n - 1] == s[n];
    }
  }

  /** Removal drops every occurrence and keeps the rest. */
  lemma {:induction false} WithoutCounts<T>(s: seq<T>, x: T, other: T)
    ensures x !in Without(s, x)
    ensures other != x ==> Count(Without(s, x), other) == Count(s, other)
  {
    if s != [] {
      WithoutCounts(s[1..], x, other);
      CountFirst(s, other);
      var rest := Without(s[1..], x);
      if s[0] != x {
        CountFirst([s[0]] + rest, other);
        assert ([s[0]] + rest)[1..] == rest;
      } else {
        assert Without(s, x) == rest;
      }
    }
  }

  lemma PrefixTrans<T>(a: seq<T>, b: seq<T>, c: seq<T>)
    requires a <= b <= c
    ensures a <= c
  {
  }

  lemma SomeMember<T>(s: set<T>) returns (x: T)
    requires s != {}
    ensures x in s
  {
    x :| x in s;
  }
}
