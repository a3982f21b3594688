/** Framing: one byte of type, four bytes of body length, the body, and for an image its tail. */
module Wire {
  import opened Common

  const LIMIT := 0x1_0000_0000

  /** A frame as its sender means it; only images have a tail. */
  datatype Frame = Frame(kind: byte, body: seq<byte>, tail: seq<byte>)

  /** What a reader finds at a frame boundary. */
  datatype Head = Short | Head(kind: byte, length: nat, rest: seq<byte>)

  function BigEndian(n: nat): (b: seq<byte>)
    ensures |b| == 4
  {
    [n / 0x100_0000 % 0x100, n / 0x1_0000 % 0x100, n / 0x100 % 0x100, n % 0x100]
  }

  function FromBigEndian(b: seq<byte>): (n: nat)
    requires |b| == 4
    ensures n < LIMIT
  {
    0x100_0000 * b[0] as int + 0x1_0000 * b[1] as int + 0x100 * b[2] as int + b[3] as int
  }

  function LittleEndian(n: nat): (b: seq<byte>)
    ensures |b| == 4
  {
    [n % 0x100, n / 0x100 % 0x100, n / 0x1_0000 % 0x100, n / 0x100_0000 % 0x100]
  }

  function FromLittleEndian(b: seq<byte>): (n: nat)
    requires |b| == 4
    ensures n < LIMIT
  {
    0x100_0000 * b[3] as int + 0x1_0000 * b[2] as int + 0x100 * b[1] as int + b[0] as int
  }

  /** Taking a number apart into bytes and putting it together again. */
  lemma Reassembled(n: nat)
    ensures n % LIMIT == 0x100_0000 * (n / 0x100_0000 % 0x100) + 0x1_0000 * (n / 0x1_0000 % 0x100)
                         + 0x100 * (n / 0x100 % 0x100) + n % 0x100
  {
    var a, b, c := n / 0x100, n / 0x1_0000, n / 0x100_0000;
    assert a / 0x100 == b && b / 0x100 == c;
    assert n % LIMIT == c % 0x100 * 0x100_0000 + n % 0x100_0000;
    assert n % 0x100_0000 == b % 0x100 * 0x1_0000 + n % 0x1_0000;
    assert n % 0x1_0000 == a % 0x100 * 0x100 + n % 0x100;
  }

  /** Which byte comes first: the most significant one on the internal links, the least significant one to Qt clients. */
  lemma ByteOrder(n: nat, b: seq<byte>)
    requires n < LIMIT && |b| == 4
    ensures BigEndian(n)[0] == n / 0x100_0000 && BigEndian(n)[3] == n % 0x100
    ensures FromBigEndian(b) == ((b[0] as int * 0x100 + b[1] as int) * 0x100 + b[2] as int) * 0x100 + b[3] as int
    ensures LittleEndian(n) == [BigEndian(n)[3], BigEndian(n)[2], BigEndian(n)[1], BigEndian(n)[0]]
    ensures FromLittleEndian(b) == FromBigEndian([b[3], b[2], b[1], b[0]])
  {
    assert n / 0x100_0000 < 0x100;
  }

  lemma BigEndianRoundTrip(n: nat)
    ensures FromBigEndian(BigEndian(n)) == n % LIMIT
  {
    Reassembled(n);
  }

  lemma LittleEndianRoundTrip(n: nat)
    ensures FromLittleEndian(LittleEndian(n)) == n % LIMIT
  {
    Reassembled(n);
  }

  /** Both length encodings give back any length that fits in 32 bits; longer ones wrap. */
  lemma LengthRoundTrip(n: nat)
    ensures FromBigEndian(BigEndian(n)) == n % LIMIT
    ensures FromLittleEndian(LittleEndian(n)) == n % LIMIT
  {
    hide BigEndian, LittleEndian, FromBigEndian, FromLittleEndian;
    BigEndianRoundTrip(n);
    LittleEndianRoundTrip(n);
  }

  /** The two servers talk to each other and to the Sub-Pis in network order. */
  function Encode(f: Frame): seq<byte> {
    [f.kind] + BigEndian(|f.body|) + f.body + f.tail
  }

  /** Qt clients are served in host order, which is little endian. */
  function EncodeLE(f: Frame): seq<byte> {
    [f.kind] + LittleEndian(|f.body|) + f.body + f.tail
  }

  function EncodeAll(fs: seq<Frame>): seq<byte> {
    if fs == [] then [] else Encode(fs[0]) + EncodeAll(fs[1..])
  }

  function ReadHead(input: seq<byte>): Head {
    if |input| < 5 then Short else Head(input[0], FromBigEndian(input[1..5]), input[5..])
  }

  function ReadHeadLE(input: seq<byte>): Head {
    if |input| < 5 then Short else Head(input[0], FromLittleEndian(input[1..5]), input[5..])
  }

  lemma Sections(kind: byte, length: seq<byte>, body: seq<byte>, tail: seq<byte>, rest: seq<byte>)
    requires |length| == 4
    ensures var s := [kind] + length + body + tail + rest;
            |s| >= 5 && s[0] == kind && s[1..5] == length && s[5..] == body + (tail + rest)
  {
  }

  /** At a frame's start a reader finds its type and length, then its body, its tail and what follows. */
  lemma HeadOfFrame(f: Frame, rest: seq<byte>)
    requires |f.body| < LIMIT
    ensures ReadHead(Encode(f) + rest) == Head(f.kind, |f.body|, f.body + (f.tail + rest))
    ensures ReadHeadLE(EncodeLE(f) + rest) == Head(f.kind, |f.body|, f.body + (f.tail + rest))
    ensures (f.body + (f.tail + rest))[..|f.body|] == f.body && (f.body + (f.tail + rest))[|f.body|..] == f.tail + rest
    ensures (f.tail + rest)[..|f.tail|] == f.tail && (f.tail + rest)[|f.tail|..] == rest
    ensures f.tail == [] ==> f.tail + rest == rest
  {
    hide BigEndian, LittleEndian, FromBigEndian, FromLittleEndian;
    LengthRoundTrip(|f.body|);
    Sections(f.kind, BigEndian(|f.body|), f.body, f.tail, rest);
    Sections(f.kind, LittleEndian(|f.body|), f.body, f.tail, rest);
  }

  /** Every four bytes are a length, so a packet is there whenever enough bytes are. */
  lemma LengthOfBytes(b: seq<byte>)
    requires |b| == 4
    ensures BigEndian(FromBigEndian(b)) == b && LittleEndian(FromLittleEndian(b)) == b
  {
    Digits(b[0], b[1], b[2], b[3]);
    Digits(b[3], b[2], b[1], b[0]);
  }

  lemma Digits(a: byte, b: byte, c: byte, d: byte)
    ensures var n := 0x100_0000 * a as int + 0x1_0000 * b as int + 0x100 * c as int + d as int;
            && n / 0x100_0000 % 0x100 == a && n / 0x1_0000 % 0x100 == b && n / 0x100 % 0x100 == c && n % 0x100 == d
  {
    var n := 0x100_0000 * a as int + 0x1_0000 * b as int + 0x100 * c as int + d as int;
    assert n / 0x100 == 0x1_0000 * a as int + 0x100 * b as int + c as int;
    assert n / 0x1_0000 == 0x100 * a as int + b as int;
    assert n / 0x100_0000 == a as int;
  }

  lemma PacketOfHead(input: seq<byte>, kind: byte, length: nat, rest: seq<byte>)
    requires ReadHeadLE(input) == Head(kind, length, rest) && length <= |rest|
    ensures input == EncodeLE(Frame(kind, rest[..length], [])) + rest[length..]
  {
    LengthOfBytes(input[1..5]);
    hide LittleEndian, FromLittleEndian;
    assert input == [input[0]] + input[1..5] + input[5..];
    assert rest == rest[..length] + rest[length..];
  }

  lemma {:induction false} EncodeAllAppend(fs: seq<Frame>, gs: seq<Frame>)
    ensures EncodeAll(fs + gs) == EncodeAll(fs) + EncodeAll(gs)
  {
    if fs == [] {
      assert fs + gs == gs;
    } else {
      hide Encode;
      EncodeAllAppend(fs[1..], gs);
      assert (fs + gs)[0] == fs[0] && (fs + gs)[1..] == fs[1..] + gs;
      ConcatAssociative(Encode(fs[0]), EncodeAll(fs[1..]), EncodeAll(gs));
    }
  }
}
