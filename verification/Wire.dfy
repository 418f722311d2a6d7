/** Bytes and the little-endian packet header shared by both channel implementations. */
module Wire {

  type byte = b: int | 0 <= b < 256

  datatype Option<T> = None | Some(value: T)

  const BIT31 := 0x8000_0000
  const MAX_MSGLEN := 1450

  /** The header words of a packet: a 31-bit number and a flag in bit 31 of each. */
  datatype Header = Header(seqNo: nat, hasReliable: bool, ack: nat, ackBit: bool)

  /** Sequence numbers never reach bit 31 (the C code keeps them in `int`). */
  predicate InRange(h: Header) {
    h.seqNo < BIT31 && h.ack < BIT31
  }

  /** The `k` low bytes of `v`, least significant first. */
  function LE(v: nat, k: nat): (r: seq<byte>)
    ensures |r| == k
  {
    if k == 0 then [] else [v % 256] + LE(v / 256, k - 1)
  }

  function LE32(v: nat): seq<byte> {
    LE(v, 4)
  }

  function LE16(v: nat): seq<byte> {
    LE(v, 2)
  }

  function Join(b0: int, b1: int, b2: int, b3: int): int {
    b0 + b1 * 256 + b2 * 65536 + b3 * 16777216
  }

  /** MSG_ReadLong, read as unsigned. */
  function Long(b: seq<byte>, i: nat): (v: int)
    requires i + 4 <= |b|
    ensures 0 <= v < 0x1_0000_0000
  {
    Join(b[i], b[i + 1], b[i + 2], b[i + 3])
  }

  function Flag(b: bool): int {
    if b then BIT31 else 0
  }

  /** The two words Netchan_Transmit writes: `number | (flag << 31)`. */
  function HeaderBytes(h: Header): (r: seq<byte>)
    requires InRange(h)
    ensures |r| == 8
  {
    LE32(h.seqNo + Flag(h.hasReliable)) + LE32(h.ack + Flag(h.ackBit))
  }

  /** The shifts and masks Netchan_Process applies to the two words. */
  function ParseHeader(msg: seq<byte>): (h: Header)
    requires 8 <= |msg|
  {
    var w1, w2 := Long(msg, 0), Long(msg, 4);
    Header(w1 % BIT31, w1 / BIT31 == 1, w2 % BIT31, w2 / BIT31 == 1)
  }

  /** The header as netqw.c lays it down: four bytes of each number, the flag bits or-ed
      into bytes 3 and 7 afterwards (`buf[7] |= xor << 7`, `buf[3] |= 0x80`). */
  function NetqwHeaderBytes(h: Header): (r: seq<byte>)
    requires InRange(h)
    ensures |r| == 8
  {
    SetFlags(LE32(h.seqNo) + LE32(h.ack), h)
  }

  function SetFlags(b: seq<byte>, h: Header): (r: seq<byte>)
    requires |b| == 8
    ensures |r| == 8
  {
    b[7 := if h.ackBit then OrTopBit(b[7]) else b[7]][3 := if h.hasReliable then OrTopBit(b[3]) else b[3]]
  }

  function OrTopBit(b: byte): byte {
    if b < 128 then b + 128 else b
  }

  /** netqw.c reads the number with the top bit masked off byte 3 and tests the flag there. */
  function NetqwParse(msg: seq<byte>): (h: Header)
    requires 8 <= |msg|
  {
    Header(Join(msg[0], msg[1], msg[2], msg[3] % 128), msg[3] >= 128,
           Join(msg[4], msg[5], msg[6], msg[7] % 128), msg[7] >= 128)
  }

  /** What the four bytes `b` of a flagged word have to do with the bytes `p` of the bare number. */
  predicate FlaggedWord(b: seq<byte>, p: seq<byte>, n: nat, flag: bool) {
    && |b| == 4 && |p| == 4 && b[..3] == p[..3]
    && var w := Join(b[0], b[1], b[2], b[3]);
    && w % BIT31 == n && (w / BIT31 == 1 <==> flag)
    && b[3] == (if flag then OrTopBit(p[3]) else p[3])
    && Join(b[0], b[1], b[2], b[3] % 128) == n && (b[3] >= 128 <==> flag)
  }

  lemma WordRoundTrip(n: nat, flag: bool)
    requires n < BIT31
    ensures FlaggedWord(LE32(n + Flag(flag)), LE32(n), n, flag)
  {
    var v := n + Flag(flag);
    var (p1, q1) := (n / 256, v / 256);
    var (p2, q2) := (p1 / 256, q1 / 256);
    var k := if flag then 128 else 0;
    assert v == n + 256 * (65536 * k);
    assert q1 == p1 + 256 * (256 * k);
    assert q2 == p2 + 256 * k;
    assert q2 / 256 == p2 / 256 + k && p2 / 256 < 128;
    FourBytes(n);
    FourBytes(v);
  }

  lemma FourBytes(v: nat)
    requires v < 0x1_0000_0000
    ensures var q1 := v / 256;
            var q2 := q1 / 256;
            LE32(v) == [v % 256, q1 % 256, q2 % 256, q2 / 256] && Join(v % 256, q1 % 256, q2 % 256, q2 / 256) == v
  {
    var q1 := v / 256;
    var q2 := q1 / 256;
    assert LE(q2 / 256, 1) == [q2 / 256] by { assert LE(q2 / 256 / 256, 0) == []; }
    assert LE(q2, 2) == [q2 % 256, q2 / 256];
    assert LE(q1, 3) == [q1 % 256, q2 % 256, q2 / 256];
  }

  lemma ReadTwoWords(h: Header, b: seq<byte>, p: seq<byte>, c: seq<byte>, q: seq<byte>, rest: seq<byte>)
    requires FlaggedWord(b, p, h.seqNo, h.hasReliable) && FlaggedWord(c, q, h.ack, h.ackBit)
    ensures ParseHeader(b + c + rest) == h && NetqwParse(b + c + rest) == h
    ensures SetFlags(p + q, h) == b + c
  {
    var m := b + c + rest;
    assert m[..4] == b && m[4..8] == c;
    assert forall i | 0 <= i < 4 :: m[i] == b[i] && m[4 + i] == c[i];
    assert forall i | 0 <= i < 3 :: b[..3][i] == b[i] && c[..3][i] == c[i];
    assert forall i | 0 <= i < 3 :: p[..3][i] == p[i] && q[..3][i] == q[i];
  }

  lemma WordsOf(h: Header) returns (b: seq<byte>, p: seq<byte>, c: seq<byte>, q: seq<byte>)
    requires InRange(h)
    ensures FlaggedWord(b, p, h.seqNo, h.hasReliable) && FlaggedWord(c, q, h.ack, h.ackBit)
    ensures HeaderBytes(h) == b + c && NetqwHeaderBytes(h) == SetFlags(p + q, h)
  {
    WordRoundTrip(h.seqNo, h.hasReliable);
    WordRoundTrip(h.ack, h.ackBit);
    b, p := LE32(h.seqNo + Flag(h.hasReliable)), LE32(h.seqNo);
    c, q := LE32(h.ack + Flag(h.ackBit)), LE32(h.ack);
  }

  /** Either end's header is read back exactly by either end, whatever follows it. */
  lemma HeaderRoundTrip(h: Header, rest: seq<byte>)
    requires InRange(h)
    ensures NetqwHeaderBytes(h) == HeaderBytes(h)
    ensures ParseHeader(HeaderBytes(h) + rest) == h && NetqwParse(HeaderBytes(h) + rest) == h
    ensures (HeaderBytes(h) + rest)[8..] == rest
  {
    var b, p, c, q := WordsOf(h);
    ReadTwoWords(h, b, p, c, q, rest);
  }
}
