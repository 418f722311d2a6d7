/** The packet codec of src/huffman.c over any pair of code tables that agree. */
module Huffman {
  import opened Wire
  import opened Bits
  import opened BitSwap

  datatype EncEntry = EncEntry(len: nat, code: nat)
  datatype DecEntry = DecEntry(value: byte, len: nat)

  /** struct hufftables: 256 codes, left-justified in 16 bits, and 2048 answers. */
  datatype Tables = Tables(enc: seq<EncEntry>, dec: seq<DecEntry>)

  const WINDOW := 11

  predicate Shape(t: Tables) {
    && |t.enc| == 256 && |t.dec| == 2048
    && forall s: byte :: 1 <= t.enc[s].len <= WINDOW && t.enc[s].code < 65536
  }

  /** Bit `j` of a 16-bit code, counted from the top; nothing follows the last. */
  predicate CodeBit(code: nat, j: nat) {
    j < 16 && Bit(code, 15 - j)
  }

  /** Bit `j` of an 11-bit index, counted from the top. */
  predicate IndexBit(index: nat, j: nat)
    requires j < WINDOW
  {
    Bit(index, 10 - j)
  }

  /** The 11-bit index begins with the code. */
  ghost predicate StartsWith(index: nat, e: EncEntry)
    requires e.len <= WINDOW
  {
    forall j: nat | j < e.len :: IndexBit(index, j) == CodeBit(e.code, j)
  }

  /** A code has no bits after its length. */
  ghost predicate Ends(code: nat, len: nat) {
    forall j: nat | len <= j :: !CodeBit(code, j)
  }

  /** No code has stray bits. */
  ghost predicate CleanCodes(t: Tables) {
    Shape(t) && forall s: byte :: Ends(t.enc[s].code, t.enc[s].len)
  }

  /** The tables belong together: every index that starts with a symbol's code is answered with
      that symbol. */
  ghost predicate Agree(t: Tables) {
    && CleanCodes(t)
    && (forall s: byte, index: nat | index < 2048 && StartsWith(index, t.enc[s]) ::
          t.dec[index] == DecEntry(s, t.enc[s].len))
  }

  /** No answer of the decode table is shorter than the code of its symbol. */
  ghost predicate Covers(t: Tables)
    requires Shape(t)
  {
    forall index: nat | index < 2048 :: t.dec[index].len >= t.enc[t.dec[index].value].len
  }

  // ---- Bit streams ----

  function CodeBits(e: EncEntry): (r: seq<bool>)
  {
    seq(e.len, j requires 0 <= j < e.len => CodeBit(e.code, j))
  }

  /** What a byte string is coded as. */
  function Encoded(t: Tables, x: seq<byte>): seq<bool>
    requires Shape(t)
  {
    if x == [] then [] else Encoded(t, x[..|x| - 1]) + CodeBits(t.enc[x[|x| - 1]])
  }

  lemma {:induction false} EncodedConcat(t: Tables, a: seq<byte>, b: seq<byte>)
    requires Shape(t)
    ensures Encoded(t, a + b) == Encoded(t, a) + Encoded(t, b)
    decreases |b|
  {
    if b == [] {
      assert a + b == a;
    } else {
      assert (a + b)[..|a + b| - 1] == a + b[..|b| - 1];
      EncodedConcat(t, a, b[..|b| - 1]);
    }
  }

  /** The byte that bit `i` of the stream at `base` falls in. */
  function ByteAt(m: seq<byte>, base: nat, i: nat): byte
    requires base + i / 8 < |m|
  {
    m[base + i / 8]
  }

  /** Bit `i` of the bytes of `m` from `base` on, least significant bit of each byte first. */
  predicate StreamBit(m: seq<byte>, base: nat, i: nat)
    requires base + i / 8 < |m|
  {
    Bit(ByteAt(m, base, i), i % 8)
  }

  ghost predicate Holds(m: seq<byte>, base: nat, bits: seq<bool>)
    requires base + (|bits| + 7) / 8 <= |m|
  {
    forall i: nat | i < |bits| :: StreamBit(m, base, i) == bits[i]
  }

  /** No bit is set in the byte after the stream's last bit. */
  ghost predicate Clean(m: seq<byte>, base: nat, len: nat)
    requires base + len / 8 < |m|
  {
    forall i: nat | len % 8 <= i < 8 :: !Bit(ByteAt(m, base, len), i)
  }

  // ---- huffencbyte ----

  lemma ChunkByte(code: nat, left: nat)
    requires code < 65536 && 1 <= left <= 8
    ensures Shr(code, 16 - left) < 256
  {
    Pow2Split(left);
    ShrBound(code, 16 - left, left);
    PowMonotone(left, 8);
    SmallPowers();
  }

  lemma CodeTop(code: nat, i: nat)
    requires code < 65536 && i >= 16
    ensures !Bit(code, i)
  {
    SmallPowers();
    HighBitsZero(code, 16, i);
  }

  /** The bits that one chunk ors into a byte: the top of `code`, first bit at position 8 - left. */
  lemma ChunkBit(code: nat, left: nat, i: nat)
    requires code < 65536 && 1 <= left <= 8 && i < 8
    ensures Shr(code, 16 - left) < 256
    ensures Bit(Swap(Shr(code, 16 - left)), i) == (i >= 8 - left && CodeBit(code, i - (8 - left)))
  {
    hide Swap;
    ChunkByte(code, left);
    SwapReverses(Shr(code, 16 - left), i);
    BitOfShr(code, 16 - left, 7 - i);
    if i < 8 - left {
      CodeTop(code, 7 - i + (16 - left));
    }
  }

  lemma Pow2Split(left: nat)
    requires left <= 16
    ensures Pow2(left + (16 - left)) == 65536
  {
    SmallPowers();
  }

  lemma {:induction false} PowMonotone(a: nat, b: nat)
    requires a <= b
    ensures Pow2(a) <= Pow2(b)
    decreases b
  {
    if a < b { PowMonotone(a, b - 1); }
  }

  /** One turn of huffencbyte's loop as a change to memory. */
  function PutChunk(m: seq<byte>, o: nat, code: nat, left: nat): (r: seq<byte>)
    requires o + 1 < |m| && code < 65536 && 1 <= left <= 8
    ensures |r| == |m|
  {
    ChunkByte(code, left);
    m[o := OrByte(m[o], Swap(Shr(code, 16 - left)))][o + 1 := 0]
  }

  function OrByte(x: byte, y: byte): byte {
    SmallPowers();
    OrBound(x, y, 8);
    Or(x, y)
  }

  /** The byte a chunk is or-ed into: old bits below, code bits above. */
  lemma PutBit(m: seq<byte>, o: nat, code: nat, left: nat, i: nat)
    requires o + 1 < |m| && code < 65536 && 1 <= left <= 8 && i < 8
    requires i >= 8 - left ==> !Bit(m[o], i)
    ensures Bit(PutChunk(m, o, code, left)[o], i)
            == if i >= 8 - left then CodeBit(code, i - (8 - left)) else Bit(m[o], i)
  {
    hide Swap;
    ChunkBit(code, left, i);
    BitOfOr(m[o], Swap(Shr(code, 16 - left)), i);
  }

  /** One chunk leaves the bits before it alone ... */
  lemma ChunkKeeps(m: seq<byte>, base: nat, l: nat, code: nat, i: nat)
    requires base + l / 8 + 1 < |m| && Clean(m, base, l) && code < 65536 && i < l
    ensures StreamBit(PutChunk(m, base + l / 8, code, 8 - l % 8), base, i) == StreamBit(m, base, i)
  {
    hide Swap;
    if i / 8 == l / 8 {
      assert i % 8 < l % 8;
      PutBit(m, base + l / 8, code, 8 - l % 8, i % 8);
    }
  }

  /** ... appends `n` bits of the code ... */
  lemma ChunkAppends(m: seq<byte>, base: nat, l: nat, code: nat, i: nat)
    requires base + l / 8 + 1 < |m| && Clean(m, base, l) && code < 65536 && i < 8 - l % 8
    ensures StreamBit(PutChunk(m, base + l / 8, code, 8 - l % 8), base, l + i) == CodeBit(code, i)
  {
    assert (l + i) / 8 == l / 8 && (l + i) % 8 == l % 8 + i && !Bit(ByteAt(m, base, l), l % 8 + i);
    PutBit(m, base + l / 8, code, 8 - l % 8, l % 8 + i);
  }

  /** ... and nothing else. */
  lemma ChunkCleans(m: seq<byte>, base: nat, l: nat, code: nat, size: nat, n: nat)
    requires base + l / 8 + 1 < |m| && Clean(m, base, l) && code < 65536 && 0 < size && Ends(code, size)
    requires n == if size < 8 - l % 8 then size else 8 - l % 8
    ensures Clean(PutChunk(m, base + l / 8, code, 8 - l % 8), base, l + n)
  {
    var o, left, k := base + l / 8, 8 - l % 8, l + n;
    var r := PutChunk(m, o, code, left);
    forall i: nat | k % 8 <= i < 8 ensures !Bit(ByteAt(r, base, k), i) {
      if n == left {
        assert k / 8 == l / 8 + 1;
        BitOfZero(i);
      } else {
        assert k / 8 == l / 8 && k % 8 == l % 8 + n;
        assert !Bit(ByteAt(m, base, l), i) && !CodeBit(code, i - l % 8);
        PutBit(m, o, code, left, i);
      }
    }
  }

  lemma ShiftedCode(code: nat, n: nat, j: nat)
    requires code < 65536 && n <= 16
    ensures CodeBit(U16(Shl(code, n)), j) == CodeBit(code, j + n)
  {
    if j < 16 {
      BitOfU16(Shl(code, n), 15 - j);
      BitOfShl(code, n, 15 - j);
    }
  }

  /** `code` is what is left of `e.code` after `done` bits. */
  ghost predicate Remaining(e: EncEntry, done: nat, code: nat) {
    code < 65536 && forall j: nat :: CodeBit(code, j) == CodeBit(e.code, done + j)
  }

  lemma ShiftRemaining(e: EncEntry, done: nat, code: nat, n: nat)
    requires Remaining(e, done, code) && n <= 16
    ensures Remaining(e, done + n, U16(Shl(code, n)))
  {
    forall j: nat ensures CodeBit(U16(Shl(code, n)), j) == CodeBit(e.code, done + n + j) {
      ShiftedCode(code, n, j);
      assert CodeBit(code, j + n) == CodeBit(e.code, done + (j + n));
    }
  }

  /** After some chunks: the old stream, then the first bits of the code, then nothing. */
  ghost predicate Grown(m0: seq<byte>, m: seq<byte>, base: nat, len: nat, e: EncEntry, l: nat)
    requires |m| == |m0| && base + l / 8 < |m| && len <= l <= len + e.len
  {
    && m[..base] == m0[..base]
    && (forall i: nat | i < len :: StreamBit(m, base, i) == StreamBit(m0, base, i))
    && (forall i: nat | len <= i < l :: StreamBit(m, base, i) == CodeBits(e)[i - len])
    && Clean(m, base, l)
  }

  lemma PutBelow(m: seq<byte>, base: nat, o: nat, code: nat, left: nat)
    requires base <= o && o + 1 < |m| && code < 65536 && 1 <= left <= 8
    ensures PutChunk(m, o, code, left)[..base] == m[..base]
  {
  }

  lemma GrowsByChunk(m0: seq<byte>, m: seq<byte>, base: nat, len: nat, e: EncEntry, l: nat, code: nat, n: nat)
    requires Ends(e.code, e.len)
    requires |m| == |m0| && base + l / 8 + 1 < |m| && len <= l < len + e.len
    requires Grown(m0, m, base, len, e, l) && Remaining(e, l - len, code)
    requires n == if e.len - (l - len) < 8 - l % 8 then e.len - (l - len) else 8 - l % 8
    ensures Grown(m0, PutChunk(m, base + l / 8, code, 8 - l % 8), base, len, e, l + n)
  {
    hide PutChunk;
    var done := l - len;
    assert Ends(code, e.len - done);
    ChunkCleans(m, base, l, code, e.len - done, n);
    var r := PutChunk(m, base + l / 8, code, 8 - l % 8);
    PutBelow(m, base, base + l / 8, code, 8 - l % 8);
    forall i: nat | i < l ensures StreamBit(r, base, i) == StreamBit(m, base, i) {
      ChunkKeeps(m, base, l, code, i);
    }
    forall i: nat | l <= i < l + n ensures StreamBit(r, base, i) == CodeBits(e)[i - len] {
      ChunkAppends(m, base, l, code, i - l);
      assert CodeBit(code, i - l) == CodeBit(e.code, done + (i - l));
    }
  }

  /** `*o |= bitswaptable[code >> (16 - left)]; o++; *o = 0` */
  method StoreChunk(outbuf: array<byte>, o: nat, code: nat, left: nat)
    requires o + 1 < outbuf.Length && code < 65536 && 1 <= left <= 8
    modifies outbuf
    ensures outbuf[..] == PutChunk(old(outbuf[..]), o, code, left)
  {
    hide Swap;
    ChunkByte(code, left);
    outbuf[o] := OrByte(outbuf[o], Swap(Shr(code, 16 - left)));
    outbuf[o + 1] := 0;
  }

  /** One turn of the loop: store a chunk, then `code <<= bitstocopy`. */
  method EncChunk(ghost m0: seq<byte>, ghost e: EncEntry, ghost len: nat, ghost l: nat,
                  outbuf: array<byte>, base: nat, o: nat, code: nat, left: nat, bitstocopy: nat) returns (newCode: nat)
    requires Ends(e.code, e.len) && len <= l < len + e.len && o == base + l / 8 && left == 8 - l % 8
    requires |m0| == outbuf.Length && o + 1 < outbuf.Length
    requires Grown(m0, outbuf[..], base, len, e, l) && Remaining(e, l - len, code)
    requires bitstocopy == if e.len - (l - len) < left then e.len - (l - len) else left
    modifies outbuf
    ensures Grown(m0, outbuf[..], base, len, e, l + bitstocopy) && Remaining(e, l + bitstocopy - len, newCode)
    ensures outbuf[o + 1] == 0 && outbuf[o + 2..] == old(outbuf[o + 2..])
  {
    GrowsByChunk(m0, outbuf[..], base, len, e, l, code, bitstocopy);
    ShiftRemaining(e, l - len, code, bitstocopy);
    StoreChunk(outbuf, o, code, left);
    newCode := U16(Shl(code, bitstocopy));
  }

  /** `if (bitsleft == 8) *o = 0`: the stream is clean from its end on. */
  lemma Opened(m: seq<byte>, base: nat, len: nat, e: EncEntry)
    requires base + len / 8 < |m| && (len % 8 != 0 ==> Clean(m, base, len))
    ensures Grown(m, if len % 8 == 0 then m[base + len / 8 := 0] else m, base, len, e, len)
  {
    forall i: nat ensures !Bit(0, i) { BitOfZero(i); }
    var r := if len % 8 == 0 then m[base + len / 8 := 0] else m;
    assert r[..base] == m[..base];
  }

  /** The last byte touched when a stream at `base` has come to `len` bits: the one after its last. */
  function Touched(base: nat, len: nat): nat {
    base + (len + 7) / 8
  }

  /** huffencbyte: append one symbol's code to the stream of `len` bits at `base`, whatever the bytes from
      the end of the stream on held before. The byte after the stream's last is cleared, the ones behind
      that are left alone. */
  method EncByte(t: Tables, inbyte: byte, outbuf: array<byte>, base: nat, len: nat) returns (newLen: nat)
    requires CleanCodes(t) && Touched(base, len + t.enc[inbyte].len) < outbuf.Length
    requires len % 8 != 0 ==> Clean(outbuf[..], base, len)
    modifies outbuf
    ensures newLen == len + t.enc[inbyte].len
    ensures Grown(old(outbuf[..]), outbuf[..], base, len, t.enc[inbyte], newLen)
    ensures var k := Touched(base, newLen); outbuf[k] == 0 && outbuf[k + 1..] == old(outbuf[k + 1..])
  {
    ghost var m0, e := outbuf[..], t.enc[inbyte];
    Opened(m0, base, len, e);
    var l, o, bitsleft := len, base + len / 8, 8 - len % 8;
    if bitsleft == 8 {
      outbuf[o] := 0;
      assert outbuf[..] == m0[o := 0];
    }
    var size, code := t.enc[inbyte].len, t.enc[inbyte].code;
    assert Ends(e.code, e.len) && Remaining(e, 0, code);
    while size > 0
      invariant size == e.len - (l - len) && len <= l <= len + e.len
      invariant size > 0 ==> o == base + l / 8 && bitsleft == 8 - l % 8
      invariant Remaining(e, l - len, code)
      invariant Grown(m0, outbuf[..], base, len, e, l)
      invariant 0 <= o < outbuf.Length && outbuf[o + 1..] == m0[o + 1..]
      invariant l > len ==> o == Touched(base, l) && outbuf[o] == 0
    {
      ghost var before := outbuf[..];
      var bitstocopy := if size < bitsleft then size else bitsleft;
      code := EncChunk(m0, e, len, l, outbuf, base, o, code, bitsleft, bitstocopy);
      assert outbuf[o + 2..] == before[o + 2..] == before[o + 1..][1..] == m0[o + 1..][1..];
      size := size - bitstocopy;
      o := o + 1;
      l := l + bitstocopy;
      bitsleft := 8;
    }
    newLen := l;
  }
}
