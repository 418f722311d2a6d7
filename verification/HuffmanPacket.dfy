/** Huff_CompressPacket and Huff_DecompressPacket, and the round trip between them. */
module HuffmanPacket {
  import opened Wire
  import opened Bits
  import opened BitSwap
  import opened Huffman

  // ---- huffdecbyte ----

  /** The table index huffdecbyte builds from three bytes; every assignment truncates to 16 bits. */
  function Window(m: seq<byte>, base: nat, len: nat): (index: nat)
    requires base + len / 8 + 2 < |m|
    ensures index < 2048
  {
    var o, r := base + len / 8, len % 8;
    var i0 := U16(Shl(Swap(m[o]), r + 8));
    var i1 := U16(Or(i0, Shl(Swap(m[o + 1]), r)));
    var i2 := U16(Or(i1, Shr(Swap(m[o + 2]), 8 - r)));
    i2 / 32
  }

  /** Bit `i` of three values or-ed together in 16-bit steps. */
  lemma ThreeOrs(a: nat, b: nat, c: nat, i: nat)
    requires i < 16
    ensures Bit(U16(Or(U16(Or(U16(a), b)), c)), i) == (Bit(a, i) || Bit(b, i) || Bit(c, i))
  {
    BitOfU16(a, i);
    BitOfOr(U16(a), b, i);
    BitOfU16(Or(U16(a), b), i);
    BitOfOr(U16(Or(U16(a), b)), c, i);
    BitOfU16(Or(U16(Or(U16(a), b)), c), i);
  }

  /** Where a byte's bits land when its reversal is shifted left by `k`: byte bit b at 7 + k - b. */
  lemma ReversedLeft(v: byte, k: nat, i: nat)
    ensures Bit(Shl(Swap(v), k), i) == (k <= i < k + 8 && Bit(v, 7 + k - i))
  {
    BitOfShl(Swap(v), k, i);
    if i >= k { SwapReverses(v, i - k); }
  }

  lemma ReversedRight(v: byte, k: nat, i: nat)
    ensures Bit(Shr(Swap(v), k), i) == (i + k < 8 && Bit(v, 7 - (i + k)))
  {
    BitOfShr(Swap(v), k, i);
    SwapReverses(v, i + k);
  }

  /** The index holds three bytes' bits in stream order. */
  lemma ThreeBytes(v0: byte, v1: byte, v2: byte, r: nat, j: nat)
    requires r < 8 && j < 16
    ensures Bit(U16(Or(U16(Or(U16(Shl(Swap(v0), r + 8)), Shl(Swap(v1), r))), Shr(Swap(v2), 8 - r))), 15 - j)
            == if r + j < 8 then Bit(v0, r + j) else if r + j < 16 then Bit(v1, r + j - 8) else Bit(v2, r + j - 16)
  {
    ThreeOrs(Shl(Swap(v0), r + 8), Shl(Swap(v1), r), Shr(Swap(v2), 8 - r), 15 - j);
    ReversedLeft(v0, r + 8, 15 - j);
    ReversedLeft(v1, r, 15 - j);
    ReversedRight(v2, 8 - r, 15 - j);
  }

  lemma WindowBit(m: seq<byte>, base: nat, len: nat, j: nat)
    requires base + len / 8 + 2 < |m| && j < WINDOW
    ensures var (o, k) := (base + len / 8, len % 8 + j);
            IndexBit(Window(m, base, len), j)
            == if k < 8 then Bit(m[o], k) else if k < 16 then Bit(m[o + 1], k - 8) else Bit(m[o + 2], k - 16)
  {
    hide Swap, Or, Shl, Shr, U16;
    var o, r := base + len / 8, len % 8;
    ThreeBytes(m[o], m[o + 1], m[o + 2], r, j);
    BitOfDiv32(U16(Or(U16(Or(U16(Shl(Swap(m[o]), r + 8)), Shl(Swap(m[o + 1]), r))), Shr(Swap(m[o + 2]), 8 - r))),
               10 - j);
  }

  /** huffdecbyte looks at the next eleven bits of the stream, in order. */
  lemma WindowIsNextBits(m: seq<byte>, base: nat, len: nat, j: nat)
    requires base + len / 8 + 2 < |m| && j < WINDOW
    ensures IndexBit(Window(m, base, len), j) == StreamBit(m, base, len + j)
  {
    hide Window, IndexBit, Bit;
    WindowBit(m, base, len, j);
    BitPosition(len, j);
  }

  lemma BitPosition(len: nat, j: nat)
    requires j < WINDOW
    ensures var k := len % 8 + j;
            && (len + j) / 8 == len / 8 + (if k < 8 then 0 else if k < 16 then 1 else 2)
            && (len + j) % 8 == (if k < 8 then k else if k < 16 then k - 8 else k - 16)
  {
  }

  /** Where a symbol's code stands in the stream, agreeing tables decode that symbol, whatever bits
      follow the code. */
  lemma DecodesSymbol(t: Tables, m: seq<byte>, base: nat, len: nat, s: byte)
    requires Agree(t) && base + len / 8 + 2 < |m|
    requires forall j: nat | j < t.enc[s].len :: StreamBit(m, base, len + j) == CodeBits(t.enc[s])[j]
    ensures t.dec[Window(m, base, len)] == DecEntry(s, t.enc[s].len)
  {
    var index := Window(m, base, len);
    forall j: nat | j < t.enc[s].len ensures IndexBit(index, j) == CodeBit(t.enc[s].code, j) {
      WindowIsNextBits(m, base, len, j);
      assert StreamBit(m, base, len + j) == CodeBits(t.enc[s])[j];
    }
    assert StartsWith(index, t.enc[s]);
  }

  /** huffdecbyte */
  method DecByte(t: Tables, m: seq<byte>, base: nat, len: nat) returns (value: byte, newLen: nat)
    requires Shape(t) && base + len / 8 + 2 < |m|
    ensures newLen >= len && DecEntry(value, newLen - len) == t.dec[Window(m, base, len)]
  {
    hide Swap, Or, Shl, Shr, Bit;
    var o, r := base + len / 8, len % 8;
    var index := U16(Shl(Swap(m[o]), r + 8));
    index := U16(Or(index, Shl(Swap(m[o + 1]), r)));
    index := U16(Or(index, Shr(Swap(m[o + 2]), 8 - r)));
    index := index / 32;
    value, newLen := t.dec[index].value, len + t.dec[index].len;
  }

  // ---- Streams as bytes ----

  function FromBits(b: seq<bool>): nat {
    if b == [] then 0 else (if b[0] then 1 else 0) + 2 * FromBits(b[1..])
  }

  lemma {:induction false} BitOfFromBits(b: seq<bool>, i: nat)
    ensures Bit(FromBits(b), i) == (i < |b| && b[i])
    decreases i
  {
    if b == [] {
      BitOfZero(i);
    } else if i > 0 {
      BitOfFromBits(b[1..], i - 1);
    }
  }

  lemma {:induction false} FromBitsBound(b: seq<bool>)
    ensures FromBits(b) < Pow2(|b|)
  {
    if b != [] { FromBitsBound(b[1..]); }
  }

  function Octet(bits: seq<bool>, k: nat): (v: byte)
    requires k <= |bits| / 8
  {
    var b := bits[8 * k..if 8 * k + 8 < |bits| then 8 * k + 8 else |bits|];
    FromBitsBound(b);
    PowMonotone(|b|, 8);
    SmallPowers();
    FromBits(b)
  }

  /** The bits, least significant first, padded with zeros; a full last byte is followed by a zero one. */
  function Pack(bits: seq<bool>): (r: seq<byte>)
    ensures |r| == |bits| / 8 + 1
  {
    seq(|bits| / 8 + 1, k requires 0 <= k <= |bits| / 8 => Octet(bits, k))
  }

  lemma OctetBit(bits: seq<bool>, k: nat, i: nat)
    requires k <= |bits| / 8 && i < 8
    ensures Bit(Octet(bits, k), i) == (8 * k + i < |bits| && bits[8 * k + i])
  {
    BitOfFromBits(bits[8 * k..if 8 * k + 8 < |bits| then 8 * k + 8 else |bits|], i);
  }

  lemma PackHolds(bits: seq<bool>, i: nat)
    requires i < |bits|
    ensures StreamBit(Pack(bits), 0, i) == bits[i]
  {
    OctetBit(bits, i / 8, i % 8);
  }

  /** A clean stream in memory is exactly the packed bits. */
  lemma StreamIsPacked(m: seq<byte>, base: nat, bits: seq<bool>)
    requires base + |bits| / 8 < |m| && Clean(m, base, |bits|)
    requires forall i: nat | i < |bits| :: StreamBit(m, base, i) == bits[i]
    ensures m[base..base + |bits| / 8 + 1] == Pack(bits)
  {
    forall k: nat | k <= |bits| / 8 ensures m[base + k] == Octet(bits, k) {
      forall i: nat | i < 8 ensures Bit(m[base + k], i) == Bit(Octet(bits, k), i) {
        OctetBit(bits, k, i);
        if 8 * k + i < |bits| {
          assert StreamBit(m, base, 8 * k + i) == bits[8 * k + i];
        } else {
          assert k == |bits| / 8 && !Bit(ByteAt(m, base, |bits|), i);
        }
      }
      SmallPowers();
      SameBits(m[base + k], Octet(bits, k), 8);
    }
  }

  // ---- Huff_CompressPacket ----

  /** The coded form would save nothing. */
  predicate SentRaw(t: Tables, x: seq<byte>)
    requires Shape(t)
  {
    |Encoded(t, x)| / 8 >= |x|
  }

  /** The bytes of a compressed packet: a count of unused bits and the packed codes, or the marker
      0x80 and the bytes themselves. */
  function Compressed(t: Tables, x: seq<byte>): (y: seq<byte>)
    requires Shape(t)
    ensures 1 <= |y| <= |x| + 1
  {
    if SentRaw(t, x) then [0x80] + x
    else [8 - |Encoded(t, x)| % 8] + Pack(Encoded(t, x))
  }

  /** Of the two forms the shorter goes out, the coded one when they are equally long: its first byte counts one to
      eight unused bits, that of the other is 0x80. */
  lemma ShorterForm(t: Tables, x: seq<byte>)
    requires Shape(t)
    ensures var (y, coded, raw) := (Compressed(t, x), |Encoded(t, x)| / 8 + 2, |x| + 1);
            && |y| == (if coded <= raw then coded else raw)
            && (if coded <= raw then 1 <= y[0] <= 8 && 8 * (|y| - 1) - y[0] == |Encoded(t, x)|
                else y[0] == 128 && y[1..] == x)
  {
    hide Encoded, Pack;
  }

  /** The bytes from index 1 on carry the code of `x`. */
  ghost predicate Carries(t: Tables, m: seq<byte>, x: seq<byte>)
    requires Shape(t) && 1 + |Encoded(t, x)| / 8 < |m|
  {
    && (forall i: nat | i < |Encoded(t, x)| :: StreamBit(m, 1, i) == Encoded(t, x)[i])
    && (x != [] ==> Clean(m, 1, |Encoded(t, x)|))
  }

  lemma CarriesOneMore(t: Tables, m0: seq<byte>, m: seq<byte>, x: seq<byte>, s: byte)
    requires Shape(t) && |m| == |m0| && 1 + (|Encoded(t, x)| + t.enc[s].len) / 8 < |m|
    requires Carries(t, m0, x)
    requires Grown(m0, m, 1, |Encoded(t, x)|, t.enc[s], |Encoded(t, x)| + t.enc[s].len)
    ensures |Encoded(t, x + [s])| == |Encoded(t, x)| + t.enc[s].len && Carries(t, m, x + [s])
  {
    assert (x + [s])[..|x|] == x;
  }

  lemma EncodedPrefixShorter(t: Tables, x: seq<byte>, i: nat)
    requires Shape(t) && i <= |x|
    ensures |Encoded(t, x[..i])| <= |Encoded(t, x)|
  {
    EncodedConcat(t, x[..i], x[i..]);
    assert x[..i] + x[i..] == x;
  }

  /** How many symbols the loop codes before it ends or gives up. */
  function CodedFrom(t: Tables, x: seq<byte>, i: nat): (n: nat)
    requires Shape(t) && i <= |x|
    ensures i <= n <= |x|
    decreases |x| - i
  {
    if i < |x| && |Encoded(t, x[..i])| / 8 < |x| then CodedFrom(t, x, i + 1) else i
  }

  /** The bits laid down when the loop ends. */
  function CodedBits(t: Tables, x: seq<byte>): nat
    requires Shape(t)
  {
    |Encoded(t, x[..CodedFrom(t, x, 0)])|
  }

  /** The highest index Huff_CompressPacket writes. */
  function Reach(t: Tables, x: seq<byte>): nat
    requires Shape(t)
  {
    if x == [] then 0 else Touched(1, CodedBits(t, x))
  }

  lemma {:induction false} CodedEnough(t: Tables, x: seq<byte>, i: nat)
    requires Shape(t) && i <= |x|
    requires i > 0 ==> |Encoded(t, x[..i - 1])| / 8 < |x|
    ensures var n := CodedFrom(t, x, i);
            && (n == |x| || |Encoded(t, x[..n])| / 8 >= |x|)
            && (n > 0 ==> |Encoded(t, x[..n - 1])| / 8 < |x|)
    decreases |x| - i
  {
    hide Encoded;
    if i < |x| && |Encoded(t, x[..i])| / 8 < |x| {
      CodedEnough(t, x, i + 1);
    }
  }

  lemma PrefixOneLonger(t: Tables, x: seq<byte>, n: nat)
    requires Shape(t) && n < |x|
    ensures |Encoded(t, x[..n + 1])| == |Encoded(t, x[..n])| + t.enc[x[n]].len
    ensures |Encoded(t, x[..n])| < |Encoded(t, x[..n + 1])| <= |Encoded(t, x[..n])| + WINDOW
  {
    hide Encoded, CodeBit;
    EncodedSnoc(t, x[..n], x[n]);
    assert x[..n] + [x[n]] == x[..n + 1];
  }

  /** A buffer one byte longer than a nonempty input is overrun if and only if the code of the input is longer
      than eight bits for each of its bytes but one. Three bytes past that are never touched. */
  lemma ReachIsExact(t: Tables, x: seq<byte>)
    requires Shape(t) && x != []
    ensures Reach(t, x) > |x| <==> |Encoded(t, x)| > 8 * (|x| - 1)
    ensures Reach(t, x) <= |x| + 3
  {
    assert |Encoded(t, x[..0])| == 0;
    hide Encoded, CodedFrom;
    CodedEnough(t, x, 0);
    var n := CodedFrom(t, x, 0);
    EncodedPrefixShorter(t, x, n);
    assert x[..|x|] == x;
    if n > 0 {
      PrefixOneLonger(t, x, n - 1);
    }
  }

  lemma ReachGrows(t: Tables, x: seq<byte>, i: nat, n: nat)
    requires Shape(t) && i < n <= |x| && n == CodedFrom(t, x, 0)
    ensures Touched(1, |Encoded(t, x[..i])| + t.enc[x[i]].len) <= Reach(t, x)
  {
    hide Encoded, CodeBit, CodedFrom;
    EncodedSnoc(t, x[..i], x[i]);
    assert x[..i] + [x[i]] == x[..i + 1];
    EncodedPrefixShorter(t, x[..n], i + 1);
    assert x[..n][..i + 1] == x[..i + 1];
  }

  /** The first symbols of an input, laid down from index 1. */
  ghost predicate Coding(t: Tables, m0: seq<byte>, m: seq<byte>, x: seq<byte>, i: nat, outlen: nat)
    requires Shape(t) && i <= |x|
  {
    && |m| == |m0| && outlen == |Encoded(t, x[..i])| && CodedFrom(t, x, i) == CodedFrom(t, x, 0)
    && (x == [] || Touched(1, outlen) <= Reach(t, x) < |m|) && 1 + outlen / 8 < |m|
    && (i == 0 ==> m == m0) && Carries(t, m, x[..i]) && m[Touched(1, outlen) + 1..] == m0[Touched(1, outlen) + 1..]
  }

  /** There is room for one more symbol. */
  lemma CodingRoom(t: Tables, m0: seq<byte>, m: seq<byte>, x: seq<byte>, i: nat, outlen: nat)
    requires CleanCodes(t) && i < |x| && Coding(t, m0, m, x, i, outlen) && outlen / 8 < |x|
    ensures Touched(1, outlen + t.enc[x[i]].len) < |m| && 1 + outlen / 8 < |m|
    ensures outlen % 8 != 0 ==> Clean(m, 1, outlen)
  {
    hide Carries, Encoded, Clean, Reach;
    ReachGrows(t, x, i, CodedFrom(t, x, 0));
    CarriesClean(t, m, x[..i]);
  }

  /** The symbol once laid down. */
  lemma CodingGrows(t: Tables, m0: seq<byte>, m: seq<byte>, r: seq<byte>, x: seq<byte>, i: nat,
                    outlen: nat, newLen: nat)
    requires CleanCodes(t) && i < |x| && Coding(t, m0, m, x, i, outlen) && outlen / 8 < |x|
    requires |r| == |m| && newLen == outlen + t.enc[x[i]].len && Touched(1, newLen) < |r|
    requires Grown(m, r, 1, outlen, t.enc[x[i]], newLen) && r[Touched(1, newLen) + 1..] == m[Touched(1, newLen) + 1..]
    ensures Coding(t, m0, r, x, i + 1, newLen)
  {
    hide Carries, Grown, Encoded, CodeBit, Clean, Reach;
    ReachGrows(t, x, i, CodedFrom(t, x, 0));
    CarriesOneMore(t, m, r, x[..i], x[i]);
    assert x[..i + 1] == x[..i] + [x[i]];
    TailKept(m0, m, r, Touched(1, outlen) + 1, Touched(1, newLen) + 1);
  }

  /** One turn of the coding loop. */
  method CodeNext(t: Tables, x: seq<byte>, i: nat, ghost m0: seq<byte>, outbuf: array<byte>, outlen: nat)
    returns (newLen: nat)
    requires CleanCodes(t) && i < |x| && Coding(t, m0, outbuf[..], x, i, outlen) && outlen / 8 < |x|
    modifies outbuf
    ensures Coding(t, m0, outbuf[..], x, i + 1, newLen)
  {
    hide Coding, Grown, Clean;
    ghost var m := outbuf[..];
    CodingRoom(t, m0, m, x, i, outlen);
    newLen := EncByte(t, x[i], outbuf, 1, outlen);
    CodingGrows(t, m0, m, outbuf[..], x, i, outlen, newLen);
  }

  lemma CarriesClean(t: Tables, m: seq<byte>, x: seq<byte>)
    requires Shape(t) && 1 + |Encoded(t, x)| / 8 < |m| && Carries(t, m, x)
    ensures |Encoded(t, x)| % 8 != 0 ==> Clean(m, 1, |Encoded(t, x)|)
  {
  }

  lemma TailKept(a: seq<byte>, b: seq<byte>, c: seq<byte>, i: nat, j: nat)
    requires |a| == |b| == |c| && i <= j <= |a| && a[i..] == b[i..] && b[j..] == c[j..]
    ensures a[j..] == c[j..]
  {
    assert a[j..] == a[i..][j - i..] && b[j..] == b[i..][j - i..];
  }

  /** Huff_CompressPacket. Whatever `outbuflen` says, bytes are written up to index Reach, and none behind. */
  method CompressPacket(t: Tables, x: seq<byte>, outbuf: array<byte>, outbuflen: nat) returns (n: nat)
    requires CleanCodes(t) && (outbuflen > |x| ==> |x| < outbuf.Length && Reach(t, x) < outbuf.Length)
    requires outbuf.Length >= 2
    modifies outbuf
    ensures outbuflen <= |x| ==> n == 0 && outbuf[..] == old(outbuf[..])
    ensures outbuflen > |x| ==> n == |Compressed(t, x)| && outbuf[..n] == Compressed(t, x)
    ensures outbuflen > |x| ==> outbuf[Reach(t, x) + 1..] == old(outbuf[Reach(t, x) + 1..])
  {
    if !(outbuflen > |x|) {
      return 0;
    }
    var outlen: nat, i: nat := 0, 0;
    ghost var m0 := outbuf[..];
    StartCoding(t, x, m0);
    while i < |x| && outlen / 8 < |x|
      invariant 0 <= i <= |x| && Coding(t, m0, outbuf[..], x, i, outlen)
    {
      outlen := CodeNext(t, x, i, m0, outbuf, outlen);
      i := i + 1;
    }
    n := FinishPacket(t, x, i, m0, outbuf, outlen);
  }

  lemma StartCoding(t: Tables, x: seq<byte>, m0: seq<byte>)
    requires Shape(t) && |m0| >= 2 && Reach(t, x) < |m0|
    ensures Coding(t, m0, m0, x, 0, 0)
  {
    assert x[..0] == [];
  }

  /** The marker and the raw bytes, or the count of unused bits in front of the code. */
  method FinishPacket(t: Tables, x: seq<byte>, ghost i: nat, ghost m0: seq<byte>, outbuf: array<byte>, outlen: nat)
    returns (n: nat)
    requires Shape(t) && i <= |x| < outbuf.Length && Coding(t, m0, outbuf[..], x, i, outlen)
    requires i == |x| || outlen / 8 >= |x|
    modifies outbuf
    ensures n == |Compressed(t, x)| && outbuf[..n] == Compressed(t, x)
    ensures outbuf[Reach(t, x) + 1..] == m0[Reach(t, x) + 1..]
  {
    hide CodeBit, Octet, Encoded, Pack, Compressed, Coding, CodedFrom, Reach, SentRaw;
    ghost var m := outbuf[..];
    CodingOver(t, m0, m, x, i, outlen);
    if outlen / 8 >= |x| {
      StoreRaw(x, outbuf);
      RawTail(m0, m, outbuf[..], |x|, Touched(1, outlen), Reach(t, x));
      return |x| + 1;
    }
    outbuf[0] := 8 - outlen % 8;
    n := (outlen + 8) / 8 + 1;
    assert outbuf[..n] == [8 - outlen % 8] + m[1..n];
    assert outbuf[Reach(t, x) + 1..] == m[Reach(t, x) + 1..];
  }

  /** `outbuf[0] = 0x80; memcpy(outbuf + 1, inbuf, inbuflen)` */
  method StoreRaw(x: seq<byte>, outbuf: array<byte>)
    requires |x| < outbuf.Length
    modifies outbuf
    ensures outbuf[..|x| + 1] == [0x80] + x && outbuf[|x| + 1..] == old(outbuf[|x| + 1..])
  {
    forall k | 0 <= k < |x| {
      outbuf[1 + k] := x[k];
    }
    outbuf[0] := 0x80;
  }

  /** What the finished loop has laid down. */
  lemma CodingOver(t: Tables, m0: seq<byte>, m: seq<byte>, x: seq<byte>, i: nat, outlen: nat)
    requires Shape(t) && i <= |x| < |m| && Coding(t, m0, m, x, i, outlen) && (i == |x| || outlen / 8 >= |x|)
    ensures outlen / 8 >= |x| <==> SentRaw(t, x)
    ensures SentRaw(t, x) ==> Compressed(t, x) == [0x80] + x
    ensures x == [] ==> Reach(t, x) == 0 && m == m0
    ensures x != [] ==> Reach(t, x) == Touched(1, outlen)
    ensures |m| == |m0| && 1 + outlen / 8 < |m| && Touched(1, outlen) < |m|
    ensures Reach(t, x) < |m| && m[Reach(t, x) + 1..] == m0[Reach(t, x) + 1..]
    ensures m[Touched(1, outlen) + 1..] == m0[Touched(1, outlen) + 1..]
    ensures !SentRaw(t, x) ==> var n := (outlen + 8) / 8 + 1;
                               Compressed(t, x) == [8 - outlen % 8] + m[1..n] && n == |Compressed(t, x)|
  {
    EncodedPrefixShorter(t, x, i);
    assert i == CodedFrom(t, x, 0);
    if outlen / 8 < |x| {
      assert x[..i] == x;
      hide Octet, Pack;
      StreamIsPacked(m, 1, Encoded(t, x));
    }
  }

  lemma RawTail(m0: seq<byte>, m: seq<byte>, r: seq<byte>, n: nat, touched: nat, reach: nat)
    requires |m0| == |m| == |r| && n < |m| && touched < |m| && reach < |m|
    requires m[touched + 1..] == m0[touched + 1..] && r[n + 1..] == m[n + 1..]
    requires n > 0 ==> reach == touched > n
    requires n == 0 ==> reach == 0 && m[1..] == m0[1..]
    ensures r[reach + 1..] == m0[reach + 1..]
  {
    if n > 0 {
      TailKept(r, m, m0, n + 1, touched + 1);
    }
  }

  // ---- Huff_DecompressPacket ----

  /** The decoding loop from bit `pos`, with `count` bytes already written. */
  function Decode(t: Tables, m: seq<byte>, total: nat, pos: nat, count: nat): (r: seq<byte>)
    requires Shape(t) && total <= 8 * (|m| - 3)
    decreases MAX_MSGLEN - count
  {
    if pos < total && count < MAX_MSGLEN then
      var d := t.dec[Window(m, 1, pos)];
      [d.value] + Decode(t, m, total, pos + d.len, count + 1)
    else []
  }

  /** `n` bytes of memory that Huff_DecompressPacket can make sense of, and two bytes beyond them
      that it may look at. */
  predicate Readable(m: seq<byte>, n: nat) {
    1 <= n && n + 2 <= |m| && (m[0] == 0x80 || m[0] <= 8 * (n - 1))
  }

  function Decompressed(t: Tables, m: seq<byte>, n: nat): (r: seq<byte>)
    requires Shape(t) && Readable(m, n)
  {
    if m[0] == 0x80 then m[1..n] else Decode(t, m, 8 * (n - 1) - m[0], 0, 0)
  }

  /** Huff_DecompressPacket, writing at `off`. */
  method DecompressPacket(t: Tables, m: seq<byte>, inbuflen: nat, outbuf: array<byte>, off: nat, outbuflen: nat)
    returns (n: nat)
    requires Shape(t) && Readable(m, inbuflen)
    requires outbuflen >= inbuflen ==> off + |Decompressed(t, m, inbuflen)| <= outbuf.Length
    modifies outbuf
    ensures outbuflen < inbuflen ==> n == 0 && outbuf[..] == old(outbuf[..])
    ensures outbuflen >= inbuflen ==>
              && n == |Decompressed(t, m, inbuflen)|
              && Written(old(outbuf[..]), outbuf[..], off, Decompressed(t, m, inbuflen))
  {
    hide Written, Decode;
    if outbuflen < inbuflen {
      return 0;
    }
    if m[0] == 0x80 {
      forall k | 0 <= k < inbuflen - 1 {
        outbuf[off + k] := m[1 + k];
      }
      WrittenWhole(old(outbuf[..]), outbuf[..], off, m[1..inbuflen]);
      return inbuflen - 1;
    }
    n := DecodeLoop(t, m, 8 * (inbuflen - 1) - m[0], outbuf, off);
  }

  method DecodeLoop(t: Tables, m: seq<byte>, total: nat, outbuf: array<byte>, off: nat) returns (i: nat)
    requires Shape(t) && total <= 8 * (|m| - 3) && off + |Decode(t, m, total, 0, 0)| <= outbuf.Length
    modifies outbuf
    ensures i == |Decode(t, m, total, 0, 0)|
    ensures Written(old(outbuf[..]), outbuf[..], off, Decode(t, m, total, 0, 0))
  {
    hide Window, Written, Decode;
    ghost var all := Decode(t, m, total, 0, 0);
    assert all[0..] == all;
    var outlen := 0;
    i := 0;
    WrittenWhole(outbuf[..], outbuf[..], off, all[..0]);
    while outlen < total && i < MAX_MSGLEN
      invariant i <= |all| && i <= MAX_MSGLEN && all[i..] == Decode(t, m, total, outlen, i)
      invariant Written(old(outbuf[..]), outbuf[..], off, all[..i])
      decreases MAX_MSGLEN - i
    {
      ghost var before := outbuf[..];
      var value, len := DecByte(t, m, 1, outlen);
      DecodesNext(t, m, total, outlen, i, all);
      outbuf[off + i] := value;
      WrittenOneMore(old(outbuf[..]), before, outbuf[..], off, all, i);
      outlen := len;
      i := i + 1;
    }
    DecodeEnds(t, m, total, outlen, i);
    assert all[..i] == all;
  }

  /** The first byte decoded, and the rest. */
  lemma DecodesNext(t: Tables, m: seq<byte>, total: nat, pos: nat, i: nat, all: seq<byte>)
    requires Shape(t) && total <= 8 * (|m| - 3) && i <= |all| && all[i..] == Decode(t, m, total, pos, i)
    requires pos < total && i < MAX_MSGLEN
    ensures var d := t.dec[Window(m, 1, pos)];
            i < |all| && all[i] == d.value && all[i + 1..] == Decode(t, m, total, pos + d.len, i + 1)
  {
    hide Window;
    assert all[i..][1..] == all[i + 1..];
  }

  lemma DecodeEnds(t: Tables, m: seq<byte>, total: nat, pos: nat, i: nat)
    requires Shape(t) && total <= 8 * (|m| - 3)
    ensures pos >= total || i >= MAX_MSGLEN ==> Decode(t, m, total, pos, i) == []
  {
  }

  /** `m` is `m0` with `r` written at `off`. */
  ghost predicate Written(m0: seq<byte>, m: seq<byte>, off: nat, r: seq<byte>) {
    off + |r| <= |m0| && m == m0[..off] + r + m0[off + |r|..]
  }

  lemma WrittenWhole(m0: seq<byte>, m: seq<byte>, off: nat, r: seq<byte>)
    requires |m| == |m0| && off + |r| <= |m|
    requires forall k | 0 <= k < |m| :: m[k] == if off <= k < off + |r| then r[k - off] else m0[k]
    ensures Written(m0, m, off, r)
  {
  }

  lemma WrittenOneMore(m0: seq<byte>, m: seq<byte>, m': seq<byte>, off: nat, all: seq<byte>, i: nat)
    requires i < |all| && off + |all| <= |m0| && Written(m0, m, off, all[..i])
    requires m' == m[off + i := all[i]]
    ensures Written(m0, m', off, all[..i + 1])
  {
  }

  // ---- The round trip ----

  lemma EncodedSnoc(t: Tables, a: seq<byte>, s: byte)
    requires Shape(t)
    ensures Encoded(t, a + [s]) == Encoded(t, a) + CodeBits(t.enc[s])
  {
    assert (a + [s])[..|a|] == a;
  }

  /** The code of `x` is the code of what precedes byte `i`, that byte's, and that of the rest. */
  lemma EncodedAround(t: Tables, x: seq<byte>, i: nat)
    requires Shape(t) && i < |x|
    ensures Encoded(t, x[..i + 1]) == Encoded(t, x[..i]) + CodeBits(t.enc[x[i]])
    ensures Encoded(t, x) == Encoded(t, x[..i + 1]) + Encoded(t, x[i + 1..])
  {
    hide CodeBits, Encoded;
    EncodedSnoc(t, x[..i], x[i]);
    assert x[..i] + [x[i]] == x[..i + 1];
    EncodedConcat(t, x[..i + 1], x[i + 1..]);
    assert x[..i + 1] + x[i + 1..] == x;
  }

  /** Memory from index 1 on begins with these bits, and may be looked at two bytes further. */
  ghost predicate Begins(m: seq<byte>, bits: seq<bool>) {
    |bits| <= 8 * (|m| - 3) && forall k: nat | k < |bits| :: StreamBit(m, 1, k) == bits[k]
  }

  lemma SymbolAt(t: Tables, x: seq<byte>, m: seq<byte>, i: nat)
    requires Agree(t) && i < |x| && Begins(m, Encoded(t, x))
    ensures var (pos, e) := (|Encoded(t, x[..i])|, t.enc[x[i]]);
            && pos < |Encoded(t, x)| && |Encoded(t, x[..i + 1])| == pos + e.len
            && t.dec[Window(m, 1, pos)] == DecEntry(x[i], e.len)
  {
    hide Window, Encoded, CodeBit;
    var (bits, pos, e) := (Encoded(t, x), |Encoded(t, x[..i])|, t.enc[x[i]]);
    EncodedAround(t, x, i);
    assert CodeBits(e) == bits[pos..pos + e.len];
    forall j: nat | j < e.len ensures StreamBit(m, 1, pos + j) == CodeBits(e)[j] {
      assert StreamBit(m, 1, pos + j) == bits[pos + j];
    }
    DecodesSymbol(t, m, 1, pos, x[i]);
  }

  lemma {:induction false} DecodesRest(t: Tables, x: seq<byte>, m: seq<byte>, i: nat)
    requires Agree(t) && i <= |x| && i <= MAX_MSGLEN && Begins(m, Encoded(t, x))
    ensures Decode(t, m, |Encoded(t, x)|, |Encoded(t, x[..i])|, i)
            == x[i..if |x| <= MAX_MSGLEN then |x| else MAX_MSGLEN]
    decreases |x| - i
  {
    hide Window, CodeBits, Encoded;
    if i == |x| {
      assert x[..i] == x;
    } else if i < MAX_MSGLEN {
      SymbolAt(t, x, m, i);
      DecodesRest(t, x, m, i + 1);
    }
  }

  lemma CompressedBegins(t: Tables, x: seq<byte>, m: seq<byte>)
    requires Shape(t) && !SentRaw(t, x)
    requires var y := Compressed(t, x); |y| + 2 <= |m| && m[..|y|] == y
    ensures Begins(m, Encoded(t, x))
    ensures m[0] != 0x80 && 8 * (|Compressed(t, x)| - 1) - m[0] == |Encoded(t, x)|
  {
    var (y, bits) := (Compressed(t, x), Encoded(t, x));
    assert m[0] == y[0];
    forall k: nat | k < |bits| ensures StreamBit(m, 1, k) == bits[k] {
      PackHolds(bits, k);
      assert m[1 + k / 8] == y[1 + k / 8] == Pack(bits)[k / 8];
    }
  }

  /** For agreeing tables, decompressing a compressed packet gives back the input, whatever bytes
      follow it in memory. Only a coded packet of more than 1450 bytes is cut short. */
  lemma RoundTrip(t: Tables, x: seq<byte>, m: seq<byte>)
    requires Agree(t)
    requires var y := Compressed(t, x); |y| + 2 <= |m| && m[..|y|] == y
    ensures var n := |Compressed(t, x)|;
            && Readable(m, n)
            && Decompressed(t, m, n) == if |x| <= MAX_MSGLEN || SentRaw(t, x) then x else x[..MAX_MSGLEN]
  {
    var y := Compressed(t, x);
    if SentRaw(t, x) {
      assert m[0] == y[0] && m[1..|y|] == m[..|y|][1..] == x;
    } else {
      CompressedBegins(t, x, m);
      DecodesRest(t, x, m, 0);
      assert x[..0] == [];
    }
  }

  // ---- Bytes that were never coded ----

  /** Decoding does not take fewer bits than coding: before the last byte is read there is still a bit left. */
  lemma {:induction false} DecodeIsSlow(t: Tables, m: seq<byte>, total: nat, pos: nat, count: nat)
    requires Shape(t) && Covers(t) && total <= 8 * (|m| - 3)
    ensures var r := Decode(t, m, total, pos, count);
            r != [] ==> pos + |Encoded(t, r[..|r| - 1])| < total
    decreases MAX_MSGLEN - count
  {
    hide Window, Covers;
    var r := Decode(t, m, total, pos, count);
    if r != [] {
      var d := t.dec[Window(m, 1, pos)];
      var rest := Decode(t, m, total, pos + d.len, count + 1);
      DecodeIsSlow(t, m, total, pos + d.len, count + 1);
      if rest == [] {
        assert r[..|r| - 1] == [];
      } else {
        AnswerCovers(t, Window(m, 1, pos));
        FirstCoded(t, d.value, rest[..|rest| - 1]);
        assert r[..|r| - 1] == [d.value] + rest[..|rest| - 1];
      }
    }
  }

  lemma AnswerCovers(t: Tables, index: nat)
    requires Shape(t) && Covers(t) && index < 2048
    ensures t.dec[index].len >= t.enc[t.dec[index].value].len
  {
  }

  lemma FirstCoded(t: Tables, s: byte, x: seq<byte>)
    requires Shape(t)
    ensures |Encoded(t, [s] + x)| == t.enc[s].len + |Encoded(t, x)|
  {
    hide CodeBit;
    EncodedConcat(t, [s], x);
    EncodedSnoc(t, [], s);
    assert [] + [s] == [s];
  }

  /** Bytes sent as they are and taken for a compressed packet. When compression would not have shortened them,
      the marker is dropped if they begin with it, and decoding stops short of the last byte if the first byte,
      taken for a count of unused bits, is not less than the code of the last. */
  lemma MisreadBytes(t: Tables, x: seq<byte>, rest: seq<byte>)
    requires Shape(t) && Covers(t) && 0 < |x| && 2 <= |rest| && |Compressed(t, x)| > |x|
    requires x[0] <= 8 * (|x| - 1)
    ensures Readable(x + rest, |x|)
    ensures x[0] == 0x80 ==> Decompressed(t, x + rest, |x|) == x[1..]
    ensures x[0] == 0x80 || x[0] >= t.enc[x[|x| - 1]].len ==> Decompressed(t, x + rest, |x|) != x
  {
    var m := x + rest;
    assert m[0] == x[0] && m[1..|x|] == x[1..];
    if x[0] != 0x80 && Decompressed(t, m, |x|) == x {
      hide Encoded, Decode;
      DecodeIsSlow(t, m, 8 * (|x| - 1) - x[0], 0, 0);
      PrefixOneLonger(t, x, |x| - 1);
      assert x[..|x|] == x;
    }
  }
}
