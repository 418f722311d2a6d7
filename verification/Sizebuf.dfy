/** Compressing and decompressing a message in place behind its packet header
    (Huff_CompressPacketSizebuf and Huff_DecompressPacketSizebuf of src/net_chan.c). */
module Sizebuf {
  import opened Wire
  import opened Bits
  import opened Huffman
  import opened HuffmanPacket
  import Q3Tables

  /** sizeof(buf) in both functions. */
  const STACK_BUF := MAX_MSGLEN + 1

  /** The message after Huff_CompressPacketSizebuf. Compression refuses more than 1450 bytes by
      returning length 0. */
  function Packed(t: Tables, msg: seq<byte>, maxsize: nat, offset: nat): seq<byte>
    requires Shape(t)
  {
    if offset > |msg| then msg
    else
      var y := if |msg| - offset < STACK_BUF then Compressed(t, msg[offset..]) else [];
      if |y| + offset > maxsize then msg else msg[..offset] + y
  }

  /** The copy Huff_DecompressPacketSizebuf decodes from: the payload, then whatever the stack
      buffer (`stack`, with the two bytes after it) already held. */
  function Copied(msg: seq<byte>, offset: nat, stack: seq<byte>): (m: seq<byte>)
    requires offset < |msg| <= STACK_BUF && |stack| == STACK_BUF + 2
    ensures |m| == STACK_BUF + 2
  {
    msg[offset..] + stack[|msg| - offset..]
  }

  /** The length check that skips decompression. It counts the header as well. */
  predicate Skipped(msg: seq<byte>, offset: nat) {
    |msg| > STACK_BUF || |msg| < offset + 1
  }

  predicate Decodable(msg: seq<byte>, offset: nat, stack: seq<byte>) {
    |stack| == STACK_BUF + 2
    && (!Skipped(msg, offset) ==> Readable(Copied(msg, offset, stack), |msg| - offset))
  }

  /** The message after Huff_DecompressPacketSizebuf. */
  function Unpacked(t: Tables, msg: seq<byte>, offset: nat, stack: seq<byte>): seq<byte>
    requires Shape(t) && Decodable(msg, offset, stack)
  {
    if Skipped(msg, offset) then msg
    else msg[..offset] + Decompressed(t, Copied(msg, offset, stack), |msg| - offset)
  }

  lemma ReachIsShort(t: Tables, x: seq<byte>)
    requires Shape(t)
    ensures Reach(t, x) <= |x| + 3
  {
    hide CodedBits;
    if x != [] {
      ReachIsExact(t, x);
    }
  }

  /** struct sizebuf_s over an array of maxsize bytes. */
  class SizeBuf {
    const data: array<byte>
    var cursize: nat

    ghost predicate Valid()
      reads this
    {
      cursize <= data.Length
    }

    ghost function Contents(): seq<byte>
      requires Valid()
      reads this, data
    {
      data[..cursize]
    }

    /** SZ_Init */
    constructor (data: array<byte>)
      ensures Valid() && this.data == data && Contents() == []
    {
      this.data := data;
      cursize := 0;
    }

    /** Huff_CompressPacketSizebuf. The local buffer is given the three bytes behind it that the coder may
        touch; LocalBufferOverrun says when it does. */
    method CompressAt(t: Tables, offset: nat)
      requires Valid() && CleanCodes(t)
      modifies this`cursize, data
      ensures Valid() && Contents() == Packed(t, old(Contents()), data.Length, offset)
    {
      if offset > cursize {
        return;
      }
      ReachIsShort(t, data[offset..cursize]);
      hide Compressed, CleanCodes, Reach, Shape;
      var buf := new byte[STACK_BUF + 3];
      var newlen := CompressPacket(t, data[offset..cursize], buf, STACK_BUF);
      assert data[offset..cursize] == Contents()[offset..];
      if newlen + offset <= data.Length {
        Replace(offset, buf[..newlen]);
      }
    }

    /** `memcpy(msg->data + offset, ...)`, and the new size. */
    method Replace(offset: nat, bytes: seq<byte>)
      requires Valid() && offset <= cursize && offset + |bytes| <= data.Length
      modifies this`cursize, data
      ensures Valid() && Contents() == old(Contents())[..offset] + bytes
    {
      forall i | 0 <= i < |bytes| {
        data[offset + i] := bytes[i];
      }
      cursize := offset + |bytes|;
      assert data[..cursize] == old(data[..offset]) + bytes;
    }

    /** Huff_DecompressPacketSizebuf. `stack` is what its local buffer and the two bytes after it
        held on entry. */
    method DecompressAt(t: Tables, offset: nat, stack: seq<byte>)
      requires Valid() && Shape(t) && Decodable(Contents(), offset, stack)
      requires |Unpacked(t, Contents(), offset, stack)| <= data.Length
      modifies this`cursize, data
      ensures Valid() && Contents() == Unpacked(t, old(Contents()), offset, stack)
    {
      hide Decompressed, Readable, Shape;
      ghost var msg := Contents();
      if cursize > STACK_BUF || cursize < offset + 1 {
        return;
      }
      var buf := data[offset..cursize] + stack[cursize - offset..];
      assert buf == Copied(msg, offset, stack);
      var n := DecompressPacket(t, buf, cursize - offset, data, offset, data.Length - offset);
      cursize := n + offset;
      assert data[..cursize] == msg[..offset] + Decompressed(t, buf, |msg| - offset);
    }
  }

  /** Compressing writes behind the 1451 bytes of the local buffer if and only if the bits laid down when the
      loop ends are more than eight for each of 1449 bytes. */
  lemma LocalBufferOverrun(t: Tables, x: seq<byte>)
    requires Shape(t) && x != [] && |x| <= MAX_MSGLEN
    ensures Reach(t, x) >= STACK_BUF <==> CodedBits(t, x) > 8 * (STACK_BUF - 2)
    ensures |x| == MAX_MSGLEN ==> (Reach(t, x) >= STACK_BUF <==> |Encoded(t, x)| > 8 * (STACK_BUF - 2))
  {
    hide CodedBits, Encoded;
    ReachIsExact(t, x);
  }

  // ---- Through both ends ----

  lemma PackedFits(t: Tables, msg: seq<byte>, maxsize: nat, offset: nat)
    requires Shape(t) && offset <= |msg| <= maxsize && |msg| - offset <= MAX_MSGLEN
    ensures var wire := Packed(t, msg, maxsize, offset);
            || wire == msg[..offset] + Compressed(t, msg[offset..])
            || (wire == msg && |msg| == maxsize)
    ensures |msg| < maxsize ==> Packed(t, msg, maxsize, offset) == msg[..offset] + Compressed(t, msg[offset..])
  {
  }

  /** The header is never altered. */
  lemma HeaderKept(t: Tables, msg: seq<byte>, maxsize: nat, offset: nat, stack: seq<byte>)
    requires Agree(t) && offset <= |msg| <= maxsize && |msg| - offset <= MAX_MSGLEN
    requires Decodable(Packed(t, msg, maxsize, offset), offset, stack)
    ensures var wire := Packed(t, msg, maxsize, offset);
            && offset <= |wire| && wire[..offset] == msg[..offset]
            && offset <= |Unpacked(t, wire, offset, stack)|
            && Unpacked(t, wire, offset, stack)[..offset] == msg[..offset]
  {
    hide Compressed, Decompressed;
    PackedFits(t, msg, maxsize, offset);
  }

  /** With at most 1450 payload bytes, and either a byte of room or more than 1451 bytes in all, the
      receiver gets the message back exactly while the compressed message, header included, has at most
      1451 bytes; beyond that it keeps the bytes as they came. */
  lemma InPlaceRoundTrip(t: Tables, msg: seq<byte>, maxsize: nat, offset: nat, stack: seq<byte>)
    requires Agree(t) && offset <= |msg| <= maxsize && |msg| - offset <= MAX_MSGLEN
    requires |msg| < maxsize || |msg| > STACK_BUF
    requires |stack| == STACK_BUF + 2
    ensures var wire := Packed(t, msg, maxsize, offset);
            && Decodable(wire, offset, stack)
            && Unpacked(t, wire, offset, stack) == (if |wire| <= STACK_BUF then msg else wire)
  {
    hide Compressed, Decompressed;
    PackedFits(t, msg, maxsize, offset);
    var wire := Packed(t, msg, maxsize, offset);
    var y := Compressed(t, msg[offset..]);
    if |wire| <= STACK_BUF {
      assert wire[offset..] == y;
      var m := Copied(wire, offset, stack);
      assert m[..|y|] == y;
      RoundTrip(t, msg[offset..], m);
      assert msg[..offset] + msg[offset..] == msg && wire[..offset] == msg[..offset];
    }
  }

  /** A payload that goes out raw survives exactly when the whole message has at most 1450 bytes. */
  lemma RawRoundTrip(t: Tables, msg: seq<byte>, maxsize: nat, offset: nat, stack: seq<byte>)
    requires Agree(t) && offset <= |msg| && |msg| - offset <= MAX_MSGLEN && |msg| < maxsize
    requires |stack| == STACK_BUF + 2 && SentRaw(t, msg[offset..])
    ensures var wire := Packed(t, msg, maxsize, offset);
            Decodable(wire, offset, stack) && (Unpacked(t, wire, offset, stack) == msg <==> |msg| <= MAX_MSGLEN)
  {
    InPlaceRoundTrip(t, msg, maxsize, offset, stack);
    PackedFits(t, msg, maxsize, offset);
  }

  lemma {:induction false} LongCodes(t: Tables, x: seq<byte>, s: byte)
    requires Shape(t) && t.enc[s].len >= 8 && forall i | 0 <= i < |x| :: x[i] == s
    ensures |Encoded(t, x)| >= 8 * |x|
    decreases |x|
  {
    if x != [] {
      LongCodes(t, x[..|x| - 1], s);
      EncodedSnoc(t, x[..|x| - 1], x[|x| - 1]);
      assert x[..|x| - 1] + [x[|x| - 1]] == x;
    }
  }

  /** With the tables in use, 1450 bytes of value 20 do it. */
  lemma LongPayloadOverruns()
    ensures var x: seq<byte> := seq(MAX_MSGLEN, i => 20);
            Shape(Q3Tables.Tables()) && Reach(Q3Tables.Tables(), x) >= STACK_BUF
  {
    hide Q3Tables.Expand, Reach, Encoded;
    var t := Q3Tables.Tables();
    Q3Tables.TablesAgree();
    var x: seq<byte> := seq(MAX_MSGLEN, i => 20);
    assert t.enc[20] == EncEntry(10, 0xbb80) by { assert Q3Tables.Enc(20) == EncEntry(10, 0xbb80); }
    LongCodes(t, x, 20);
    LocalBufferOverrun(t, x);
  }

  /** With the tables in use, such messages exist: a server packet of 1444 bytes of value 20 within
      every limit is not restored. */
  lemma LongMessageNotRestored(header: seq<byte>, stack: seq<byte>)
    requires |header| == 8 && |stack| == STACK_BUF + 2
    ensures var (t, msg) := (Q3Tables.Tables(), header + seq(1444, i => 20));
            && Shape(t) && |msg| - 8 <= MAX_MSGLEN && |msg| < MAX_MSGLEN + 8
            && var wire := Packed(t, msg, MAX_MSGLEN + 8, 8);
            Decodable(wire, 8, stack) && Unpacked(t, wire, 8, stack) != msg
  {
    hide Q3Tables.Expand;
    var t := Q3Tables.Tables();
    Q3Tables.TablesAgree();
    var x: seq<byte> := seq(1444, i => 20);
    var msg := header + x;
    assert msg[8..] == x;
    assert t.enc[20] == EncEntry(10, 0xbb80) by { assert Q3Tables.Enc(20) == EncEntry(10, 0xbb80); }
    LongCodes(t, x, 20);
    RawRoundTrip(t, msg, MAX_MSGLEN + 8, 8, stack);
  }
}
