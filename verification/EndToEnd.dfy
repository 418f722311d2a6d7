/** From one end's packet to the other end's reading of it: header layout, compression in place, the wire,
    decompression, header parsing. */
module EndToEnd {
  import opened Wire
  import opened NetchanSpec
  import opened Huffman
  import opened HuffmanPacket
  import opened Sizebuf
  import opened MovePart
  import Q3Tables
  import N = NetqwSpec

  /** What Netchan_Transmit hands to the socket. */
  function NetchanWire(t: Tables, c: Chan, qport: int, p: Packet): seq<byte>
    requires Shape(t) && InRange(p.head) && 0 <= qport < 65536
  {
    Packed(t, Datagram(c.side, qport, p), SEND_MAX, HeaderLen(c.side))
  }

  lemma HeaderOf(msg: seq<byte>, h: Header)
    requires InRange(h) && 8 <= |msg| && msg[..8] == HeaderBytes(h)
    ensures ParseHeader(msg) == h && NetqwParse(msg) == h
  {
    HeaderRoundTrip(h, msg[8..]);
    assert msg == HeaderBytes(h) + msg[8..];
  }

  lemma DatagramBegins(side: Side, qport: int, p: Packet)
    requires InRange(p.head) && 0 <= qport < 65536
    ensures var msg := Datagram(side, qport, p); 8 <= |msg| && msg[..8] == HeaderBytes(p.head)
  {
  }

  /** Netchan to netchan: whatever a channel may send, the other channel reads the same header from the wire,
      and gets the same payload unless the compressed datagram is longer than 1451 bytes. */
  lemma NetchanToNetchan(t: Tables, c: Chan, data: seq<byte>, qport: int, stack: seq<byte>)
    requires Agree(t) && !SendOverflows(c) && c.outSeq < BIT31 && c.inSeq < BIT31 && 0 <= qport < 65536
    requires |stack| == STACK_BUF + 2
    ensures var (p, off) := (PacketOf(c, data), HeaderLen(c.side));
            var wire := NetchanWire(t, c, qport, p);
            && |wire| >= 8 && ParseHeader(wire) == p.head
            && Decodable(wire, off, stack)
            && (|wire| <= STACK_BUF ==> Unpacked(t, wire, off, stack) == Datagram(c.side, qport, p))
            && (|wire| > STACK_BUF ==> Unpacked(t, wire, off, stack) == wire)
  {
    hide Packed, Unpacked, Shape, Datagram, HeaderBytes, ParseHeader;
    var (p, off) := (PacketOf(c, data), HeaderLen(c.side));
    var msg := Datagram(c.side, qport, p);
    DatagramBegins(c.side, qport, p);
    InPlaceRoundTrip(t, msg, SEND_MAX, off, stack);
    HeaderKept(t, msg, SEND_MAX, off, stack);
    var wire := NetchanWire(t, c, qport, p);
    assert wire[..8] == wire[..off][..8] == msg[..8];
    HeaderOf(wire, p.head);
  }

  // ---- The compiled client ----

  /** NetQW_Thread_SendPacket with compression on: the first ten bytes stay as they are. */
  function QwWire(t: Tables, buf: seq<byte>): seq<byte>
    requires Shape(t) && |buf| >= 10
  {
    buf[..10] + Compressed(t, buf[10..])
  }

  lemma QwDatagramFits(c: N.QwClient, qport: int, m: Moves)
    requires c.current < BIT31 && c.lastIn < BIT31 && 0 <= qport < 65536
    ensures 10 <= |N.DatagramOf(c, qport, Bytes(m))| < N.LIMIT
    ensures N.DatagramOf(c, qport, Bytes(m))[..8] == HeaderBytes(N.PacketOf(c, Bytes(m)).head)
  {
    hide NetqwHeaderBytes, HeaderBytes, N.Fit, Bytes, N.DatagramOf;
    var n := N.Bundle(c, Bytes(m));
    N.DatagramRead(c, qport, Bytes(m));
    if n > 0 {
      N.FitIsLongest(c.queue, N.HEADER + |Bytes(m)|);
    }
  }

  /** Client to server: every packet the client may send arrives whole, whatever the codes make of it. */
  lemma QwToNetchan(t: Tables, c: N.QwClient, qport: int, m: Moves, stack: seq<byte>)
    requires Agree(t) && c.current < BIT31 && c.lastIn < BIT31 && 0 <= qport < 65536 && |stack| == STACK_BUF + 2
    ensures var buf := N.DatagramOf(c, qport, Bytes(m));
            && |buf| >= 10 && Decodable(QwWire(t, buf), 10, stack)
            && Unpacked(t, QwWire(t, buf), 10, stack) == buf
            && ParseHeader(QwWire(t, buf)) == N.PacketOf(c, Bytes(m)).head
  {
    hide N.DatagramOf, Compressed, Shape, HeaderBytes, ParseHeader, Unpacked, Bytes;
    var buf := N.DatagramOf(c, qport, Bytes(m));
    QwDatagramFits(c, qport, m);
    var wire := QwWire(t, buf);
    assert wire[..8] == buf[..8];
    HeaderOf(wire, N.PacketOf(c, Bytes(m)).head);
    assert Packed(t, buf, STACK_BUF, 10) == wire;
    InPlaceRoundTrip(t, buf, STACK_BUF, 10, stack);
  }

  /** The receiving side of NetQW_Thread_DoReceive; `rest` is what follows the datagram in its buffer. */
  function QwUnpacked(t: Tables, wire: seq<byte>, rest: seq<byte>): seq<byte>
    requires Shape(t) && |wire| >= 8 && (|wire| > 8 ==> Readable(wire[8..] + rest, |wire| - 8))
  {
    if |wire| > 8 then wire[..8] + Decompressed(t, wire[8..] + rest, |wire| - 8) else wire
  }

  /** What the server's compression does to a message: it goes out packed if there is a byte of room or the packed
      payload is no longer than the payload, and as it is otherwise. */
  lemma ServerPacks(t: Tables, msg: seq<byte>)
    requires Shape(t) && 8 <= |msg| <= SEND_MAX
    ensures var y := Compressed(t, msg[8..]);
            Packed(t, msg, SEND_MAX, 8) == if |msg| < SEND_MAX || |y| <= |msg| - 8 then msg[..8] + y else msg
  {
    hide Compressed;
    assert |msg[8..]| == |msg| - 8;
  }

  /** Server to client: a datagram arrives whole if there is a byte of room in the server's buffer or compression
      does not lengthen the payload. */
  lemma NetchanToQw(t: Tables, c: Chan, data: seq<byte>, qport: int, rest: seq<byte>)
    requires Agree(t) && !SendOverflows(c) && c.side.Server? && c.outSeq < BIT31 && c.inSeq < BIT31
    requires 0 <= qport < 65536 && |rest| >= 2
    requires var msg := Datagram(c.side, qport, PacketOf(c, data));
             |msg| < SEND_MAX || |Compressed(t, msg[8..])| <= |msg| - 8
    ensures var p := PacketOf(c, data);
            var wire := NetchanWire(t, c, qport, p);
            && |wire| > 8 && Readable(wire[8..] + rest, |wire| - 8)
            && QwUnpacked(t, wire, rest) == Datagram(c.side, qport, p)
            && NetqwParse(QwUnpacked(t, wire, rest)) == p.head
  {
    hide Packed, Compressed, Decompressed, Readable, Shape, Datagram, HeaderBytes, NetqwParse, SentRaw;
    var p := PacketOf(c, data);
    var msg := Datagram(c.side, qport, p);
    DatagramBegins(c.side, qport, p);
    ServerPacks(t, msg);
    var wire := NetchanWire(t, c, qport, p);
    var y := Compressed(t, msg[8..]);
    assert wire[8..] == y && (y + rest)[..|y|] == y;
    RoundTrip(t, msg[8..], y + rest);
    assert msg == msg[..8] + msg[8..] && wire[..8] == msg[..8];
    HeaderOf(msg, p.head);
  }

  /** All other datagrams fill the server's buffer and go out as they are. A channel leaves so long a datagram
      alone, but the client decompresses it all the same. It drops the first payload byte if that is the marker
      0x80; otherwise it takes that byte for a count of unused bits, and does not get the last byte if the count
      is not less than the code of the last byte. */
  lemma FullDatagramMisread(t: Tables, c: Chan, data: seq<byte>, qport: int, rest: seq<byte>, stack: seq<byte>)
    requires Agree(t) && Covers(t) && !SendOverflows(c) && c.side.Server? && c.outSeq < BIT31 && c.inSeq < BIT31
    requires 0 <= qport < 65536 && |rest| >= 2 && |stack| == STACK_BUF + 2
    requires var msg := Datagram(c.side, qport, PacketOf(c, data));
             !(|msg| < SEND_MAX || |Compressed(t, msg[8..])| <= |msg| - 8)
    ensures var msg := Datagram(c.side, qport, PacketOf(c, data));
            NetchanWire(t, c, qport, PacketOf(c, data)) == msg && |msg| == SEND_MAX
    ensures var msg := Datagram(c.side, qport, PacketOf(c, data));
            Decodable(msg, 8, stack) && Unpacked(t, msg, 8, stack) == msg
    ensures var msg := Datagram(c.side, qport, PacketOf(c, data));
            && Readable(msg[8..] + rest, |msg| - 8)
            && (msg[8] == 0x80 ==> QwUnpacked(t, msg, rest) == msg[..8] + msg[9..])
            && (msg[8] == 0x80 || msg[8] >= t.enc[msg[|msg| - 1]].len ==> QwUnpacked(t, msg, rest) != msg)
  {
    hide Packed, Compressed, Decompressed, Readable, Covers, Agree, Datagram, Unpacked;
    var msg := Datagram(c.side, qport, PacketOf(c, data));
    AgreeShape(t);
    assert |msg| == SEND_MAX;
    ServerPacks(t, msg);
    var x := msg[8..];
    MisreadBytes(t, x, rest);
    InPlaceRoundTrip(t, msg, SEND_MAX, 8, stack);
    assert msg == msg[..8] + x && msg[9..] == x[1..];
    assert (msg[..8] + Decompressed(t, x + rest, |x|))[8..] == Decompressed(t, x + rest, |x|);
  }

  lemma AgreeShape(t: Tables)
    requires Agree(t)
    ensures Shape(t)
  {
  }

  /** A server channel that has been given one message of 1450 bytes `s`. */
  function FullChannel(s: byte): Chan {
    Write(Setup(Server), seq(MAX_MSGLEN, i => s))
  }

  lemma FullChannelSends(s: byte, qport: int)
    requires 0 <= qport < 65536
    ensures var c := FullChannel(s);
            && CanTransmit(c) && c.side.Server? && c.outSeq < BIT31 && c.inSeq < BIT31 && InRange(PacketOf(c, []).head)
            && var msg := Datagram(c.side, qport, PacketOf(c, []));
            |msg| == SEND_MAX && msg[8..] == seq(MAX_MSGLEN, i => s)
  {
    var x: seq<byte> := seq(MAX_MSGLEN, i => s);
    assert [] + x == x && x + [] == x;
  }

  lemma LongCodesLengthen(t: Tables, x: seq<byte>, s: byte)
    requires Shape(t) && t.enc[s].len >= 8 && forall i | 0 <= i < |x| :: x[i] == s
    ensures |Compressed(t, x)| == |x| + 1
  {
    hide Encoded;
    LongCodes(t, x, s);
  }

  /** With the tables in use, such datagrams leave a channel: 1450 bytes of a value from 11 on whose code has
      eight bits or more go out whole and are not what the client gets. Value 20 is one, with a code of ten. */
  lemma FullDatagramNotRestored(s: byte, qport: int, rest: seq<byte>)
    requires 0 <= qport < 65536 && |rest| >= 2 && s >= WINDOW && Q3Tables.Enc(s).len >= 8
    ensures Q3Tables.Enc(20).len >= 8
    ensures var (t, c) := (Q3Tables.Tables(), FullChannel(s));
            var msg := Datagram(c.side, qport, PacketOf(c, []));
            && Shape(t) && CanTransmit(c) && NetchanWire(t, c, qport, PacketOf(c, [])) == msg
            && |msg| > 8 && Readable(msg[8..] + rest, |msg| - 8) && QwUnpacked(t, msg, rest) != msg
  {
    assert Q3Tables.Enc(20) == EncEntry(10, 0xbb80);
    hide Q3Tables.Expand, Q3Tables.Enc, FullChannel, Datagram, PacketOf, Covers, Agree, Readable, QwUnpacked,
         Compressed, Decodable, Unpacked, NetchanWire, CanTransmit, Decompressed;
    var (t, c) := (Q3Tables.Tables(), FullChannel(s));
    Q3Tables.TablesAgree();
    Q3Tables.TablesCover();
    FullChannelSends(s, qport);
    var x: seq<byte> := seq(MAX_MSGLEN, i => s);
    LongCodesLengthen(t, x, s);
    FullDatagramMisread(t, c, [], qport, rest, seq(STACK_BUF + 2, i => 0));
  }
}
