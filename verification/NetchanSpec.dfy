/** The net channel of src/net_chan.c as a value: what one Transmit and one Process do to it. */
module NetchanSpec {
  import opened Wire

  /** enum netsrc */
  datatype Side = Client | Server

  /** One datagram. The wire carries `reliable + unreliable` as one payload; the split is kept
      here because the theorems speak of the reliable part only. */
  datatype Packet = Packet(head: Header, reliable: seq<byte>, unreliable: seq<byte>)

  /** The sequencing fields and reliable staging areas of struct netchan_s. `message` is
      message_buf[..message.cursize], `unacked` is reliable_buf[..reliable_length]; the single-bit
      counters are booleans. `aborted` says the process ended in Sys_Error. */
  datatype Chan = Chan(
    side: Side,
    inSeq: nat, inAck: nat, inAckBit: bool, inRel: bool,
    outSeq: nat, relSeq: bool, lastRel: nat,
    message: seq<byte>, overflowed: bool,
    unacked: seq<byte>,
    aborted: bool)

  const PACKET_HEADER := 8
  const SEND_MAX := MAX_MSGLEN + PACKET_HEADER

  /** Netchan_Setup */
  function Setup(side: Side): Chan {
    Chan(side, 0, 0, false, false, 0, false, 0, [], false, [], false)
  }

  /** Bytes before the payload: the client also writes its qport. */
  function HeaderLen(side: Side): nat {
    if side.Client? then 10 else 8
  }

  /** MSG_Write* to the channel's own buffer, which is created with allowoverflow set. */
  function Write(c: Chan, data: seq<byte>): Chan {
    if |c.message| + |data| > MAX_MSGLEN then c.(overflowed := true)
    else c.(message := c.message + data)
  }

  /** The peer has seen a later packet, but its acknowledge bit says the message got lost. */
  predicate MustResend(c: Chan) {
    c.inAck > c.lastRel && c.inAckBit != c.relSeq
  }

  predicate MustCommit(c: Chan) {
    c.unacked == [] && c.message != []
  }

  /** Copy the pending message into the reliable buffer and flip the sequence bit. */
  function Commit(c: Chan): Chan {
    if MustCommit(c) then c.(unacked := c.message, message := [], relSeq := !c.relSeq) else c
  }

  predicate SendsReliable(c: Chan) {
    MustResend(c) || MustCommit(c)
  }

  /** A client header leaves 1448 bytes, two fewer than a reliable message may have; the send
      buffer does not allow overflow, so SZ_Write ends the process. */
  predicate SendOverflows(c: Chan) {
    SendsReliable(c) && HeaderLen(c.side) + |Commit(c).unacked| > SEND_MAX
  }

  predicate CanTransmit(c: Chan) {
    !c.aborted && !c.overflowed && !SendOverflows(c)
  }

  /** The packet Netchan_Transmit sends for unreliable data `data`. */
  function PacketOf(c: Chan, data: seq<byte>): Packet {
    var rel := if SendsReliable(c) then Commit(c).unacked else [];
    Packet(Header(c.outSeq, SendsReliable(c), c.inSeq, c.inRel), rel,
           if SEND_MAX - (HeaderLen(c.side) + |rel|) >= |data| then data else [])
  }

  /** The channel after Netchan_Transmit. */
  function Transmit(c: Chan): Chan {
    if c.aborted || c.overflowed then c
    else if SendOverflows(c) then c.(aborted := true)
    else
      Commit(c).(outSeq := c.outSeq + 1, lastRel := if SendsReliable(c) then c.outSeq + 1 else c.lastRel)
  }

  predicate Accepts(c: Chan, h: Header) {
    h.seqNo > c.inSeq
  }

  /** The channel after Netchan_Process. */
  function Process(c: Chan, h: Header): Chan {
    if !Accepts(c, h) then c
    else c.(unacked := if h.ackBit == c.relSeq then [] else c.unacked,
            inSeq := h.seqNo, inAck := h.ack, inAckBit := h.ackBit,
            inRel := if h.hasReliable then !c.inRel else c.inRel)
  }

  /** The bytes of a datagram before compression. */
  function Datagram(side: Side, qport: int, p: Packet): (r: seq<byte>)
    requires InRange(p.head) && 0 <= qport < 65536
    ensures |r| == HeaderLen(side) + |p.reliable| + |p.unreliable|
    ensures r[HeaderLen(side)..] == p.reliable + p.unreliable
  {
    var head := HeaderBytes(p.head);
    head + ((if side.Client? then LE16(qport) else []) + (p.reliable + p.unreliable))
  }

  // ---- Streams ----

  /** A list of messages as one stream of bytes. */
  function Flatten(ms: seq<seq<byte>>): seq<byte> {
    if ms == [] then [] else Flatten(ms[..|ms| - 1]) + ms[|ms| - 1]
  }

  lemma {:induction false} FlattenConcat(a: seq<seq<byte>>, b: seq<seq<byte>>)
    ensures Flatten(a + b) == Flatten(a) + Flatten(b)
    decreases |b|
  {
    if b == [] {
      assert a + b == a;
    } else {
      var k := |b| - 1;
      assert (a + b)[..|a + b| - 1] == a + b[..k];
      FlattenConcat(a, b[..k]);
    }
  }

  lemma FlattenOne(m: seq<byte>)
    ensures Flatten([m]) == m
  {
    var one: seq<seq<byte>> := [m];
    assert one[..0] == [];
  }

  lemma {:induction false} FlattenPrefix(a: seq<seq<byte>>, b: seq<seq<byte>>)
    requires a <= b
    ensures Flatten(a) <= Flatten(b)
  {
    FlattenConcat(a, b[|a|..]);
    assert a + b[|a|..] == b;
  }
}
