/** The sequencing state of the compiled client (src/netqw.c) as a value, on its undelayed path. */
module NetqwSpec {
  import opened Wire
  import opened NetchanSpec

  /** The fields of struct NetQW that drive reliable delivery. `sentXor` is incoming_reliable_xor,
      the bit the server should show once it has our bundle; `ackXor` is outgoing_reliable_xor. */
  datatype QwClient = QwClient(
    current: nat, lastIn: nat,
    buffersSent: nat, reliableSeq: nat, sentXor: bool, ackXor: bool,
    queue: seq<seq<byte>>)

  const LIMIT := 1450
  const HEADER := 10

  /** NetQW_Create followed by NetQW_Thread_Init; the sequence of the last bundle is not set there. */
  predicate Initial(c: QwClient) {
    c == QwClient(1, 0, 0, c.reliableSeq, false, false, [])
  }

  /** How many queued buffers go out behind `used` bytes: the longest prefix that keeps the packet
      below 1450 bytes. */
  function Fit(queue: seq<seq<byte>>, used: nat): (n: nat)
    ensures n <= |queue|
  {
    if queue == [] || used + |queue[0]| >= LIMIT then 0 else 1 + Fit(queue[1..], used + |queue[0]|)
  }

  /** Buffers that join the next packet, whose moves are `moves`. */
  function Bundle(c: QwClient, moves: seq<byte>): (n: nat)
    ensures n <= |c.queue|
  {
    if c.buffersSent == 0 then Fit(c.queue, HEADER + |moves|) else 0
  }

  function PacketOf(c: QwClient, moves: seq<byte>): Packet {
    var n := Bundle(c, moves);
    Packet(Header(c.current, n > 0, c.lastIn, c.ackXor), Flatten(c.queue[..n]), moves)
  }

  /** The bytes of that packet. */
  function DatagramOf(c: QwClient, qport: int, moves: seq<byte>): (r: seq<byte>)
    requires c.current < BIT31 && c.lastIn < BIT31 && 0 <= qport < 65536
    ensures |r| == HEADER + |moves| + |PacketOf(c, moves).reliable|
  {
    var p := PacketOf(c, moves);
    NetqwHeaderBytes(p.head) + LE16(qport) + moves + p.reliable
  }

  /** One turn of the send loop of NetQW_Thread_DoSend. */
  function Send(c: QwClient, moves: seq<byte>): QwClient {
    var n := Bundle(c, moves);
    if n > 0 then c.(current := c.current + 1, buffersSent := n, reliableSeq := c.current, sentXor := !c.sentXor)
    else c.(current := c.current + 1)
  }

  /** NetQW_AppendReliableBuffer */
  function Append(c: QwClient, buffer: seq<byte>): QwClient {
    c.(queue := c.queue + [buffer])
  }

  /** The two sequence checks of NetQW_Thread_DoReceive. */
  predicate Accepts(c: QwClient, h: Header) {
    h.seqNo > c.lastIn && h.ack < c.current
  }

  /** The server's packet number shows that it should have seen our bundle by now. */
  predicate Decides(c: QwClient, h: Header) {
    c.buffersSent > 0 && h.seqNo >= c.reliableSeq
  }

  /** How many buffers an accepted packet frees. */
  function Freed(c: QwClient, h: Header): (n: nat)
  {
    if Decides(c, h) && h.ackBit == c.sentXor then c.buffersSent else 0
  }

  /** NetQW_Thread_HandleReceivedPacket on a packet that passed the checks. */
  function Handle(c: QwClient, h: Header): QwClient
    requires c.buffersSent <= |c.queue|
  {
    var d := c.(lastIn := h.seqNo, ackXor := if h.hasReliable then !c.ackXor else c.ackXor);
    if !Decides(c, h) then d
    else if h.ackBit == c.sentXor then d.(buffersSent := 0, queue := c.queue[c.buffersSent..])
    else d.(buffersSent := 0, sentXor := !c.sentXor)
  }

  /** What the client thread appends. */
  function AppendAll(c: QwClient, buffers: seq<seq<byte>>): QwClient {
    c.(queue := c.queue + buffers)
  }

  /** The packet frees every buffer there is. */
  predicate Closes(c: QwClient, h: Header) {
    Freed(c, h) == |c.queue| > 0
  }

  /** The packet handled, with the client thread appending meanwhile: `early` before the loop takes the last
      buffer it frees, `late` after that and before the tail of the list is cleared. When the loop takes every
      buffer, what is late is not linked to anything. */
  function HandleAround(c: QwClient, h: Header, early: seq<seq<byte>>, late: seq<seq<byte>>): QwClient
    requires c.buffersSent <= |c.queue|
  {
    var c1 := AppendAll(c, early);
    if Closes(c1, h) then Handle(c1, h) else AppendAll(Handle(c1, h), late)
  }

  /** What of `late` no list leads to afterwards. */
  function LostAround(c: QwClient, h: Header, early: seq<seq<byte>>, late: seq<seq<byte>>): seq<seq<byte>> {
    if Closes(AppendAll(c, early), h) then late else []
  }

  /** Nothing is lost if nothing is late, or if another buffer waits behind the bundle. */
  lemma LostExactly(c: QwClient, h: Header, early: seq<seq<byte>>, late: seq<seq<byte>>)
    requires c.buffersSent <= |c.queue|
    ensures LostAround(c, h, early, late) == []
            <==> late == [] || Freed(c, h) == 0 || c.buffersSent < |c.queue| + |early|
  {
  }

  /** A bundle is the longest prefix that fits: each of its buffers fits behind those before it,
      and the next one, if any, does not. */
  lemma {:induction false} FitIsLongest(queue: seq<seq<byte>>, used: nat)
    ensures var n := Fit(queue, used);
            && (n > 0 ==> used + |Flatten(queue[..n])| < LIMIT)
            && (n < |queue| ==> used + |Flatten(queue[..n + 1])| >= LIMIT)
  {
    var n := Fit(queue, used);
    if n > 0 {
      FitIsLongest(queue[1..], used + |queue[0]|);
      SplitFirst(queue, n);
      if n < |queue| { SplitFirst(queue, n + 1); }
    } else if queue != [] {
      SplitFirst(queue, 1);
    }
  }

  lemma SplitFirst(queue: seq<seq<byte>>, n: nat)
    requires 0 < n <= |queue|
    ensures Flatten(queue[..n]) == queue[0] + Flatten(queue[1..][..n - 1])
  {
    assert queue[..n] == [queue[0]] + queue[1..][..n - 1];
    FlattenConcat([queue[0]], queue[1..][..n - 1]);
    FlattenOne(queue[0]);
  }

  /** What a server finds in it: the header of the protocol step, the qport in two bytes, the moves and the buffers
      that were bundled. */
  lemma DatagramRead(c: QwClient, qport: int, moves: seq<byte>)
    requires c.current < BIT31 && c.lastIn < BIT31 && 0 <= qport < 65536
    ensures var (b, p) := (DatagramOf(c, qport, moves), PacketOf(c, moves));
            && ParseHeader(b) == p.head && b[8..10] == [qport % 256, qport / 256]
            && b[10..10 + |moves|] == moves && b[10 + |moves|..] == p.reliable
            && |b| == 10 + |moves| + |p.reliable| && b[..8] == HeaderBytes(p.head)
  {
    hide NetqwHeaderBytes, HeaderBytes, ParseHeader, Fit, Flatten;
    var p := PacketOf(c, moves);
    assert LE(qport / 256, 1) == [qport / 256] by { assert LE(qport / 256 / 256, 0) == []; }
    HeaderRoundTrip(p.head, LE16(qport) + moves + p.reliable);
    assert DatagramOf(c, qport, moves) == NetqwHeaderBytes(p.head) + (LE16(qport) + moves + p.reliable);
  }
}
