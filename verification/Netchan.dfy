/** struct netchan_s and the functions of src/net_chan.c that update it in place. */
module Netchan {
  import opened Wire
  import opened NetchanSpec

  /** What a call of Netchan_Transmit ends in. */
  datatype Outcome = NothingSent | SysError | Sent(packet: Packet)

  /** What `size` bytes cost at `rate` seconds a byte. */
  function Cost(size: nat, rate: real): real {
    size as real * rate
  }

  /** The clear time after a packet of `size` bytes goes out. */
  function Charge(cleartime: real, now: real, size: nat, rate: real, paused: bool): real {
    if paused then now
    else if cleartime < now then now + Cost(size, rate)
    else cleartime + Cost(size, rate)
  }

  const MAX_BACKUP := 200

  predicate BelowChoke(cleartime: real, now: real, rate: real) {
    cleartime < now + MAX_BACKUP as real * rate
  }

  /** A packet of `size` bytes keeps the clear time within the allowance and its own cost. */
  predicate ChargedWithin(cleartime: real, now: real, rate: real, size: nat) {
    Charge(cleartime, now, size, rate, false) < now + Cost(MAX_BACKUP + size, rate)
  }

  lemma ChokeMeans(cleartime: real, now: real, rate: real)
    requires rate > 0.0
    ensures BelowChoke(cleartime, now, rate) <==> forall size: nat :: ChargedWithin(cleartime, now, rate, size)
  {
    if BelowChoke(cleartime, now, rate) {
      forall size: nat ensures ChargedWithin(cleartime, now, rate, size) {
        ChargeStaysBelow(cleartime, now, size, rate, size);
      }
    } else {
      assert !ChargedWithin(cleartime, now, rate, 0);
    }
  }

  class NetChannel {
    const sock: Side
    const loopback: bool
    var incomingSequence: nat
    var incomingAcknowledged: nat
    var incomingReliableAcknowledged: bool
    var incomingReliableSequence: bool
    var outgoingSequence: nat
    var reliableSequence: bool
    var lastReliableSequence: nat
    var messageBuf: array<byte>
    var messageSize: nat
    var messageOverflowed: bool
    var reliableBuf: array<byte>
    var reliableLength: nat
    var processAborted: bool
    var cleartime: real
    var rate: real
    var dropped: int
    var dropCount: nat
    var goodCount: nat

    ghost predicate Valid()
      reads this
    {
      && messageBuf != reliableBuf
      && messageBuf.Length == MAX_MSGLEN && reliableBuf.Length == MAX_MSGLEN
      && messageSize <= MAX_MSGLEN && reliableLength <= MAX_MSGLEN
    }

    ghost function View(): Chan
      requires Valid()
      reads this, messageBuf, reliableBuf
    {
      Chan(sock, incomingSequence, incomingAcknowledged, incomingReliableAcknowledged, incomingReliableSequence,
           outgoingSequence, reliableSequence, lastReliableSequence,
           messageBuf[..messageSize], messageOverflowed, reliableBuf[..reliableLength], processAborted)
    }

    /** Netchan_Setup. The two buffers hold whatever was in memory. */
    constructor (sock: Side, loopback: bool)
      ensures Valid() && fresh(messageBuf) && fresh(reliableBuf)
      ensures View() == Setup(sock) && this.loopback == loopback
      ensures rate == 1.0 / 2500.0 && cleartime == 0.0 && dropped == 0 && dropCount == 0 && goodCount == 0
    {
      this.sock, this.loopback := sock, loopback;
      incomingSequence, incomingAcknowledged, outgoingSequence, lastReliableSequence := 0, 0, 0, 0;
      incomingReliableAcknowledged, incomingReliableSequence, reliableSequence := false, false, false;
      messageBuf, reliableBuf := new byte[MAX_MSGLEN], new byte[MAX_MSGLEN];
      messageSize, reliableLength := 0, 0;
      messageOverflowed, processAborted := false, false;
      cleartime, rate := 0.0, 1.0 / 2500.0;
      dropped, dropCount, goodCount := 0, 0, 0;
    }

    /** A MSG_Write* call on the channel's message. */
    method WriteMessage(data: seq<byte>)
      requires Valid()
      modifies this`messageSize, this`messageOverflowed, messageBuf
      ensures Valid() && View() == NetchanSpec.Write(old(View()), data)
    {
      if messageSize + |data| > MAX_MSGLEN {
        messageOverflowed := true;
      } else {
        forall i | 0 <= i < |data| {
          messageBuf[messageSize + i] := data[i];
        }
        messageSize := messageSize + |data|;
      }
    }

    /** Netchan_CanPacket: true exactly when a packet of any size may go without bringing the clear time more
        than that size and 200 bytes past the present. */
    method CanPacket(now: real) returns (ok: bool)
      ensures ok <==> loopback || BelowChoke(cleartime, now, rate)
      ensures rate > 0.0 ==>
                (ok <==> loopback || forall size: nat :: ChargedWithin(cleartime, now, rate, size))
    {
      if rate > 0.0 {
        ChokeMeans(cleartime, now, rate);
      }
      ok := loopback || cleartime < now + MAX_BACKUP as real * rate;
    }

    /** Netchan_CanReliable: no message is waiting for its acknowledgement and the choke is open. */
    method CanReliable(now: real) returns (ok: bool)
      requires Valid()
      ensures ok <==> View().unacked == [] && (loopback || BelowChoke(cleartime, now, rate))
    {
      if reliableLength != 0 {
        return false;
      }
      ok := CanPacket(now);
    }

    /** Netchan_Transmit. `wireSize` is what compression leaves of the datagram. */
    method Transmit(data: seq<byte>, now: real, wireSize: nat, paused: bool) returns (r: Outcome)
      requires Valid() && outgoingSequence < BIT31 && !processAborted
      modifies this`reliableLength, this`messageSize, this`reliableSequence, this`outgoingSequence,
               this`lastReliableSequence, this`processAborted, this`cleartime, reliableBuf
      ensures Valid()
      ensures View() == NetchanSpec.Transmit(old(View()))
      ensures r == if old(View()).overflowed then NothingSent
                   else if SendOverflows(old(View())) then SysError
                   else Sent(PacketOf(old(View()), data))
      ensures cleartime == if r.Sent? then Charge(old(cleartime), now, wireSize, rate, paused) else old(cleartime)
    {
      if messageOverflowed {
        return NothingSent;
      }
      var sendReliable, fits := PrepareReliable();
      if !fits {
        processAborted := true;
        return SysError;
      }
      var packet := WritePacket(sendReliable, data);
      r := Sent(packet);
      ChargeBandwidth(now, wireSize, paused);
    }

    /** Decide whether a reliable message goes out, and stage it if it can be sent at all. */
    method PrepareReliable() returns (sendReliable: bool, fits: bool)
      requires Valid()
      modifies this`reliableLength, this`messageSize, this`reliableSequence, reliableBuf
      ensures Valid() && sendReliable == SendsReliable(old(View())) && fits == !SendOverflows(old(View()))
      ensures View() == if fits then Commit(old(View())) else old(View())
    {
      // the peer's acknowledge bit shows that it missed our last message
      sendReliable := incomingAcknowledged > lastReliableSequence
                      && incomingReliableAcknowledged != reliableSequence;
      var commit := reliableLength == 0 && messageSize != 0;
      sendReliable := sendReliable || commit;
      var length := if commit then messageSize else reliableLength;
      fits := !sendReliable || (if sock.Client? then 10 else 8) + length <= SEND_MAX;
      if commit && fits {
        CopyMessageOut();
      }
    }

    /** Stage the message that was written to the channel. */
    method CopyMessageOut()
      requires Valid() && reliableLength == 0 && messageSize != 0
      modifies this`reliableLength, this`messageSize, this`reliableSequence, reliableBuf
      ensures Valid() && View() == Commit(old(View()))
    {
      forall i | 0 <= i < messageSize {
        reliableBuf[i] := messageBuf[i];
      }
      assert reliableBuf[..messageSize] == messageBuf[..messageSize];
      reliableLength := messageSize;
      messageSize := 0;
      reliableSequence := !reliableSequence;
    }

    /** The header and payload of the next packet; a reliable one is remembered by the sequence
        number that follows it. */
    method WritePacket(sendReliable: bool, data: seq<byte>) returns (p: Packet)
      requires Valid()
      modifies this`outgoingSequence, this`lastReliableSequence
      ensures Valid()
      ensures View() == old(View()).(outSeq := old(View()).outSeq + 1,
                                     lastRel := if sendReliable then old(View()).outSeq + 1 else old(View()).lastRel)
      ensures p.head == Header(old(View()).outSeq, sendReliable, View().inSeq, View().inRel)
      ensures p.reliable == if sendReliable then View().unacked else []
      ensures p.unreliable == if SEND_MAX - (HeaderLen(sock) + |p.reliable|) >= |data| then data else []
    {
      var head := Header(outgoingSequence, sendReliable, incomingSequence, incomingReliableSequence);
      outgoingSequence := outgoingSequence + 1;
      var size := if sock.Client? then 10 else 8;
      var rel := [];
      if sendReliable {
        rel := reliableBuf[..reliableLength];
        size := size + reliableLength;
        lastReliableSequence := outgoingSequence;
      }
      // unreliable data rides along only where it fits
      p := Packet(head, rel, if SEND_MAX - size >= |data| then data else []);
    }

    method ChargeBandwidth(now: real, size: nat, paused: bool)
      requires Valid()
      modifies this`cleartime
      ensures Valid() && View() == old(View())
      ensures cleartime == Charge(old(cleartime), now, size, rate, paused)
    {
      if cleartime < now {
        cleartime := now + size as real * rate;
      } else {
        cleartime := cleartime + size as real * rate;
      }
      if paused {
        cleartime := now;
      }
    }

    /** The sequencing part of an accepted packet. */
    method TakeHeader(h: Header)
      requires Valid() && Accepts(View(), h)
      modifies this`reliableLength, this`incomingSequence, this`incomingAcknowledged,
               this`incomingReliableAcknowledged, this`incomingReliableSequence
      ensures Valid() && View() == NetchanSpec.Process(old(View()), h)
    {
      // a matching bit means that the peer has our message
      if h.ackBit == reliableSequence {
        reliableLength := 0;
      }
      incomingSequence := h.seqNo;
      incomingAcknowledged := h.ack;
      incomingReliableAcknowledged := h.ackBit;
      if h.hasReliable {
        incomingReliableSequence := !incomingReliableSequence;
      }
    }

    /** Netchan_Process on a datagram with a whole header. */
    method Process(message: seq<byte>) returns (accepted: bool)
      requires Valid() && 8 <= |message|
      modifies this`reliableLength, this`incomingSequence, this`incomingAcknowledged,
               this`incomingReliableAcknowledged, this`incomingReliableSequence,
               this`dropped, this`dropCount, this`goodCount
      ensures Valid()
      ensures var h := ParseHeader(message);
              && accepted == Accepts(old(View()), h)
              && View() == NetchanSpec.Process(old(View()), h)
              && (accepted ==> dropped == h.seqNo - old(incomingSequence) - 1 && goodCount == old(goodCount) + 1
                               && dropCount == old(dropCount) + (if dropped > 0 then 1 else 0))
              && (!accepted ==> dropped == old(dropped) && goodCount == old(goodCount) && dropCount == old(dropCount))
    {
      var h := ParseHeader(message);
      // old news
      if h.seqNo <= incomingSequence {
        return false;
      }
      dropped := h.seqNo - (incomingSequence + 1);
      if dropped > 0 {
        dropCount := dropCount + 1;
      }
      TakeHeader(h);
      goodCount := goodCount + 1;
      return true;
    }
  }

  /** The datagram one channel sends is read by the other as the header the protocol steps use. */
  lemma DatagramHeader(c: Chan, data: seq<byte>, qport: int)
    requires c.outSeq < BIT31 && c.inSeq < BIT31 && 0 <= qport < 65536
    ensures var p := PacketOf(c, data);
            && ParseHeader(Datagram(c.side, qport, p)) == p.head
            && Datagram(c.side, qport, p)[HeaderLen(c.side)..]
               == p.reliable + (if HeaderLen(c.side) + |p.reliable| + |data| <= 1458 then data else [])
            && (c.side.Client? ==> Datagram(c.side, qport, p)[8..10] == [qport % 256, qport / 256])
            && (!SendOverflows(c) ==> |Datagram(c.side, qport, p)| <= SEND_MAX)
  {
    var p := PacketOf(c, data);
    assert LE(qport / 256, 1) == [qport / 256] by { assert LE(qport / 256 / 256, 0) == []; }
    HeaderRoundTrip(p.head, (if c.side.Client? then LE16(qport) else []) + (p.reliable + p.unreliable));
  }

  // ---- Bandwidth ----

  /** One transmit of `size` bytes at time `at`, with the server paused or not. */
  datatype Sending = Sending(at: real, size: nat, paused: bool)

  predicate Unpaused(run: seq<Sending>) {
    forall k | 0 <= k < |run| :: !run[k].paused
  }

  function TotalSize(run: seq<Sending>): nat {
    if run == [] then 0 else TotalSize(run[..|run| - 1]) + run[|run| - 1].size
  }

  function ClearAfter(cleartime: real, run: seq<Sending>, rate: real): real {
    if run == [] then cleartime
    else
      var last := run[|run| - 1];
      Charge(ClearAfter(cleartime, run[..|run| - 1], rate), last.at, last.size, rate, last.paused)
  }

  /** Every transmit of the run was allowed by Netchan_CanPacket, and time does not run backwards. */
  ghost predicate Paced(cleartime: real, run: seq<Sending>, rate: real) {
    && (forall k | 0 <= k < |run| :: BelowChoke(ClearAfter(cleartime, run[..k], rate), run[k].at, rate))
    && (forall j, k | 0 <= j <= k < |run| :: run[j].at <= run[k].at)
  }

  /** What the last transmits from number `k` on cost. */
  function CostFrom(run: seq<Sending>, k: nat, rate: real): real
    requires k <= |run|
  {
    TotalSize(run[k..]) as real * rate
  }

  /** The exact clear time after any run: the cost of everything on top of what it was, or the cost of the last
      transmits on top of the time of the first of them, whichever is latest. */
  lemma {:induction false} ClearTimeIs(cleartime: real, run: seq<Sending>, rate: real)
    requires Unpaused(run)
    ensures var c := ClearAfter(cleartime, run, rate);
            && c >= cleartime + CostFrom(run, 0, rate)
            && (forall k | 0 <= k < |run| :: c >= run[k].at + CostFrom(run, k, rate))
            && Latest(c, cleartime, run, rate)
    decreases |run|
  {
    if run == [] {
      CostOfNone(run, rate);
    } else {
      hide Cost, CostFrom;
      var n := |run| - 1;
      var before := run[..n];
      ClearTimeIs(cleartime, before, rate);
      forall k | 0 <= k < n ensures CostFrom(run, k, rate) == CostFrom(before, k, rate) + Cost(run[n].size, rate) {
        CostGrows(run, k, rate);
      }
      CostGrows(run, 0, rate);
      CostOfOne(run, rate);
      LatestGrows(cleartime, run, rate);
    }
  }

  /** Some transmit, or the clear time to begin with, decides. */
  ghost predicate Latest(c: real, cleartime: real, run: seq<Sending>, rate: real) {
    c == cleartime + CostFrom(run, 0, rate) || exists k :: 0 <= k < |run| && c == run[k].at + CostFrom(run, k, rate)
  }

  lemma LatestGrows(cleartime: real, run: seq<Sending>, rate: real)
    requires run != [] && !run[|run| - 1].paused
    requires Latest(ClearAfter(cleartime, run[..|run| - 1], rate), cleartime, run[..|run| - 1], rate)
    ensures Latest(ClearAfter(cleartime, run, rate), cleartime, run, rate)
  {
    hide Cost, CostFrom;
    var n := |run| - 1;
    var (before, c) := (run[..n], ClearAfter(cleartime, run[..n], rate));
    CostOfOne(run, rate);
    if c < run[n].at {
      assert ClearAfter(cleartime, run, rate) == run[n].at + CostFrom(run, n, rate);
    } else if c == cleartime + CostFrom(before, 0, rate) {
      CostGrows(run, 0, rate);
    } else {
      var k :| 0 <= k < n && c == before[k].at + CostFrom(before, k, rate);
      CostGrows(run, k, rate);
      assert ClearAfter(cleartime, run, rate) == run[k].at + CostFrom(run, k, rate);
    }
  }

  lemma CostOfNone(run: seq<Sending>, rate: real)
    ensures run == [] ==> CostFrom(run, 0, rate) == 0.0
  {
    assert 0 as real * rate == 0.0;
  }

  lemma CostGrows(run: seq<Sending>, k: nat, rate: real)
    requires k < |run|
    ensures CostFrom(run, k, rate)
            == CostFrom(run[..|run| - 1], k, rate) + Cost(run[|run| - 1].size, rate)
  {
    var n := |run| - 1;
    assert run[k..][..n - k] == run[..n][k..];
    CostOfSum(TotalSize(run[..n][k..]), run[n].size, rate);
  }

  lemma CostOfOne(run: seq<Sending>, rate: real)
    requires run != []
    ensures CostFrom(run, |run| - 1, rate) == Cost(run[|run| - 1].size, rate)
  {
    var one := run[|run| - 1..];
    assert TotalSize(one[..0]) == 0;
  }

  /** A transmit while the server is paused makes the channel forget everything before it: what follows is charged
      as if the clear time had been that moment, and the next packet may go at once. */
  lemma {:induction false} PauseForgets(cleartime: real, before: seq<Sending>, pause: Sending, after: seq<Sending>,
                                        rate: real)
    requires pause.paused
    ensures ClearAfter(cleartime, before + [pause] + after, rate) == ClearAfter(pause.at, after, rate)
    ensures rate > 0.0 ==> forall now | now >= pause.at ::
              BelowChoke(ClearAfter(cleartime, before + [pause], rate), now, rate)
    decreases |after|
  {
    assert (before + [pause])[..|before|] == before;
    if after == [] {
      assert before + [pause] + after == before + [pause];
    } else {
      var n := |after| - 1;
      PauseForgets(cleartime, before, pause, after[..n], rate);
      assert (before + [pause] + after)[..|before| + 1 + n] == before + [pause] + after[..n];
    }
  }

  /** After any run without a pause the clear time is at least the first instant plus the cost of all bytes. */
  lemma ClearTimeCovers(cleartime: real, run: seq<Sending>, rate: real)
    requires run != [] && Unpaused(run)
    ensures ClearAfter(cleartime, run, rate) >= run[0].at + Cost(TotalSize(run), rate)
  {
    hide *;
    ClearTimeIs(cleartime, run, rate);
    CostOfAll(run, rate);
  }

  lemma CostOfAll(run: seq<Sending>, rate: real)
    ensures CostFrom(run, 0, rate) == Cost(TotalSize(run), rate)
  {
    hide TotalSize;
    assert run[0..] == run;
  }

  lemma CostOfSum(a: nat, b: nat, rate: real)
    ensures Cost(a + b, rate) == Cost(a, rate) + Cost(b, rate)
  {
  }

  /** The choke bounds throughput over any run: what was sent, costed at `rate` seconds a byte, is
      less than the time elapsed plus the allowance of 200 bytes and one packet. */
  lemma ChokeBoundsBandwidth(cleartime: real, run: seq<Sending>, rate: real, maxSize: nat)
    requires run != [] && rate > 0.0 && Paced(cleartime, run, rate) && Unpaused(run)
    requires forall k | 0 <= k < |run| :: run[k].size <= maxSize
    ensures Cost(TotalSize(run), rate) < run[|run| - 1].at - run[0].at + Cost(200 + maxSize, rate)
  {
    hide Cost, TotalSize;
    var n := |run| - 1;
    ClearTimeCovers(cleartime, run, rate);
    ChargeStaysBelow(ClearAfter(cleartime, run[..n], rate), run[n].at, run[n].size, rate, maxSize);
  }

  lemma ChargeStaysBelow(cleartime: real, now: real, size: nat, rate: real, maxSize: nat)
    requires BelowChoke(cleartime, now, rate) && rate > 0.0 && size <= maxSize
    ensures Charge(cleartime, now, size, rate, false) < now + Cost(MAX_BACKUP + maxSize, rate)
  {
    assert (MAX_BACKUP + maxSize) as real * rate
           == MAX_BACKUP as real * rate + size as real * rate + (maxSize - size) as real * rate;
    assert MAX_BACKUP as real * rate > 0.0 && (maxSize - size) as real * rate >= 0.0;
  }
}
