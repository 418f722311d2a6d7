/** One direction of the alternating-bit channel: a sending net channel, the receiver's two
    variables, every packet ever sent each way, and the histories of what was committed and
    delivered. The same invariant serves netchan to netchan and netchan to netqw. */
module ReliableDirection {
  import opened Wire
  import opened NetchanSpec

  type Message = seq<byte>

  predicate Odd(n: nat) { n % 2 == 1 }

  /** A packet that a peer whose last accepted sequence number is `last` would still accept. */
  predicate Live(p: Packet, last: nat) {
    p.head.seqNo > last
  }

  /** The receiver's bit and history against the sender's. */
  ghost predicate Histories(s: Chan, rRel: bool, sent: seq<Message>, got: seq<Message>) {
    && got <= sent && |sent| <= |got| + 1
    && s.relSeq == Odd(|sent|) && rRel == Odd(|got|)
    && (s.unacked == [] ==> got == sent)
    && (s.unacked != [] ==> sent != [] && sent[|sent| - 1] == s.unacked)
  }

  /** Every reliable packet the receiver would still accept is the latest transmission of the one
      message it has not yet had. */
  ghost predicate Forward(s: Chan, rIn: nat, fwd: set<Packet>, sent: seq<Message>, got: seq<Message>) {
    && (rIn == 0 || rIn < s.outSeq)
    && s.lastRel <= s.outSeq
    && (forall p :: p in fwd ==> p.head.seqNo < s.outSeq)
    && (forall p :: p in fwd && p.head.hasReliable && Live(p, rIn) ==>
          && p.head.seqNo + 1 == s.lastRel && |got| < |sent|
          && p.reliable == sent[|sent| - 1])
  }

  /** What an acknowledgement (`ack`, `bit`) says about the sender's outstanding message. */
  ghost predicate AckMeaning(s: Chan, ack: nat, bit: bool, sent: seq<Message>, got: seq<Message>) {
    && (bit == s.relSeq ==> |got| == |sent|)
    && (bit != s.relSeq && ack >= s.lastRel ==> |got| < |sent|)
    && (s.unacked == [] ==> bit == s.relSeq)
  }

  ghost predicate Backward(s: Chan, rIn: nat, rOut: nat, back: set<Packet>, sent: seq<Message>, got: seq<Message>) {
    && s.inAck <= rIn && AckMeaning(s, s.inAck, s.inAckBit, sent, got)
    && (s.unacked != [] ==> s.inAckBit != s.relSeq)
    && (forall q :: q in back ==> q.head.ack <= rIn && q.head.seqNo < rOut)
    && (forall q :: q in back && Live(q, s.inSeq) ==> AckMeaning(s, q.head.ack, q.head.ackBit, sent, got))
    && (forall q1, q2 ::
          (q1 in back && q2 in back && Live(q1, s.inSeq) && q1.head.seqNo < q2.head.seqNo
           && q1.head.ackBit == s.relSeq) ==> q2.head.ackBit == s.relSeq)
  }

  ghost predicate Inv(s: Chan, rIn: nat, rRel: bool, rOut: nat, fwd: set<Packet>, back: set<Packet>,
                      sent: seq<Message>, got: seq<Message>) {
    Histories(s, rRel, sent, got) && Forward(s, rIn, fwd, sent, got) && Backward(s, rIn, rOut, back, sent, got)
  }

  /** The sent history after a transmit. */
  function SentAfter(s: Chan, sent: seq<Message>): seq<Message> {
    if CanTransmit(s) && MustCommit(s) then sent + [s.message] else sent
  }

  function GotAfter(last: nat, p: Packet, got: seq<Message>): seq<Message> {
    if Live(p, last) && p.head.hasReliable then got + [p.reliable] else got
  }

  /** The sender transmits, if it can. */
  lemma SenderTransmits(s: Chan, data: seq<byte>, rIn: nat, rRel: bool, rOut: nat, fwd: set<Packet>, back: set<Packet>,
                        sent: seq<Message>, got: seq<Message>)
    requires Inv(s, rIn, rRel, rOut, fwd, back, sent, got)
    ensures Inv(Transmit(s), rIn, rRel, rOut, if CanTransmit(s) then fwd + {PacketOf(s, data)} else fwd, back,
                SentAfter(s, sent), got)
  {
  }

  lemma SenderHears(s: Chan, q: Packet, rIn: nat, rRel: bool, rOut: nat, fwd: set<Packet>, back: set<Packet>,
                    sent: seq<Message>, got: seq<Message>)
    requires Inv(s, rIn, rRel, rOut, fwd, back, sent, got) && q in back
    ensures Inv(Process(s, q.head), rIn, rRel, rOut, fwd, back, sent, got)
  {
  }

  /** The receiver takes a packet that it has not overtaken and flips its bit for a reliable one. */
  lemma ReceiverAccepts(s: Chan, p: Packet, rIn: nat, rRel: bool, rOut: nat, fwd: set<Packet>, back: set<Packet>,
                        sent: seq<Message>, got: seq<Message>)
    requires Inv(s, rIn, rRel, rOut, fwd, back, sent, got) && p in fwd && Live(p, rIn)
    ensures Inv(s, p.head.seqNo, if p.head.hasReliable then !rRel else rRel, rOut, fwd, back,
                sent, GotAfter(rIn, p, got))
  {
  }

  /** The receiver sends any packet of its own, stamped with its two variables. */
  lemma ReceiverSends(s: Chan, q: Packet, rIn: nat, rRel: bool, rOut: nat, fwd: set<Packet>, back: set<Packet>,
                      sent: seq<Message>, got: seq<Message>)
    requires Inv(s, rIn, rRel, rOut, fwd, back, sent, got)
    requires q.head.seqNo == rOut && q.head.ack == rIn && q.head.ackBit == rRel
    ensures Inv(s, rIn, rRel, rOut + 1, fwd, back + {q}, sent, got)
  {
  }

  /** Writing more to the staging buffer leaves the direction alone. */
  lemma SenderWrites(s: Chan, data: seq<byte>, rIn: nat, rRel: bool, rOut: nat, fwd: set<Packet>, back: set<Packet>,
                     sent: seq<Message>, got: seq<Message>)
    requires Inv(s, rIn, rRel, rOut, fwd, back, sent, got)
    ensures Inv(Write(s, data), rIn, rRel, rOut, fwd, back, sent, got)
  {
  }

  /** Skipping sequence numbers is harmless. */
  lemma SenderSkips(s: Chan, n: nat, rIn: nat, rRel: bool, rOut: nat, fwd: set<Packet>, back: set<Packet>,
                    sent: seq<Message>, got: seq<Message>)
    requires Inv(s, rIn, rRel, rOut, fwd, back, sent, got) && s.outSeq <= n
    ensures Inv(s.(outSeq := n), rIn, rRel, rOut, fwd, back, sent, got)
  {
  }
}
