/** Two net channels joined by a network that loses, duplicates and reorders datagrams.
    A datagram once sent stays in its set for ever and may be processed at any time, any number
    of times, or never. */
module NetchanProtocol {
  import opened Wire
  import opened NetchanSpec
  import opened ReliableDirection

  /** Everything one end owns: its channel, what it wrote and committed, what it was given, and
      every packet it ever sent. */
  datatype End = End(chan: Chan, written: seq<byte>, sent: seq<Message>, got: seq<Message>, out: set<Packet>)

  datatype System = System(here: End, there: End)

  /** One event at one end. */
  datatype Event =
    | Write(data: seq<byte>)
    | Transmit(data: seq<byte>)
    | Process(packet: Packet)

  datatype Step = Step(atHere: bool, event: Event)

  function Mirror(s: System): System {
    System(s.there, s.here)
  }

  function InitEnd(side: Side): End {
    End(Setup(side), [], [], [], {})
  }

  function Init(side: Side, peer: Side): System {
    System(InitEnd(side), InitEnd(peer))
  }

  function DoWrite(e: End, data: seq<byte>): End {
    if e.chan.aborted then e
    else e.(chan := NetchanSpec.Write(e.chan, data), written := e.written + data)
  }

  function DoTransmit(e: End, data: seq<byte>): End {
    e.(chan := NetchanSpec.Transmit(e.chan),
       sent := SentAfter(e.chan, e.sent),
       out := if CanTransmit(e.chan) then e.out + {PacketOf(e.chan, data)} else e.out)
  }

  /** A packet that was never sent, or that the sequence check refuses, changes nothing. */
  function DoProcess(e: End, p: Packet, network: set<Packet>): End {
    if p !in network || e.chan.aborted then e
    else e.(chan := NetchanSpec.Process(e.chan, p.head), got := GotAfter(e.chan.inSeq, p, e.got))
  }

  function HereStep(s: System, event: Event): System {
    s.(here := match event
               case Write(data) => DoWrite(s.here, data)
               case Transmit(data) => DoTransmit(s.here, data)
               case Process(p) => DoProcess(s.here, p, s.there.out))
  }

  function Next(s: System, step: Step): System {
    if step.atHere then HereStep(s, step.event) else Mirror(HereStep(Mirror(s), step.event))
  }

  function Run(s: System, steps: seq<Step>): System
    decreases |steps|
  {
    if steps == [] then s else Run(Next(s, steps[0]), steps[1..])
  }

  ghost predicate OneWay(s: System) {
    Inv(s.here.chan, s.there.chan.inSeq, s.there.chan.inRel, s.there.chan.outSeq,
        s.here.out, s.there.out, s.here.sent, s.there.got)
  }

  /** Nothing written is lost between the caller and the packets. */
  ghost predicate Staged(e: End) {
    !e.chan.overflowed ==> Flatten(e.sent) + e.chan.message == e.written
  }

  ghost predicate SystemInv(s: System) {
    OneWay(s) && OneWay(Mirror(s)) && Staged(s.here) && Staged(s.there)
  }

  lemma InitOneWay(side: Side, peer: Side)
    ensures SystemInv(Init(side, peer))
  {
  }

  lemma WriteKeeps(s: System, data: seq<byte>)
    requires SystemInv(s)
    ensures SystemInv(HereStep(s, Write(data)))
  {
    var (e, t) := (s.here, s.there);
    SenderWrites(e.chan, data, t.chan.inSeq, t.chan.inRel, t.chan.outSeq, e.out, t.out, e.sent, t.got);
    assert Flatten(e.sent) + (e.chan.message + data) == Flatten(e.sent) + e.chan.message + data;
  }

  lemma TransmitStages(e: End, data: seq<byte>)
    requires Staged(e)
    ensures Staged(DoTransmit(e, data))
  {
    assert (e.sent + [e.chan.message])[..|e.sent|] == e.sent;
  }

  lemma TransmitKeeps(s: System, data: seq<byte>)
    requires SystemInv(s)
    ensures SystemInv(HereStep(s, Transmit(data)))
  {
    var (e, t) := (s.here, s.there);
    TransmitStages(e, data);
    SenderTransmits(e.chan, data, t.chan.inSeq, t.chan.inRel, t.chan.outSeq, e.out, t.out, e.sent, t.got);
    if CanTransmit(e.chan) {
      ReceiverSends(t.chan, PacketOf(e.chan, data), e.chan.inSeq, e.chan.inRel, e.chan.outSeq,
                    t.out, e.out, t.sent, e.got);
    }
  }

  lemma ProcessKeeps(s: System, p: Packet)
    requires SystemInv(s)
    ensures SystemInv(HereStep(s, Process(p)))
  {
    var (e, t) := (s.here, s.there);
    if p in t.out && !e.chan.aborted && Live(p, e.chan.inSeq) {
      SenderHears(e.chan, p, t.chan.inSeq, t.chan.inRel, t.chan.outSeq, e.out, t.out, e.sent, t.got);
      ReceiverAccepts(t.chan, p, e.chan.inSeq, e.chan.inRel, e.chan.outSeq, t.out, e.out, t.sent, e.got);
    }
  }

  lemma NextKeeps(s: System, step: Step)
    requires SystemInv(s)
    ensures SystemInv(Next(s, step))
  {
    var s' := if step.atHere then s else Mirror(s);
    match step.event
    case Write(data) => WriteKeeps(s', data);
    case Transmit(data) => TransmitKeeps(s', data);
    case Process(p) => ProcessKeeps(s', p);
  }

  lemma {:induction false} RunKeeps(s: System, steps: seq<Step>)
    requires SystemInv(s)
    ensures SystemInv(Run(s, steps))
    decreases |steps|
  {
    if steps != [] {
      NextKeeps(s, steps[0]);
      RunKeeps(Next(s, steps[0]), steps[1..]);
    }
  }

  /** What the channel promises about the messages going from `e` to `t`: they arrive once each and
      in order, at most one is outstanding, and none when the sender holds no reliable message. */
  ghost predicate InOrderOnce(e: End, t: End) {
    && t.got <= e.sent && |e.sent| <= |t.got| + 1
    && (e.chan.unacked == [] ==> t.got == e.sent)
    && (!e.chan.overflowed ==> Flatten(t.got) <= e.written)
  }

  /** Safety: in every run, in both directions. */
  lemma DeliveredInOrderOnce(side: Side, peer: Side, steps: seq<Step>)
    ensures var s := Run(Init(side, peer), steps);
            InOrderOnce(s.here, s.there) && InOrderOnce(s.there, s.here)
  {
    InitOneWay(side, peer);
    RunKeeps(Init(side, peer), steps);
    var s := Run(Init(side, peer), steps);
    FlattenPrefix(s.there.got, s.here.sent);
    FlattenPrefix(s.here.got, s.there.sent);
  }

  /** When a resend is issued, no copy of any reliable message already sent can be accepted any
      more, so the receiver's blind flip stays in step; and the message really is missing. */
  lemma ResendIsSafe(side: Side, peer: Side, steps: seq<Step>)
    ensures var s := Run(Init(side, peer), steps);
            MustResend(s.here.chan) ==>
              && (forall p :: p in s.here.out && p.head.hasReliable ==> !Live(p, s.there.chan.inSeq))
              && |s.here.sent| == |s.there.got| + 1
              && s.here.chan.unacked == s.here.sent[|s.there.got|]
  {
    InitOneWay(side, peer);
    RunKeeps(Init(side, peer), steps);
  }

  /** The sender lets go of a reliable message only once the peer has it. */
  lemma ClearedOnlyWhenDelivered(side: Side, peer: Side, steps: seq<Step>, event: Event)
    ensures var s := Run(Init(side, peer), steps);
            var e := HereStep(s, event).here;
            s.here.chan.unacked != [] && e.chan.unacked != s.here.chan.unacked ==>
              && e.chan.unacked == [] && s.there.got == s.here.sent && s.there.got != []
              && s.there.got[|s.there.got| - 1] == s.here.chan.unacked
  {
    InitOneWay(side, peer);
    RunKeeps(Init(side, peer), steps);
  }

  // ---- Sys_Error ----

  /** A message is staged that a client's packet has no room for. */
  predicate Overlong(c: Chan) {
    c.side.Client? && !c.overflowed && c.unacked == [] && |c.message| > SEND_MAX - HeaderLen(Client)
  }

  /** What keeps resends from ever being too long. */
  predicate Sized(c: Chan, side: Side) {
    c.side == side && |c.message| <= MAX_MSGLEN && |c.unacked| <= SEND_MAX - HeaderLen(side)
  }

  lemma TransmitAborts(c: Chan, side: Side)
    requires Sized(c, side)
    ensures Sized(NetchanSpec.Transmit(c), side)
    ensures NetchanSpec.Transmit(c).aborted <==> c.aborted || Overlong(c)
  {
  }

  lemma NextSized(s: System, step: Step, side: Side, peer: Side)
    requires Sized(s.here.chan, side) && Sized(s.there.chan, peer)
    ensures var t := Next(s, step); Sized(t.here.chan, side) && Sized(t.there.chan, peer)
    ensures Next(s, step).here.chan.aborted
            <==> s.here.chan.aborted || (step.atHere && step.event.Transmit? && Overlong(s.here.chan))
  {
    TransmitAborts(s.here.chan, side);
    TransmitAborts(s.there.chan, peer);
  }

  /** Some transmit of the run finds an overlong message. */
  ghost predicate MeetsOverlong(s: System, steps: seq<Step>)
    decreases |steps|
  {
    steps != [] && ((steps[0].atHere && steps[0].event.Transmit? && Overlong(s.here.chan))
                    || MeetsOverlong(Next(s, steps[0]), steps[1..]))
  }

  lemma {:induction false} AbortsFrom(s: System, steps: seq<Step>, side: Side, peer: Side)
    requires Sized(s.here.chan, side) && Sized(s.there.chan, peer)
    ensures Run(s, steps).here.chan.aborted <==> s.here.chan.aborted || MeetsOverlong(s, steps)
    decreases |steps|
  {
    hide Sized, Next, Overlong;
    if steps != [] {
      NextSized(s, steps[0], side, peer);
      AbortsFrom(Next(s, steps[0]), steps[1..], side, peer);
    }
  }

  /** Over every run a channel ends in Sys_Error if and only if it is a client's and some transmit commits a
      message of 1449 or 1450 bytes. Resends never do it. */
  lemma AbortsExactly(side: Side, peer: Side, steps: seq<Step>)
    ensures Run(Init(side, peer), steps).here.chan.aborted <==> MeetsOverlong(Init(side, peer), steps)
  {
    AbortsFrom(Init(side, peer), steps, side, peer);
  }

  /** It happens: one full message, one transmit. */
  lemma LongMessageAborts(peer: Side, message: seq<byte>)
    requires MAX_MSGLEN - 1 <= |message| <= MAX_MSGLEN
    ensures Run(Init(Client, peer), [Step(true, Write(message)), Step(true, Transmit([]))]).here.chan.aborted
  {
    var s0 := Init(Client, peer);
    var steps := [Step(true, Write(message)), Step(true, Transmit([]))];
    var s1 := Next(s0, steps[0]);
    assert s1.here.chan.message == message;
    assert Run(s0, steps) == Run(s1, steps[1..]) && steps[1..] == [steps[1]];
    assert Run(s1, [steps[1]]) == Run(Next(s1, steps[1]), []);
  }

  /** A channel whose message has overflowed never sends again, whatever is written or received: nothing in the
      protocol clears the flag. */
  lemma {:induction false} OverflowSilences(s: System, steps: seq<Step>)
    requires s.here.chan.overflowed
    ensures var t := Run(s, steps);
            && t.here.chan.overflowed && t.here.out == s.here.out && t.here.sent == s.here.sent
            && t.here.chan.outSeq == s.here.chan.outSeq
    decreases |steps|
  {
    if steps != [] {
      OverflowStays(s, steps[0]);
      hide Next;
      OverflowSilences(Next(s, steps[0]), steps[1..]);
    }
  }

  lemma OverflowStays(s: System, step: Step)
    requires s.here.chan.overflowed
    ensures var t := Next(s, step);
            && t.here.chan.overflowed && t.here.out == s.here.out && t.here.sent == s.here.sent
            && t.here.chan.outSeq == s.here.chan.outSeq
  {
  }

  /** It happens exactly when more than 1450 bytes would be staged; what was staged before stays. */
  lemma OverflowsExactly(c: Chan, data: seq<byte>)
    ensures NetchanSpec.Write(c, data).overflowed <==> c.overflowed || |c.message| + |data| > 1450
    ensures c.message <= NetchanSpec.Write(c, data).message
  {
  }

  // ---- Progress ----

  predicate Fits(c: Chan, m: Message) {
    HeaderLen(c.side) + |m| <= SEND_MAX
  }

  /** Neither end has overflowed, and no reliable message is too long for its packets. */
  predicate Healthy(e: End) {
    !e.chan.aborted && !e.chan.overflowed && Fits(e.chan, e.chan.message) && Fits(e.chan, e.chan.unacked)
    && e.chan.outSeq > 0
  }

  /** `here` transmits and that very packet is processed by `there`. */
  function Hand(s: System, data: seq<byte>): System {
    var p := PacketOf(s.here.chan, data);
    Next(Next(s, Step(true, Transmit(data))), Step(false, Process(p)))
  }

  /** One loss-free exchange: `here` to `there`, then `there` to `here`. */
  function Exchange(s: System, data: seq<byte>, reply: seq<byte>): System {
    Mirror(Hand(Mirror(Hand(s, data)), reply))
  }

  lemma HandKeeps(s: System, data: seq<byte>)
    requires SystemInv(s) && Healthy(s.here) && Healthy(s.there)
    ensures var t := Hand(s, data);
            && SystemInv(t) && Healthy(t.here) && Healthy(t.there)
            && t.here == DoTransmit(s.here, data) && t.there.chan.outSeq == s.there.chan.outSeq
            && t.there.chan.inSeq == s.here.chan.outSeq
            && (SendsReliable(s.here.chan) ==> t.there.got == t.here.sent)
            && (s.there.chan.unacked == [] ==> t.there.chan.unacked == [])
            && t.there.chan.message == s.there.chan.message
            && t.there.sent == s.there.sent && t.there.written == s.there.written
  {
    var p := PacketOf(s.here.chan, data);
    var m := Next(s, Step(true, Transmit(data)));
    NextKeeps(s, Step(true, Transmit(data)));
    NextKeeps(m, Step(false, Process(p)));
    assert p in m.here.out && Live(p, m.there.chan.inSeq);
  }

  /** After an exchange the sender either holds nothing, or has proof that the message it still
      holds was missing as of the packet just sent. A reliable packet always gets through. */
  lemma ExchangeOutcome(s: System, data: seq<byte>, reply: seq<byte>)
    requires SystemInv(s) && Healthy(s.here) && Healthy(s.there)
    ensures var t := Exchange(s, data, reply);
            && SystemInv(t) && Healthy(t.here) && Healthy(t.there)
            && s.here.sent <= t.here.sent && t.here.written == s.here.written
            && t.here.chan.outSeq == s.here.chan.outSeq + 1
            && (SendsReliable(s.here.chan) || s.here.chan.unacked == [] ==> t.here.chan.unacked == [])
            && (s.here.chan.unacked == [] ==> t.here.chan.message == [])
            && (t.here.chan.unacked != [] ==>
                  && t.here.chan.unacked == s.here.chan.unacked
                  && t.here.chan.inAck == s.here.chan.outSeq && t.here.chan.lastRel == s.here.chan.lastRel
                  && t.here.chan.inAckBit != t.here.chan.relSeq)
  {
    HandKeeps(s, data);
    var m := Mirror(Hand(s, data));
    HandKeeps(m, reply);
    var q := PacketOf(m.here.chan, reply);
    var t := Exchange(s, data, reply);
    assert t.here.chan == NetchanSpec.Process(m.there.chan, q.head);
    if SendsReliable(s.here.chan) {
      assert |m.here.got| == |m.there.sent|;
      assert q.head.ackBit == m.here.chan.inRel;
    }
  }

  /** Three loss-free exchanges deliver and acknowledge whatever was outstanding. */
  lemma ThreeExchangesAcknowledge(s: System, d: seq<seq<byte>>)
    requires SystemInv(s) && Healthy(s.here) && Healthy(s.there) && |d| == 6
    ensures var t := Exchange(Exchange(Exchange(s, d[0], d[1]), d[2], d[3]), d[4], d[5]);
            && SystemInv(t) && Healthy(t.here) && Healthy(t.there) && t.here.written == s.here.written
            && t.here.chan.unacked == [] && t.there.got == t.here.sent && s.here.sent <= t.there.got
  {
    var s1 := Exchange(s, d[0], d[1]);
    var s2 := Exchange(s1, d[2], d[3]);
    ExchangeOutcome(s, d[0], d[1]);
    ExchangeOutcome(s1, d[2], d[3]);
    ExchangeOutcome(s2, d[4], d[5]);
    if s2.here.chan.unacked != [] {
      assert MustResend(s2.here.chan);
    }
  }

  /** One more exchange also empties the staging buffer: every byte written has arrived. */
  lemma FourExchangesDrain(s: System, d: seq<seq<byte>>)
    requires SystemInv(s) && Healthy(s.here) && Healthy(s.there) && |d| == 8
    ensures var t := Exchange(Exchange(Exchange(Exchange(s, d[0], d[1]), d[2], d[3]), d[4], d[5]), d[6], d[7]);
            t.here.chan.unacked == [] && t.here.chan.message == [] && Flatten(t.there.got) == s.here.written
  {
    ThreeExchangesAcknowledge(s, d[..6]);
    var s3 := Exchange(Exchange(Exchange(s, d[0], d[1]), d[2], d[3]), d[4], d[5]);
    ExchangeOutcome(s3, d[6], d[7]);
  }

  /** So from any state a run reaches, with both ends past their first packet and nothing overflowed: three
      exchanges acknowledge what was outstanding, and a fourth brings over every byte written. */
  lemma RunsCanBeDrained(side: Side, peer: Side, steps: seq<Step>, d: seq<seq<byte>>)
    requires var s := Run(Init(side, peer), steps); Healthy(s.here) && Healthy(s.there)
    requires |d| == 8
    ensures var s := Run(Init(side, peer), steps);
            var t := Exchange(Exchange(Exchange(s, d[0], d[1]), d[2], d[3]), d[4], d[5]);
            && t.here.chan.unacked == [] && t.there.got == t.here.sent && s.here.sent <= t.there.got
            && Flatten(Exchange(t, d[6], d[7]).there.got) == s.here.written
  {
    InitOneWay(side, peer);
    RunKeeps(Init(side, peer), steps);
    var s := Run(Init(side, peer), steps);
    ThreeExchangesAcknowledge(s, d[..6]);
    FourExchangesDrain(s, d);
  }

  /** Without a reliable packet an exchange brings back only the news that the message is missing. */
  lemma ExchangeStalls(s: System, data: seq<byte>, reply: seq<byte>)
    requires SystemInv(s) && Healthy(s.here) && Healthy(s.there)
    requires s.here.chan.unacked != [] && |s.there.got| < |s.here.sent| && !MustResend(s.here.chan)
    ensures var t := Exchange(s, data, reply);
            && t.here.chan.unacked == s.here.chan.unacked && |t.there.got| < |t.here.sent|
            && t.here.chan.lastRel == s.here.chan.lastRel && t.here.chan.inAck == s.here.chan.outSeq
  {
    HandKeeps(s, data);
    var m := Mirror(Hand(s, data));
    HandKeeps(m, reply);
    var q := PacketOf(m.here.chan, reply);
    assert Exchange(s, data, reply).here.chan == NetchanSpec.Process(m.there.chan, q.head);
    assert q.head.ackBit == s.there.chan.inRel;
  }

  /** Three is the least such number: when the message was lost in the very last packet, two
      exchanges are never enough. */
  lemma TwoExchangesAreTooFew(s: System, d: seq<seq<byte>>)
    requires SystemInv(s) && Healthy(s.here) && Healthy(s.there) && |d| == 4
    requires s.here.chan.unacked != [] && |s.there.got| < |s.here.sent|
    requires s.here.chan.lastRel == s.here.chan.outSeq
    ensures Exchange(Exchange(s, d[0], d[1]), d[2], d[3]).here.chan.unacked == s.here.chan.unacked
  {
    ExchangeStalls(s, d[0], d[1]);
    ExchangeOutcome(s, d[0], d[1]);
    ExchangeStalls(Exchange(s, d[0], d[1]), d[2], d[3]);
  }

  /** Such a state is reached by writing one byte and losing the packet that carries it. */
  lemma LateLossReachable()
    ensures exists steps :: var s := Run(Init(Client, Server), steps);
              && Healthy(s.here) && Healthy(s.there)
              && s.here.chan.unacked != [] && |s.there.got| < |s.here.sent|
              && s.here.chan.lastRel == s.here.chan.outSeq
  {
    var s0 := Init(Client, Server);
    var steps := [Step(true, Write([7])), Step(true, Transmit([])), Step(false, Transmit([]))];
    var s1 := Next(s0, steps[0]);
    var s2 := Next(s1, steps[1]);
    assert s2.here.chan == Chan(Client, 0, 0, false, false, 1, true, 1, [], false, [7], false);
    assert Run(s0, steps) == Run(s1, steps[1..]) == Run(s2, steps[1..][1..]);
    assert steps[1..][1..] == [steps[2]];
    assert Run(s2, [steps[2]]) == Run(Next(s2, steps[2]), []) == Next(s2, steps[2]);
  }
}
