/** Delta points: which packet asks the server for a delta, what for, and what the client thread is told. */
module DeltaPoints {
  import opened Wire
  import opened Usercmd
  import opened FramesSpec
  import opened MovePart
  import opened Frames

  // ---- On the wire ----

  /** What stands in the packet behind its three deltas. */
  function Behind(packet: Packet): seq<byte>
    requires MovePart.Valid(packet.part)
  {
    ExtrasRead(packet.part);
    Bytes(packet.part)[3 + |Chain(packet.part.c2, packet.part.c1, packet.part.c0)|..]
  }

  /** Whether that begins with a delta request, and for what. */
  predicate Asks(packet: Packet)
    requires MovePart.Valid(packet.part)
  {
    Behind(packet) != [] && Behind(packet)[0] == 5
  }

  function AskedFor(packet: Packet): int
    requires MovePart.Valid(packet.part)
  {
    if |Behind(packet)| > 1 then Behind(packet)[1] else -1
  }

  predicate HasTeleport(x: Extra) {
    x.teleport.Some? ==> |x.teleport.value| == 6
  }

  /** The next packet asks for a delta if and only if its slot has a delta sequence, and then for that number's
      low byte. */
  lemma RequestRead(p: Pipe, x: Extra)
    requires Shaped(p) && HasTeleport(x)
    ensures var d := p.slots[Slot(p.current)].deltaSequence;
            && (Asks(PacketOf(p, x)) <==> d != -1)
            && (d != -1 ==> AskedFor(PacketOf(p, x)) == d % 256)
  {
    hide Chain, Slot, Bytes;
    ExtrasRead(PacketOf(p, x).part);
  }

  /** From any state that a run reaches with an empty queue: a delta point is set, a frame generated. The packet
      asks for a delta if and only if the point is set and belongs to one of the last 64 packets. */
  lemma NextPacketAsks(es: seq<Event>, l: Log, point: int, m: Move, x: Extra)
    requires Runs(Start(), es, l) && Shaped(l.pipe) && l.pipe.toSend == 0 && HasTeleport(x)
    requires l.pipe.current < BIT31 && -BIT31 <= point < BIT31
    ensures var r := Step(Step(l, DeltaPoint(point)), Generated(m));
            && r.pipe.toSend == 1
            && (Asks(PacketOf(r.pipe, x)) <==> point != -1 && l.pipe.current - 64 < point <= l.pipe.current)
            && (Asks(PacketOf(r.pipe, x)) ==> AskedFor(PacketOf(r.pipe, x)) == point % 256)
  {
    hide Asks, AskedFor, Runs, PacketOf, Step, DeltaUsable, Slot;
    ReachedAtRest(es, l);
    Usable(l.pipe.current, point);
    PointTaken(l, point, m);
    RequestRead(Step(Step(l, DeltaPoint(point)), Generated(m)).pipe, x);
  }

  lemma ReachedAtRest(es: seq<Event>, l: Log)
    requires Runs(Start(), es, l)
    ensures Shaped(l.pipe) && l.pipe.current == l.pipe.lastSent + 1
  {
    hide Live, Step, Runs;
    StartIsGood();
    RunStays(Start(), es, l);
  }

  lemma PointTaken(l: Log, point: int, m: Move)
    requires Shaped(l.pipe) && l.pipe.current == l.pipe.lastSent + 1 && l.pipe.toSend == 0
    ensures var r := Step(Step(l, DeltaPoint(point)), Generated(m));
            && r.pipe.toSend == 1 && Shaped(r.pipe)
            && r.pipe.slots[Slot(r.pipe.current)].deltaSequence
               == if point != -1 && (l.pipe.current - point) % WORD < SLOTS then point else -1
  {
    hide Slot;
  }

  lemma Usable(current: nat, point: int)
    requires current < BIT31 && -BIT31 <= point < BIT31
    ensures (current - point) % WORD < SLOTS <==> current - 64 < point <= current
  {
  }

  /** No delta point has been set, and no frame in the ring has a delta sequence. */
  ghost predicate Unset(l: Log)
    requires Shaped(l.pipe)
  {
    && l.pipe.entityFrame == -1 && (forall i | 0 <= i < |l.asked| :: l.asked[i] == -1)
    && forall n {:trigger Numbered(l.history, n)} | 1 <= n && |l.history| - SLOTS < n <= |l.history| ::
         l.pipe.slots[Slot(n)].deltaSequence == -1
  }

  lemma StaysUnset(l: Log, e: Event)
    requires Base(l) && Unset(l) && Enabled(l.pipe, e) && !e.DeltaPoint?
    ensures Unset(Step(l, e))
  {
    hide Live;
    var r := Step(l, e);
    if e.Copied? {
      CopierCounts(l.pipe, |l.copied|);
    } else if e.Sent? {
      NextIsUnset(l);
    }
    hide CopyAll;
    forall n | 1 <= n && |r.history| - SLOTS < n <= |r.history|
      ensures r.pipe.slots[Slot(n)].deltaSequence == -1
    {
      assert n <= |l.history| ==> Numbered(l.history, n) == Numbered(r.history, n);
    }
  }

  /** The next packet's slot holds the newest frame that shares it. */
  lemma NextIsUnset(l: Log)
    requires Base(l) && Unset(l) && l.pipe.toSend > 0
    ensures NextDelta(l.pipe) == -1
  {
    hide Live;
    var (total, k) := (|l.history|, |l.sent| + 1);
    HeldInSlot(total, k);
    assert Held(total, k) >= k by { assert (total - k) / SLOTS >= 0; }
    assert Numbered(l.history, Held(total, k)) == l.history[Held(total, k) - 1];
  }

  lemma {:induction false} RunStaysUnset(l: Log, es: seq<Event>, r: Log)
    requires Base(l) && Unset(l) && Runs(l, es, r) && forall i | 0 <= i < |es| :: !es[i].DeltaPoint?
    ensures Base(r) && Unset(r)
    decreases |es|
  {
    hide Step, Live, Unset;
    if es != [] {
      StepStays(l, es[0]);
      StaysUnset(l, es[0]);
      RunStaysUnset(Step(l, es[0]), es[1..], r);
    }
  }

  /** Over every run in which no delta point is set, no packet has asked for a delta, and the next will not. */
  lemma NoPointNoRequest(es: seq<Event>, l: Log, x: Extra)
    requires Runs(Start(), es, l) && (forall i | 0 <= i < |es| :: !es[i].DeltaPoint?)
    requires Shaped(l.pipe) && l.pipe.toSend > 0 && HasTeleport(x)
    ensures (forall i | 0 <= i < |l.asked| :: l.asked[i] == -1) && !Asks(PacketOf(l.pipe, x))
  {
    hide Live, Step, Runs, Asks, PacketOf, Slot;
    StartIsGood();
    RunStaysUnset(Start(), es, l);
    NextIsUnset(l);
    RequestRead(l.pipe, x);
  }

  // ---- In the caller's copy ----

  /** Every frame in the ring but the next one to be sent: a frame that went out has the delta sequence its packet
      went out with, one behind the next has none. */
  ghost predicate DeltasKept(l: Log)
    requires Shaped(l.pipe)
  {
    && |l.asked| == |l.sent|
    && forall n {:trigger Numbered(l.history, n)} |
         1 <= n && |l.history| - SLOTS < n <= |l.history| && n != |l.sent| + 1 ::
         l.pipe.slots[Slot(n)].deltaSequence == if n <= |l.sent| then l.asked[n - 1] else -1
  }

  /** No frame is generated over one that still waits to be sent. */
  ghost predicate Roomy(l: Log, es: seq<Event>)
    requires Shaped(l.pipe)
    decreases |es|
  {
    if es == [] || !Enabled(l.pipe, es[0]) then true
    else (es[0].Generated? ==> l.pipe.toSend < SLOTS) && Roomy(Step(l, es[0]), es[1..])
  }

  lemma GenerateKeepsDeltas(l: Log, m: Move)
    requires Base(l) && DeltasKept(l) && l.pipe.toSend < SLOTS
    ensures DeltasKept(Step(l, Generated(m)))
  {
    var r := Step(l, Generated(m));
    var filled := l.pipe.lastSent + l.pipe.toSend + 1;
    forall n | 1 <= n && |r.history| - SLOTS < n <= |r.history| && n != |r.sent| + 1
      ensures r.pipe.slots[Slot(n)].deltaSequence == if n <= |r.sent| then r.asked[n - 1] else -1
    {
      if n < l.pipe.current {
        SlotsDiffer(n, l.pipe.current);
      } else {
        SlotsDiffer(l.pipe.current, n);
      }
      if n < filled {
        SlotsDiffer(n, filled);
      }
      assert n < |r.history| ==> Numbered(l.history, n) == Numbered(r.history, n);
    }
  }

  lemma SendKeepsDeltas(l: Log)
    requires Base(l) && DeltasKept(l) && l.pipe.toSend > 0
    ensures DeltasKept(Step(l, Sent))
  {
    hide Slot;
    var r := Step(l, Sent);
    forall n | 1 <= n && |r.history| - SLOTS < n <= |r.history| && n != |r.sent| + 1
      ensures r.pipe.slots[Slot(n)].deltaSequence == if n <= |r.sent| then r.asked[n - 1] else -1
    {
      assert Numbered(l.history, n) == Numbered(r.history, n);
    }
  }

  /** Neither copying nor a new delta point touches the slots. */
  lemma SameSlots(l: Log, r: Log)
    requires Base(l) && DeltasKept(l) && Base(r)
    requires r.pipe.slots == l.pipe.slots && r.history == l.history && r.sent == l.sent && r.asked == l.asked
    ensures DeltasKept(r)
  {
    hide Slot, Live;
    forall n | 1 <= n && |r.history| - SLOTS < n <= |r.history| && n != |r.sent| + 1
      ensures r.pipe.slots[Slot(n)].deltaSequence == if n <= |r.sent| then r.asked[n - 1] else -1
    {
      assert Numbered(l.history, n) == Numbered(r.history, n);
    }
  }

  lemma StepKeepsDeltas(l: Log, e: Event)
    requires Base(l) && DeltasKept(l) && Enabled(l.pipe, e) && (e.Generated? ==> l.pipe.toSend < SLOTS)
    ensures DeltasKept(Step(l, e))
  {
    StepStays(l, e);
    hide Slot, Live, DeltasKept;
    match e {
      case Generated(m) => GenerateKeepsDeltas(l, m);
      case Sent => SendKeepsDeltas(l);
      case Copied => CopierCounts(l.pipe, |l.copied|); SameSlots(l, Step(l, e));
      case DeltaPoint(_) => SameSlots(l, Step(l, e));
    }
  }

  lemma {:induction false} RunKeepsDeltas(l: Log, es: seq<Event>, r: Log)
    requires Base(l) && DeltasKept(l) && Runs(l, es, r) && Roomy(l, es)
    ensures Base(r) && DeltasKept(r)
    decreases |es|
  {
    hide Step, Live, DeltasKept;
    if es != [] {
      StepStays(l, es[0]);
      StepKeepsDeltas(l, es[0]);
      RunKeepsDeltas(Step(l, es[0]), es[1..], r);
    }
  }

  /** Over every run that overwrites no waiting frame: the frame copied next comes with the delta sequence that
      its packet went out with, or will go out with as things stand, or with none if others wait before it. */
  lemma CopiedWithItsDelta(es: seq<Event>, l: Log)
    requires Runs(Start(), es, l) && Roomy(Start(), es) && Shaped(l.pipe) && 0 < l.pipe.toCopy <= SLOTS
    ensures var k := |l.copied| + 1;
            && |l.asked| == |l.sent|
            && NextCopied(l.pipe).deltaSequence
               == if k <= |l.sent| then l.asked[k - 1] else if k == |l.sent| + 1 then NextDelta(l.pipe) else -1
  {
    StartIsGood();
    RunKeepsDeltas(Start(), es, l);
    hide Live, Runs, Roomy;
    var k := |l.copied| + 1;
    assert Slot(l.pipe.lastCopied + 1) == Slot(k) by { SlotOfSlot(|l.copied|, 1); }
    assert Numbered(l.history, k) == l.history[k - 1];
  }
}
