/** The frame ring of struct NetQW, updated in place as src/netqw.c does. */
module Frames {
  import opened Wire
  import opened Usercmd
  import opened FramesSpec
  import opened MovePart
  import FrameClock

  /** A command with its frame time; locked movement keeps only where one looks. */
  function Stamped(cmd: Cmd, msec: byte, locked: bool): Cmd {
    if locked then cmd.(msec := msec, forwardmove := 0, sidemove := 0, upmove := 0) else cmd.(msec := msec)
  }

  /** Frame `i` of those generated together. */
  function Planned(carry: nat, period: nat, locked: bool, input: nat -> Move, i: nat): Move {
    Move(Stamped(input(i).cmd, FrameClock.Msec(carry, period, i), locked), input(i).senttime)
  }

  function GenerateMany(p: Pipe, carry: nat, period: nat, locked: bool, input: nat -> Move, n: nat): (q: Pipe)
    requires Shaped(p)
    ensures Shaped(q)
  {
    if n == 0 then p
    else Generate(GenerateMany(p, carry, period, locked, input, n - 1), Planned(carry, period, locked, input, n - 1))
  }

  /** What goes into the packets of one DoSend besides frames: the checksum of each by its number, the
      loss figure, and a teleport that the first packet takes along. */
  datatype Extra = Extra(checksum: nat -> byte, loss: byte, teleport: Option<seq<byte>>)

  datatype Packet = Packet(number: nat, part: MoveData)

  /** An unset delta point is all ones, and a set one is cut to a byte. */
  function DeltaByte(delta: int): Option<byte> {
    if delta == -1 then None else Some(delta % 256)
  }

  function PacketOf(p: Pipe, x: Extra): Packet
    requires Shaped(p)
  {
    var t := NextTriple(p);
    Packet(p.current, MoveData(x.checksum(p.current), x.loss, t.c2, t.c1, t.c0, DeltaByte(NextDelta(p)), x.teleport))
  }

  function SendMany(p: Pipe): (q: Pipe)
    requires Shaped(p)
    ensures Shaped(q)
    decreases p.toSend
  {
    if p.toSend == 0 then p else SendMany(Send(p))
  }

  function PacketsOf(p: Pipe, x: Extra): seq<Packet>
    requires Shaped(p)
    decreases p.toSend
  {
    if p.toSend == 0 then [] else [PacketOf(p, x)] + PacketsOf(Send(p), x.(teleport := None))
  }

  /** `buf` is what packet `p` is laid down as. */
  ghost predicate LaidDown(p: Packet, buf: seq<byte>) {
    MovePart.Valid(p.part) && buf == Bytes(p.part)
  }

  class FrameQueue {
    var frames: array<Frame>
    var lastsentframe: nat
    var framestosend: nat
    var lastcopiedframe: nat
    var framestocopy: nat
    var currentOutgoing: nat
    var lastEntityFrame: int
    var microsecondsperframe: nat
    var lastmovesendtime: int
    var movetimecounter: nat
    var movementLocked: bool
    var connected: bool
    var sendTmove: bool
    var tmoveBuffer: seq<byte>

    ghost predicate Valid()
      reads this
    {
      frames.Length == SLOTS && lastcopiedframe < SLOTS && microsecondsperframe > 0 && |tmoveBuffer| == 6
    }

    /** The teleport that waits to be sent. */
    function Teleport(): Option<seq<byte>>
      reads this
    {
      if sendTmove then Some(tmoveBuffer) else None
    }

    ghost function View(): Pipe
      requires Valid()
      reads this, frames
    {
      Pipe(frames[..], lastsentframe, framestosend, lastcopiedframe, framestocopy, currentOutgoing, lastEntityFrame)
    }

    /** NetQW_Create and NetQW_Thread_Init. */
    constructor ()
      ensures Valid() && fresh(frames) && View() == Init() && !connected && !movementLocked && !sendTmove
      ensures microsecondsperframe == FrameClock.Period(72)
    {
      lastsentframe, framestosend, lastcopiedframe, framestocopy := 0, 0, 0, 0;
      currentOutgoing, lastEntityFrame := 1, -1;
      lastmovesendtime, movetimecounter := 0, 0;
      movementLocked, connected, sendTmove := false, false, false;
      tmoveBuffer := [0, 0, 0, 0, 0, 0];
      frames := new Frame[SLOTS](_ => IDLE);
      microsecondsperframe := FrameClock.Period(72);
      new;
      assert FrameClock.Period(72) == 14000;
      assert frames[..] == Init().slots;
    }

    /** NetQW_SetFPS */
    method SetFPS(fps: nat)
      requires Valid()
      modifies `microsecondsperframe
      ensures Valid()
      ensures microsecondsperframe == if fps == 0 then old(microsecondsperframe) else FrameClock.Period(fps)
    {
      if fps != 0 {
        FrameClock.PeriodIsLeast(fps);
        microsecondsperframe := 1000000 / fps;
        if microsecondsperframe < 1000 {
          microsecondsperframe := 1000;
        }
        microsecondsperframe := microsecondsperframe + 999;
        microsecondsperframe := microsecondsperframe - microsecondsperframe % 1000;
      }
    }

    /** What accepting the connection does to the clock: a frame is due at once. */
    method Connect(now: int)
      requires Valid()
      modifies `lastmovesendtime, `movetimecounter, `connected
      ensures Valid() && connected && movetimecounter == 0
      ensures FrameClock.Due(lastmovesendtime, microsecondsperframe, now) == 1
    {
      lastmovesendtime := now - microsecondsperframe;
      movetimecounter := 0;
      connected := true;
    }

    /** NetQW_SetDeltaPoint */
    method SetDeltaPoint(frame: int)
      requires Valid()
      modifies `lastEntityFrame
      ensures Valid() && View() == old(View()).(entityFrame := frame)
    {
      lastEntityFrame := frame;
    }

    /** Fill the next slot with the given move. */
    method StoreFrame(m: Move)
      requires Valid()
      modifies frames, `framestosend, `framestocopy
      ensures Valid() && View() == Generate(old(View()), m)
    {
      var framenum := Slot(lastsentframe + framestosend + 1);
      frames[framenum] := Frame(m.cmd, m.senttime, -1);
      if lastEntityFrame != -1 && (currentOutgoing - lastEntityFrame) % WORD < SLOTS {
        var k := Slot(currentOutgoing);
        frames[k] := frames[k].(deltaSequence := lastEntityFrame);
      }
      framestosend := framestosend + 1;
      framestocopy := framestocopy + 1;
    }

    /** One turn of the loop in NetQW_GenerateFrames. */
    method GenerateFrame(input: Move)
      requires Valid()
      modifies frames, `framestosend, `framestocopy, `lastmovesendtime, `movetimecounter
      ensures Valid()
      ensures var t := old(movetimecounter) + microsecondsperframe;
              && View() == Generate(old(View()),
                                Move(Stamped(input.cmd, FrameClock.ByteOf(t), movementLocked), input.senttime))
              && movetimecounter == FrameClock.Rest(t)
      ensures lastmovesendtime == old(lastmovesendtime) + microsecondsperframe
    {
      hide Generate;
      lastmovesendtime := lastmovesendtime + microsecondsperframe;
      movetimecounter := movetimecounter + microsecondsperframe;
      var cmd := input.cmd.(msec := movetimecounter / 1000 % 256);
      movetimecounter := movetimecounter % 1000;
      if movementLocked {
        cmd := cmd.(forwardmove := 0, sidemove := 0, upmove := 0);
      }
      StoreFrame(Move(cmd, input.senttime));
    }

    /** From ring `p`, left-over time `carry` and clock `last`, exactly `n` frames have been generated. */
    ghost predicate Generated(p: Pipe, carry: nat, last: int, input: nat -> Move, n: nat)
      requires Shaped(p) && Valid()
      reads this, frames
    {
      && View() == GenerateMany(p, carry, microsecondsperframe, movementLocked, input, n)
      && lastmovesendtime == FrameClock.Advanced(last, microsecondsperframe, n)
      && movetimecounter == FrameClock.Carry(carry, microsecondsperframe, n)
    }

    method GenerateNext(ghost p: Pipe, ghost carry: nat, ghost last: int, input: nat -> Move, n: nat)
      requires Valid() && Shaped(p) && Generated(p, carry, last, input, n)
      modifies frames, `framestosend, `framestocopy, `lastmovesendtime, `movetimecounter
      ensures Valid() && Generated(p, carry, last, input, n + 1)
      ensures lastmovesendtime == old(lastmovesendtime) + microsecondsperframe
    {
      GenerateOneMore(p, carry, microsecondsperframe, movementLocked, input, last, n);
      GenerateFrame(input(n));
    }

    /** NetQW_GenerateFrames at time `now`; `input` is what the player does in each frame. */
    method GenerateFrames(now: int, input: nat -> Move)
      requires Valid()
      modifies frames, `framestosend, `framestocopy, `lastmovesendtime, `movetimecounter
      ensures Valid()
      ensures Generated(old(View()), old(movetimecounter), old(lastmovesendtime), input,
                        if connected then FrameClock.Due(old(lastmovesendtime), microsecondsperframe, now) else 0)
      ensures connected ==> lastmovesendtime + microsecondsperframe > now
    {
      ghost var (view, carry, start) := (View(), movetimecounter, lastmovesendtime);
      GenerateNone(view, carry, microsecondsperframe, movementLocked, input, start);
      if !connected {
        return;
      }
      hide Generated, FrameClock.Due;
      var done := 0; // how much input has been consumed
      FrameClock.DueAgain(lastmovesendtime, microsecondsperframe, now);
      while lastmovesendtime + microsecondsperframe <= now
        invariant Valid() && Generated(view, carry, start, input, done)
        invariant lastmovesendtime + microsecondsperframe <= now
                  <==> FrameClock.Due(lastmovesendtime, microsecondsperframe, now) > 0
        invariant done + FrameClock.Due(lastmovesendtime, microsecondsperframe, now)
                  == FrameClock.Due(start, microsecondsperframe, now)
        decreases FrameClock.Due(start, microsecondsperframe, now) - done
      {
        FrameClock.DueAgain(lastmovesendtime, microsecondsperframe, now);
        GenerateNext(view, carry, start, input, done);
        done := done + 1;
        FrameClock.DueAgain(lastmovesendtime, microsecondsperframe, now);
      }
    }

    /** NetQW_SetTeleport: three coordinates in eighths, sixteen bits each. */
    method SetTeleport(x: real, y: real, z: real)
      requires Valid()
      modifies `sendTmove, `tmoveBuffer
      ensures Valid()
      ensures Teleport() == Some(ShortBytes(Truncate(x * 8.0)) + ShortBytes(Truncate(y * 8.0))
                                 + ShortBytes(Truncate(z * 8.0)))
    {
      sendTmove := true;
      tmoveBuffer := ShortBytes(Truncate(x * 8.0)) + ShortBytes(Truncate(y * 8.0)) + ShortBytes(Truncate(z * 8.0));
    }

    /** The delta request and the teleport behind the move message. */
    method AppendExtras(buf: array<byte>, start: nat) returns (i: nat)
      requires Valid() && start + 9 <= buf.Length
      modifies buf, `sendTmove
      ensures Valid() && !sendTmove && start <= i <= buf.Length && buf[..start] == old(buf[..start])
      ensures buf[start..i] == DeltaRequest(DeltaByte(old(NextDelta(View())))) + MovePart.Teleport(old(Teleport()))
    {
      var delta := frames[Slot(currentOutgoing)].deltaSequence;
      var middle := Emit(buf, start, delta != -1, [CLC_DELTA, delta % 256]);
      ghost var first := buf[start..middle];
      i := Emit(buf, middle, sendTmove, [CLC_TMOVE] + tmoveBuffer);
      sendTmove := false;
      assert buf[..middle][start..] == first && buf[start..i] == buf[start..middle] + buf[middle..i];
      assert buf[..start] == buf[..middle][..start];
    }

    /** The move message: three bytes and three deltas. */
    method WriteMoves(buf: array<byte>, checksum: byte, loss: byte) returns (i: nat)
      requires Valid() && 51 <= buf.Length
      modifies buf
      ensures i <= 51
      ensures var t := NextTriple(View()); buf[..i] == [CLC_MOVE, checksum, loss] + Chain(t.c2, t.c1, t.c0)
    {
      hide Chain;
      buf[0], buf[1], buf[2] := CLC_MOVE, checksum, loss;
      i := WriteChain(buf, 3, frames[Slot(currentOutgoing - 2)].cmd, frames[Slot(currentOutgoing - 1)].cmd,
                      frames[Slot(currentOutgoing)].cmd);
      assert buf[..i] == buf[..3] + buf[3..i];
    }

    /** One packet of NetQW_Thread_DoSend: its move part, and the counters once it has gone. */
    method SendFrame(checksum: byte, loss: byte) returns (number: nat, bytes: seq<byte>)
      requires Valid() && framestosend > 0
      modifies `lastsentframe, `framestosend, `currentOutgoing, `sendTmove
      ensures Valid() && View() == Send(old(View())) && Teleport() == None
      ensures var packet := PacketOf(old(View()), Extra(_ => checksum, loss, old(Teleport())));
              number == packet.number && LaidDown(packet, bytes)
    {
      hide Chain, NextTriple, NextDelta, DeltaRequest, MovePart.Teleport;
      ghost var packet := PacketOf(View(), Extra(_ => checksum, loss, Teleport()));
      var buf := new byte[64];
      var i := WriteMoves(buf, checksum, loss);
      ghost var message := buf[..i];
      var end := AppendExtras(buf, i);
      number, bytes := currentOutgoing, buf[..end];
      assert bytes == message + buf[i..end];
      BytesInParts(packet.part, message, buf[i..end]);
      lastsentframe := lastsentframe + 1;
      framestosend := framestosend - 1;
      currentOutgoing := currentOutgoing + 1;
    }

    /** NetQW_Thread_DoSend in the connected state. `now` is its own reading of the clock, `later` the one
        NetQW_GenerateFrames takes. */
    method DoSend(now: int, later: int, input: nat -> Move, checksum: nat -> byte, loss: byte)
      returns (numbers: seq<nat>, sent: seq<seq<byte>>)
      requires Valid() && connected
      modifies frames, `lastsentframe, `framestosend, `framestocopy, `currentOutgoing,
               `lastmovesendtime, `movetimecounter, `sendTmove
      ensures Valid() && framestosend == 0
      ensures var start := FrameClock.Clamped(old(lastmovesendtime), now);
              var n := FrameClock.Due(start, microsecondsperframe, later);
              var p := GenerateMany(old(View()), old(movetimecounter), microsecondsperframe, movementLocked, input, n);
              && View() == SendMany(p)
              && AllLaidDown(PacketsOf(p, Extra(checksum, loss, old(Teleport()))), numbers, sent)
              && lastmovesendtime == FrameClock.Advanced(start, microsecondsperframe, n)
              && movetimecounter == FrameClock.Carry(old(movetimecounter), microsecondsperframe, n)
    {
      hide GenerateMany, PacketOf, Slot, FrameClock.Due, LaidDown, AllLaidDown, SendMany, PacketsOf;
      if lastmovesendtime + 1000000 < now {
        lastmovesendtime := now;
      }
      assert View() == old(View());
      GenerateFrames(later, input);
      numbers, sent := [], [];
      ghost var p := View();
      ghost var all := PacketsOf(p, Extra(checksum, loss, Teleport()));
      ghost var done: seq<Packet> := [];
      NothingLaidDown();
      while framestosend > 0
        modifies `lastsentframe, `framestosend, `currentOutgoing, `sendTmove
        invariant Valid() && SendMany(p) == SendMany(View())
        invariant all == done + PacketsOf(View(), Extra(checksum, loss, Teleport()))
        invariant AllLaidDown(done, numbers, sent)
        decreases framestosend
      {
        ghost var (q, x) := (View(), Extra(checksum, loss, Teleport()));
        var number, bytes := SendFrame(checksum(currentOutgoing), loss);
        SamePacket(q, checksum(q.current), x);
        SendOne(q, x, done);
        OneMoreLaidDown(done, numbers, sent, PacketOf(q, x), bytes);
        done, numbers, sent := done + [PacketOf(q, x)], numbers + [number], sent + [bytes];
      }
      AllSent(View(), Extra(checksum, loss, Teleport()));
      assert done + [] == done;
    }

    /** One turn of the loop in NetQW_CopyFrames. */
    method CopyFrame(target: array<Frame>)
      requires Valid() && framestocopy > 0 && target.Length == SLOTS && target != frames
      modifies target, `lastcopiedframe, `framestocopy
      ensures Valid() && View() == CopyOne(old(View()))
      ensures target[..] == old(target[..])[Slot(old(lastcopiedframe) + 1) := NextCopied(old(View()))]
    {
      lastcopiedframe := Slot(lastcopiedframe + 1);
      target[lastcopiedframe] := frames[lastcopiedframe];
      framestocopy := framestocopy - 1;
    }

    /** NetQW_CopyFrames into the caller's ring. */
    method CopyFrames(target: array<Frame>) returns (newseqnr: nat, startframe: nat, numframes: nat)
      requires Valid() && target.Length == SLOTS && target != frames
      modifies target, `lastcopiedframe, `framestocopy
      ensures Valid() && View() == CopyAll(old(View()))
      ensures newseqnr == currentOutgoing + framestosend && startframe == Slot(old(lastcopiedframe) + 1)
      ensures numframes == old(framestocopy) == |CopiedBy(old(View()))|
      ensures target[..] == Scattered(old(target[..]), startframe, CopiedBy(old(View())))
    {
      hide Slot, NextCopied, Scattered;
      ghost var (view, before) := (View(), target[..]);
      startframe := Slot(lastcopiedframe + 1);
      numframes := 0;
      ghost var copied := [];
      ScatterNone(before, startframe);
      FirstSlot(lastcopiedframe);
      while framestocopy > 0
        invariant Valid() && CopyAll(view) == CopyAll(View()) && CopiedBy(view) == copied + CopiedBy(View())
        invariant numframes == |copied| && numframes + framestocopy == old(framestocopy)
        invariant Slot(startframe + |copied|) == Slot(lastcopiedframe + 1)
        invariant target[..] == Scattered(before, startframe, copied)
        decreases framestocopy
      {
        ghost var p := View();
        ghost var f := NextCopied(p);
        CopyFrame(target);
        numframes := numframes + 1;
        assert copied + CopiedBy(p) == copied + [f] + CopiedBy(View());
        ScatterOne(before, startframe, copied, f);
        NextSlot(startframe + |copied|, p.lastCopied);
        copied := copied + [f];
      }
      assert copied + [] == copied;
      newseqnr := currentOutgoing + framestosend;
    }
  }

  /** Packet by packet, the numbers and bytes that go out. */
  ghost predicate AllLaidDown(ps: seq<Packet>, numbers: seq<nat>, sent: seq<seq<byte>>) {
    && |numbers| == |ps| == |sent|
    && forall i | 0 <= i < |ps| :: numbers[i] == ps[i].number && LaidDown(ps[i], sent[i])
  }

  lemma NothingLaidDown()
    ensures AllLaidDown([], [], [])
  {
  }

  lemma OneMoreLaidDown(ps: seq<Packet>, numbers: seq<nat>, sent: seq<seq<byte>>, p: Packet, bytes: seq<byte>)
    requires AllLaidDown(ps, numbers, sent) && LaidDown(p, bytes)
    ensures AllLaidDown(ps + [p], numbers + [p.number], sent + [bytes])
  {
    hide LaidDown;
  }

  lemma SendOne(p: Pipe, x: Extra, done: seq<Packet>)
    requires Shaped(p) && p.toSend > 0
    ensures SendMany(p) == SendMany(Send(p))
    ensures done + PacketsOf(p, x) == done + [PacketOf(p, x)] + PacketsOf(Send(p), x.(teleport := None))
  {
    hide PacketOf;
  }

  lemma AllSent(p: Pipe, x: Extra)
    requires Shaped(p) && p.toSend == 0
    ensures SendMany(p) == p && PacketsOf(p, x) == []
  {
  }

  lemma SamePacket(p: Pipe, checksum: byte, x: Extra)
    requires Shaped(p) && checksum == x.checksum(p.current)
    ensures PacketOf(p, Extra(_ => checksum, x.loss, x.teleport)) == PacketOf(p, x)
  {
  }

  lemma BytesInParts(m: MoveData, message: seq<byte>, extras: seq<byte>)
    requires MovePart.Valid(m)
    requires message == [CLC_MOVE, m.checksum, m.loss] + Chain(m.c2, m.c1, m.c0)
    requires extras == DeltaRequest(m.delta) + MovePart.Teleport(m.teleport)
    ensures message + extras == Bytes(m)
  {
    hide Chain;
  }

  lemma GenerateNone(p: Pipe, carry: nat, period: nat, locked: bool, input: nat -> Move, last: int)
    requires Shaped(p)
    ensures GenerateMany(p, carry, period, locked, input, 0) == p
    ensures FrameClock.Advanced(last, period, 0) == last && FrameClock.Carry(carry, period, 0) == carry
  {
  }

  lemma GenerateOneMore(p: Pipe, carry: nat, period: nat, locked: bool, input: nat -> Move, last: int, n: nat)
    requires Shaped(p)
    ensures var t := FrameClock.Carry(carry, period, n) + period;
            && GenerateMany(p, carry, period, locked, input, n + 1)
               == Generate(GenerateMany(p, carry, period, locked, input, n),
                           Move(Stamped(input(n).cmd, FrameClock.ByteOf(t), locked), input(n).senttime))
            && FrameClock.Carry(carry, period, n + 1) == FrameClock.Rest(t)
    ensures FrameClock.Advanced(last, period, n + 1) == FrameClock.Advanced(last, period, n) + period
  {
  }

  lemma FirstSlot(last: nat)
    ensures Slot(Slot(last + 1)) == Slot(last + 1)
  {
  }

  lemma NextSlot(at: nat, last: nat)
    requires Slot(at) == Slot(last + 1)
    ensures Slot(at + 1) == Slot(Slot(last + 1) + 1)
  {
  }

  lemma ScatterNone(ring: seq<Frame>, at: nat)
    requires |ring| == SLOTS
    ensures Scattered(ring, at, []) == ring
  {
  }

  /** `fs` laid into a ring from slot `at`. */
  function Scattered(ring: seq<Frame>, at: nat, fs: seq<Frame>): (r: seq<Frame>)
    requires |ring| == SLOTS
    ensures |r| == SLOTS
  {
    if fs == [] then ring
    else Scattered(ring, at, fs[..|fs| - 1])[Slot(at + |fs| - 1) := fs[|fs| - 1]]
  }

  lemma ScatterOne(ring: seq<Frame>, at: nat, fs: seq<Frame>, f: Frame)
    requires |ring| == SLOTS
    ensures Scattered(ring, at, fs + [f]) == Scattered(ring, at, fs)[Slot(at + |fs|) := f]
  {
    assert (fs + [f])[..|fs|] == fs;
  }

  // ---- The calls as runs of the ring ----

  /** The moves of `n` frames generated together. */
  function Plan(carry: nat, period: nat, locked: bool, input: nat -> Move, n: nat): (r: seq<Move>)
    ensures |r| == n
  {
    seq(n, i requires 0 <= i < n => Planned(carry, period, locked, input, i))
  }

  function AfterGenerating(l: Log, carry: nat, period: nat, locked: bool, input: nat -> Move, n: nat): Log
    requires Shaped(l.pipe)
  {
    l.(pipe := GenerateMany(l.pipe, carry, period, locked, input, n),
       history := l.history + Plan(carry, period, locked, input, n))
  }

  lemma {:induction false} GeneratingStays(l: Log, carry: nat, period: nat, locked: bool, input: nat -> Move, n: nat)
    requires Base(l)
    ensures var r := AfterGenerating(l, carry, period, locked, input, n);
            Base(r) && r.pipe.toSend == l.pipe.toSend + n && r.pipe.toCopy == l.pipe.toCopy + n
  {
    hide Planned, Live, Generate;
    var plan := Plan(carry, period, locked, input, n);
    if n == 0 {
      assert l.history + plan == l.history;
    } else {
      GeneratingStays(l, carry, period, locked, input, n - 1);
      var before := AfterGenerating(l, carry, period, locked, input, n - 1);
      var m := Planned(carry, period, locked, input, n - 1);
      assert l.history + plan == before.history + [m];
      GeneratedCounts(before.pipe, m);
      GenerateStays(before, m);
    }
  }

  lemma GeneratedCounts(p: Pipe, m: Move)
    requires Shaped(p)
    ensures Generate(p, m).toSend == p.toSend + 1 && Generate(p, m).toCopy == p.toCopy + 1
  {
  }

  /** Packet `k` carries the commands of frames k-2, k-1 and k. */
  predicate Carries(packet: Packet, k: nat, history: seq<Move>) {
    var t := Repeats(history, k);
    packet.number == k && packet.part.c2 == t.c2 && packet.part.c1 == t.c1 && packet.part.c0 == t.c0
  }

  /** Every packet of one DoSend carries what it should. */
  ghost predicate AllRight(l: Log, x: Extra)
    requires Shaped(l.pipe)
  {
    forall i | 0 <= i < |PacketsOf(l.pipe, x)| :: Carries(PacketsOf(l.pipe, x)[i], |l.sent| + 1 + i, l.history)
  }

  lemma {:induction false} PacketCount(p: Pipe, x: Extra)
    requires Shaped(p)
    ensures |PacketsOf(p, x)| == p.toSend
    decreases p.toSend
  {
    if p.toSend > 0 {
      PacketCount(Send(p), x.(teleport := None));
    }
  }

  /** With at most 62 frames waiting, one call of DoSend sends each of them once, in order, every packet
      carrying the last three commands. */
  lemma {:induction false} PacketsCarryHistory(l: Log, x: Extra)
    requires Base(l) && l.pipe.toSend <= SLOTS - 2
    ensures AllRight(l, x)
    decreases l.pipe.toSend
  {
    hide Repeats, Live, NextTriple, NextDelta, DeltaByte;
    if l.pipe.toSend > 0 {
      var r := Step(l, Sent);
      var y := x.(teleport := None);
      SenderFinds(l);
      SendStays(l);
      PacketsCarryHistory(r, y);
      forall i | 0 <= i < |PacketsOf(l.pipe, x)|
        ensures Carries(PacketsOf(l.pipe, x)[i], |l.sent| + 1 + i, l.history)
      {
        if i > 0 {
          assert PacketsOf(l.pipe, x)[i] == PacketsOf(r.pipe, y)[i - 1];
          assert Carries(PacketsOf(r.pipe, y)[i - 1], |r.sent| + 1 + (i - 1), r.history);
        }
      }
    }
  }

  /** Everything a DoSend generates and sends, from any state that any run reaches, with commands that can
      be told apart: all packets are right if and only if no more than 62 frames are waiting or due. */
  lemma DoSendIsRight(l: Log, carry: nat, period: nat, locked: bool, input: nat -> Move, n: nat, x: Extra)
    requires Base(l) && Distinct(l.history + Plan(carry, period, locked, input, n))
    ensures var r := AfterGenerating(l, carry, period, locked, input, n);
            && Shaped(r.pipe) && |PacketsOf(r.pipe, x)| == l.pipe.toSend + n
            && (AllRight(r, x) <==> l.pipe.toSend + n <= SLOTS - 2)
  {
    hide Distinct, Repeats, Live, NextTriple, GenerateMany, NextDelta;
    GeneratingStays(l, carry, period, locked, input, n);
    var r := AfterGenerating(l, carry, period, locked, input, n);
    PacketCount(r.pipe, x);
    if r.pipe.toSend <= SLOTS - 2 {
      PacketsCarryHistory(r, x);
    } else {
      SendIsRight(r);
      assert PacketsOf(r.pipe, x)[0] == PacketOf(r.pipe, x);
    }
  }

  // ---- What a generated frame holds ----

  /** The frame times that commands carry, summed. */
  function MsecSum(moves: seq<Move>): nat {
    if moves == [] then 0 else MsecSum(moves[..|moves| - 1]) + moves[|moves| - 1].cmd.msec
  }

  lemma {:induction false} PlanKeepsTime(carry: nat, period: nat, locked: bool, input: nat -> Move, n: nat)
    requires carry < 1000 && period + 999 < 256000
    ensures 1000 * MsecSum(Plan(carry, period, locked, input, n)) + FrameClock.Carry(carry, period, n)
            == carry + n * period
    ensures FrameClock.Carry(carry, period, n) < 1000
  {
    var plan := Plan(carry, period, locked, input, n);
    if n > 0 {
      PlanKeepsTime(carry, period, locked, input, n - 1);
      assert plan[..n - 1] == Plan(carry, period, locked, input, n - 1);
      FrameClock.ShortTimeFits(FrameClock.Carry(carry, period, n - 1) + period);
      assert n * period == (n - 1) * period + period;
    }
  }

  /** No time is lost or made up: over any number of frames generated together, the frame times in their
      commands and what is left over are the time that passed and what was left over before. */
  lemma FramesKeepTime(l: Log, carry: nat, period: nat, locked: bool, input: nat -> Move, n: nat)
    requires Shaped(l.pipe) && carry < 1000 && period + 999 < 256000
    ensures var r := AfterGenerating(l, carry, period, locked, input, n);
            1000 * MsecSum(r.history[|l.history|..]) + FrameClock.Carry(carry, period, n) == carry + n * period
  {
    var r := AfterGenerating(l, carry, period, locked, input, n);
    PlanKeepsTime(carry, period, locked, input, n);
    assert r.history[|l.history|..] == Plan(carry, period, locked, input, n);
  }

  /** Everything else is the player's: where one looks, what one presses, the time it was done, and the
      movements unless they are locked. */
  lemma FramesKeepInput(l: Log, carry: nat, period: nat, locked: bool, input: nat -> Move, n: nat, i: nat)
    requires Shaped(l.pipe) && i < n
    ensures var r := AfterGenerating(l, carry, period, locked, input, n);
            var (done, told) := (r.history[|l.history| + i], input(i));
            && done.senttime == told.senttime
            && done.cmd.pitch == told.cmd.pitch && done.cmd.yaw == told.cmd.yaw && done.cmd.roll == told.cmd.roll
            && done.cmd.buttons == told.cmd.buttons && done.cmd.impulse == told.cmd.impulse
            && (locked ==> done.cmd.forwardmove == 0 && done.cmd.sidemove == 0 && done.cmd.upmove == 0)
            && (!locked ==> done.cmd.forwardmove == told.cmd.forwardmove && done.cmd.sidemove == told.cmd.sidemove
                            && done.cmd.upmove == told.cmd.upmove)
  {
    hide GenerateMany;
  }

  // ---- What the packets of one DoSend hold besides ----

  /** Numbers go up by one, each packet has the checksum of its own number and the loss figure, and the teleport
      goes with the first packet only. */
  lemma {:induction false} PacketExtras(p: Pipe, x: Extra, i: nat)
    requires Shaped(p) && i < p.toSend
    ensures i < |PacketsOf(p, x)|
    ensures var packet := PacketsOf(p, x)[i];
            && packet.number == p.current + i && packet.part.checksum == x.checksum(p.current + i)
            && packet.part.loss == x.loss && packet.part.teleport == if i == 0 then x.teleport else None
    decreases i
  {
    hide NextTriple, NextDelta, DeltaByte;
    PacketCount(p, x);
    if i > 0 {
      PacketExtras(Send(p), x.(teleport := None), i - 1);
    }
  }

  /** A packet that is right, as the server reads it: checksum, loss, and the last three commands, angles to the
      nearest step. */
  lemma PacketArrives(l: Log, x: Extra, i: nat)
    requires Base(l) && AllRight(l, x) && i < l.pipe.toSend && (x.teleport.Some? ==> |x.teleport.value| == 6)
    ensures i < |PacketsOf(l.pipe, x)| && MovePart.Valid(PacketsOf(l.pipe, x)[i].part)
    ensures var (k, b) := (|l.sent| + 1 + i, Bytes(PacketsOf(l.pipe, x)[i].part));
            var (r2, r1, r0, d) := ReadChain(b, Cursor(3, false));
            && b[..3] == [3, x.checksum(k), x.loss] && !d.bad
            && Faithful(r2, Numbered(l.history, k - 2).cmd) && Faithful(r1, Numbered(l.history, k - 1).cmd)
            && Faithful(r0, Numbered(l.history, k).cmd)
  {
    hide Live, ReadChain, Chain, Faithful, Bytes, Numbered;
    PacketExtras(l.pipe, x, i);
    var packet := PacketsOf(l.pipe, x)[i];
    assert Carries(packet, |l.sent| + 1 + i, l.history);
    var m: Moves := packet.part;
    ExtrasRead(m);
    CommandsArrive(Bytes(m), 3, false, m.c2, m.c1, m.c0);
  }

  // ---- What the caller's ring holds ----

  /** Frames laid into a ring one behind the other: slot `k` holds the one that many slots on from the start, or
      what it held before if there are not that many. */
  lemma {:induction false} ScatteredHolds(ring: seq<Frame>, at: nat, fs: seq<Frame>, k: nat)
    requires |ring| == SLOTS && |fs| <= SLOTS && k < SLOTS
    ensures var i := Slot(k - at); Scattered(ring, at, fs)[k] == if i < |fs| then fs[i] else ring[k]
    decreases |fs|
  {
    if fs != [] {
      var n := |fs| - 1;
      ScatteredHolds(ring, at, fs[..n], k);
      SlotsMeet(at, n, k);
    }
  }

  lemma SlotsMeet(at: nat, n: nat, k: nat)
    requires n < SLOTS && k < SLOTS
    ensures Slot(at + n) == k <==> Slot(k - at) == n
  {
  }

  /** A coordinate of a teleport, while it fits: cut to eighths towards zero. */
  lemma CoordinateArrives(x: real)
    requires -4096.0 < x < 4096.0
    ensures var b := ShortBytes(Truncate(x * 8.0));
            var v := JoinShort(b[0], b[1]) as real / 8.0;
            if x >= 0.0 then v <= x < v + 0.125 && v >= 0.0 else v >= x > v - 0.125 && v <= 0.0
  {
    var n := Truncate(x * 8.0);
    assert -32768 < n < 32768;
    ShortRoundTrip(n);
  }
}
