/** The ring of generated frames in src/netqw.c as a value: one producer, and two consumers that
    move independently. */
module FramesSpec {
  import opened Usercmd
  import opened Wire

  const SLOTS := 64
  const WORD := 0x1_0000_0000

  datatype Frame = Frame(cmd: Cmd, senttime: real, deltaSequence: int)

  /** What a frame is generated with; its delta sequence may change while it waits. */
  datatype Move = Move(cmd: Cmd, senttime: real)

  datatype Pipe = Pipe(slots: seq<Frame>, lastSent: nat, toSend: nat, lastCopied: nat, toCopy: nat,
                       current: nat, entityFrame: int)

  const IDLE := Frame(ZERO, 0.0, 0)

  /** NetQW_Create and NetQW_Thread_Init. */
  function Init(): Pipe {
    Pipe(seq(SLOTS, _ => IDLE), 0, 0, 0, 0, 1, -1)
  }

  predicate Shaped(p: Pipe) {
    |p.slots| == SLOTS && p.lastCopied < SLOTS
  }

  function Slot(n: int): (k: nat)
    ensures k < SLOTS
  {
    n % SLOTS
  }

  function MoveOf(f: Frame): Move {
    Move(f.cmd, f.senttime)
  }

  /** The delta point may be used: set, and fewer than 64 packets ago in unsigned arithmetic. */
  predicate DeltaUsable(p: Pipe) {
    p.entityFrame != -1 && (p.current - p.entityFrame) % WORD < SLOTS
  }

  /** One turn of the loop in NetQW_GenerateFrames. The delta point goes to the slot of the packet
      that is sent next, which need not be the slot just filled. */
  function Generate(p: Pipe, m: Move): (q: Pipe)
    requires Shaped(p)
    ensures Shaped(q)
  {
    var filled := p.slots[Slot(p.lastSent + p.toSend + 1) := Frame(m.cmd, m.senttime, -1)];
    var k := Slot(p.current);
    var slots := if DeltaUsable(p) then filled[k := filled[k].(deltaSequence := p.entityFrame)] else filled;
    p.(slots := slots, toSend := p.toSend + 1, toCopy := p.toCopy + 1)
  }

  /** The three commands of the next packet, oldest first. */
  datatype Triple = Triple(c2: Cmd, c1: Cmd, c0: Cmd)

  function NextTriple(p: Pipe): Triple
    requires Shaped(p)
  {
    Triple(p.slots[Slot(p.current - 2)].cmd, p.slots[Slot(p.current - 1)].cmd, p.slots[Slot(p.current)].cmd)
  }

  function NextDelta(p: Pipe): int
    requires Shaped(p)
  {
    p.slots[Slot(p.current)].deltaSequence
  }

  /** One packet sent. */
  function Send(p: Pipe): (q: Pipe)
    requires Shaped(p) && p.toSend > 0
    ensures Shaped(q)
  {
    p.(lastSent := p.lastSent + 1, toSend := p.toSend - 1, current := p.current + 1)
  }

  /** One frame copied. */
  function CopyOne(p: Pipe): (q: Pipe)
    requires Shaped(p) && p.toCopy > 0
    ensures Shaped(q)
  {
    p.(lastCopied := Slot(p.lastCopied + 1), toCopy := p.toCopy - 1)
  }

  function NextCopied(p: Pipe): Frame
    requires Shaped(p)
  {
    p.slots[Slot(p.lastCopied + 1)]
  }

  function CopyAll(p: Pipe): (q: Pipe)
    requires Shaped(p)
    ensures Shaped(q)
    decreases p.toCopy
  {
    if p.toCopy == 0 then p else CopyAll(CopyOne(p))
  }

  function CopiedBy(p: Pipe): seq<Frame>
    requires Shaped(p)
    decreases p.toCopy
  {
    if p.toCopy == 0 then [] else [NextCopied(p)] + CopiedBy(CopyOne(p))
  }

  function Moves(fs: seq<Frame>): (r: seq<Move>)
    ensures |r| == |fs|
  {
    seq(|fs|, i requires 0 <= i < |fs| => MoveOf(fs[i]))
  }

  // ---- Runs ----

  datatype Event = Generated(move: Move) | Sent | Copied | DeltaPoint(frame: int)

  /** A pipe together with everything generated, sent and copied so far. `asked` are the delta sequences that
      the packets sent went out with. */
  datatype Log = Log(pipe: Pipe, history: seq<Move>, sent: seq<Triple>, copied: seq<Move>, asked: seq<int>)

  predicate Enabled(p: Pipe, e: Event) {
    e == Sent ==> p.toSend > 0
  }

  /** The limits within which the ring keeps what its consumers still need. */
  predicate Within(p: Pipe, e: Event) {
    match e
    case Generated(_) => true
    case Sent => p.toSend <= SLOTS - 2
    case Copied => p.toCopy <= SLOTS
    case DeltaPoint(_) => true
  }

  function Step(l: Log, e: Event): (r: Log)
    requires Shaped(l.pipe) && Enabled(l.pipe, e)
    ensures Shaped(r.pipe)
  {
    match e
    case Generated(m) => l.(pipe := Generate(l.pipe, m), history := l.history + [m])
    case Sent => 
      l.(pipe := Send(l.pipe), sent := l.sent + [NextTriple(l.pipe)], asked := l.asked + [NextDelta(l.pipe)])
    case Copied => l.(pipe := CopyAll(l.pipe), copied := l.copied + Moves(CopiedBy(l.pipe)))
    case DeltaPoint(n) => l.(pipe := l.pipe.(entityFrame := n))
  }

  function Start(): Log {
    Log(Init(), [], [], [], [])
  }

  ghost predicate Runs(l: Log, es: seq<Event>, r: Log)
    requires Shaped(l.pipe)
    decreases |es|
  {
    if es == [] then r == l
    else Enabled(l.pipe, es[0]) && Runs(Step(l, es[0]), es[1..], r)
  }

  /** The same, with every consumer inside its limit whenever it reads. */
  ghost predicate RunsWithin(l: Log, es: seq<Event>, r: Log)
    requires Shaped(l.pipe)
    decreases |es|
  {
    if es == [] then r == l
    else Enabled(l.pipe, es[0]) && Within(l.pipe, es[0]) && RunsWithin(Step(l, es[0]), es[1..], r)
  }

  /** Frame number `n`, counted from 1; before the first there were only zero commands. */
  function Numbered(history: seq<Move>, n: int): Move {
    if 1 <= n <= |history| then history[n - 1] else MoveOf(IDLE)
  }

  /** The ring holds the last 64 frames. */
  ghost predicate Live(p: Pipe, history: seq<Move>)
    requires Shaped(p)
  {
    forall n {:trigger Numbered(history, n)} | |history| - SLOTS < n <= |history| ::
      MoveOf(p.slots[Slot(n)]) == Numbered(history, n)
  }

  predicate Counted(l: Log) {
    && Shaped(l.pipe)
    && l.pipe.current == l.pipe.lastSent + 1
    && l.pipe.lastSent == |l.sent| && |l.history| == |l.sent| + l.pipe.toSend
    && |l.history| == |l.copied| + l.pipe.toCopy && l.pipe.lastCopied == Slot(|l.copied|)
  }

  /** Packet `k` repeats the commands of frames k-2, k-1 and k. */
  function Repeats(history: seq<Move>, k: int): Triple {
    Triple(Numbered(history, k - 2).cmd, Numbered(history, k - 1).cmd, Numbered(history, k).cmd)
  }

  ghost predicate SentInOrder(l: Log) {
    forall k {:trigger l.sent[k]} | 0 <= k < |l.sent| :: l.sent[k] == Repeats(l.history, k + 1)
  }

  /** What every run keeps, however far its consumers fall behind. */
  ghost predicate Base(l: Log) {
    Counted(l) && Live(l.pipe, l.history)
  }

  /** What runs within the limits keep. */
  ghost predicate Inv(l: Log) {
    Base(l) && SentInOrder(l) && l.copied <= l.history
  }

  lemma StartIsGood()
    ensures Inv(Start())
  {
  }

  /** Filling a slot replaces the move that was there and no other. */
  lemma GenerateFills(p: Pipe, m: Move, n: int)
    requires Shaped(p) && p.lastSent + p.toSend + 1 - SLOTS < n <= p.lastSent + p.toSend + 1
    ensures MoveOf(Generate(p, m).slots[Slot(n)])
            == if n == p.lastSent + p.toSend + 1 then m else MoveOf(p.slots[Slot(n)])
  {
    if n < p.lastSent + p.toSend + 1 {
      SlotsDiffer(n, p.lastSent + p.toSend + 1);
    }
    hide Slot, DeltaUsable;
  }

  lemma SlotsDiffer(a: int, b: int)
    requires a < b < a + SLOTS
    ensures Slot(a) != Slot(b)
  {
  }

  lemma GenerateStays(l: Log, m: Move)
    requires Base(l)
    ensures Base(Step(l, Generated(m)))
  {
    hide Slot, DeltaUsable, MoveOf;
    var r := Step(l, Generated(m));
    forall n | |r.history| - SLOTS < n <= |r.history|
      ensures MoveOf(r.pipe.slots[Slot(n)]) == Numbered(r.history, n)
    {
      GenerateFills(l.pipe, m, n);
      if n < |r.history| {
        assert MoveOf(l.pipe.slots[Slot(n)]) == Numbered(l.history, n);
      }
    }
  }

  lemma GenerateKeeps(l: Log, m: Move)
    requires Inv(l)
    ensures Inv(Step(l, Generated(m)))
  {
    GenerateStays(l, m);
    hide Generate, Live, Slot;
    var r := Step(l, Generated(m));
    forall k | 0 <= k < |r.sent|
      ensures r.sent[k] == Repeats(r.history, k + 1)
    {
      assert l.sent[k] == Repeats(l.history, k + 1);
    }
  }

  // ---- What a slot holds ----

  /** Of the frames that share slot `j`, the newest of the first `total`. */
  function Held(total: nat, j: int): int
    requires j <= total
  {
    j + SLOTS * ((total - j) / SLOTS)
  }

  lemma HeldInSlot(total: nat, j: int)
    requires j <= total
    ensures Slot(Held(total, j)) == Slot(j) && total - SLOTS < Held(total, j) <= total
    ensures Held(total, j) == j <==> total - j < SLOTS
  {
    SlotShift(j, (total - j) / SLOTS);
  }

  lemma SlotShift(j: int, k: int)
    ensures Slot(j + SLOTS * k) == Slot(j)
  {
  }

  /** Whatever a consumer reads is the newest frame of that slot. */
  lemma SlotHolds(l: Log, j: int)
    requires Base(l) && j <= |l.history|
    ensures MoveOf(l.pipe.slots[Slot(j)]) == Numbered(l.history, Held(|l.history|, j))
  {
    HeldInSlot(|l.history|, j);
    var n := Held(|l.history|, j);
    assert MoveOf(l.pipe.slots[Slot(n)]) == Numbered(l.history, n);
  }

  /** For every number of waiting frames: the frames the three commands of the next packet come from, and
      the frame copied next. They are the intended ones if and only if at most 62 frames wait to be sent,
      and at most 64 to be copied. */
  lemma WhatIsRead(l: Log)
    requires Base(l)
    ensures l.pipe.toSend > 0 ==>
              var (h, k) := (l.history, |l.sent| + 1);
              && NextTriple(l.pipe) == Triple(Numbered(h, Held(|h|, k - 2)).cmd, Numbered(h, Held(|h|, k - 1)).cmd,
                                              Numbered(h, Held(|h|, k)).cmd)
              && (Held(|h|, k - 2) == k - 2 && Held(|h|, k - 1) == k - 1 && Held(|h|, k) == k
                  <==> l.pipe.toSend <= SLOTS - 2)
    ensures l.pipe.toCopy > 0 ==>
              var (h, k) := (l.history, |l.copied| + 1);
              && MoveOf(NextCopied(l.pipe)) == Numbered(h, Held(|h|, k))
              && (Held(|h|, k) == k <==> l.pipe.toCopy <= SLOTS)
  {
    var h := l.history;
    if l.pipe.toSend > 0 {
      var k := |l.sent| + 1;
      SlotHolds(l, k - 2);
      SlotHolds(l, k - 1);
      SlotHolds(l, k);
      HeldInSlot(|h|, k - 2);
      HeldInSlot(|h|, k - 1);
      HeldInSlot(|h|, k);
    }
    if l.pipe.toCopy > 0 {
      SlotHolds(l, |l.copied| + 1);
      HeldInSlot(|h|, |l.copied| + 1);
      SlotOfSlot(|l.copied|, 1);
    }
  }

  lemma SlotOfSlot(a: int, b: int)
    ensures Slot(Slot(a) + b) == Slot(a + b)
  {
  }

  /** All commands, and the zero command, are different, so that a wrong frame can be told. */
  ghost predicate Distinct(history: seq<Move>) {
    && (forall i | 0 <= i < |history| :: history[i].cmd != ZERO)
    && (forall i, j | 0 <= i < j < |history| :: history[i].cmd != history[j].cmd)
  }

  lemma DifferentFrames(history: seq<Move>, a: int, b: int)
    requires Distinct(history) && 1 <= b <= |history| && a < b
    ensures Numbered(history, a).cmd != Numbered(history, b).cmd
  {
  }

  /** With commands that can be told apart, the next packet is right if and only if at most 62 frames wait. */
  lemma SendIsRight(l: Log)
    requires Base(l) && l.pipe.toSend > 0 && Distinct(l.history)
    ensures NextTriple(l.pipe) == Repeats(l.history, |l.sent| + 1) <==> l.pipe.toSend <= SLOTS - 2
  {
    hide Distinct, Numbered, Slot, Live;
    WhatIsRead(l);
    var (h, k) := (l.history, |l.sent| + 1);
    if l.pipe.toSend > SLOTS - 2 {
      HeldInSlot(|h|, k - 2);
      assert k - 2 < Held(|h|, k - 2) by { assert (|h| - (k - 2)) / SLOTS > 0; }
      DifferentFrames(h, k - 2, Held(|h|, k - 2));
    }
  }

  /** The sender always finds the last three frames while at most 62 wait. */
  lemma SenderFinds(l: Log)
    requires Base(l) && 0 < l.pipe.toSend <= SLOTS - 2
    ensures NextTriple(l.pipe) == Repeats(l.history, |l.sent| + 1)
  {
    hide Held, Numbered, Slot, Live;
    WhatIsRead(l);
  }

  lemma SendStays(l: Log)
    requires Base(l) && Enabled(l.pipe, Sent)
    ensures Base(Step(l, Sent))
  {
  }

  lemma SendKeeps(l: Log)
    requires Inv(l) && Enabled(l.pipe, Sent) && Within(l.pipe, Sent)
    ensures Inv(Step(l, Sent))
  {
    SenderFinds(l);
    SendStays(l);
  }

  /** The copying loop takes one frame after another, each the newest of its slot. */
  lemma {:induction false} CopierCounts(p: Pipe, done: nat)
    requires Shaped(p) && p.lastCopied == Slot(done)
    ensures |CopiedBy(p)| == p.toCopy
    ensures CopyAll(p) == p.(toCopy := 0, lastCopied := Slot(done + p.toCopy))
    decreases p.toCopy
  {
    if p.toCopy > 0 {
      SlotOfSlot(done, 1);
      hide Slot;
      CopierCounts(CopyOne(p), done + 1);
    }
  }

  /** Within its limit the copier reads the history on from where it was. */
  lemma {:induction false} CopierFinds(p: Pipe, history: seq<Move>, done: nat)
    requires Shaped(p) && Live(p, history) && |history| == done + p.toCopy && p.toCopy <= SLOTS
    requires p.lastCopied == Slot(done)
    ensures Moves(CopiedBy(p)) == history[done..]
    decreases p.toCopy
  {
    if p.toCopy > 0 {
      SlotOfSlot(done, 1);
      assert MoveOf(p.slots[Slot(done + 1)]) == Numbered(history, done + 1);
      CopierFinds(CopyOne(p), history, done + 1);
      assert Moves(CopiedBy(p)) == [MoveOf(NextCopied(p))] + Moves(CopiedBy(CopyOne(p)));
    }
  }

  lemma CopyStays(l: Log)
    requires Base(l)
    ensures Base(Step(l, Copied))
  {
    CopierCounts(l.pipe, |l.copied|);
  }

  lemma CopyKeeps(l: Log)
    requires Inv(l) && Within(l.pipe, Copied)
    ensures Inv(Step(l, Copied))
  {
    CopyStays(l);
    CopierFinds(l.pipe, l.history, |l.copied|);
  }

  lemma StepStays(l: Log, e: Event)
    requires Base(l) && Enabled(l.pipe, e)
    ensures Base(Step(l, e))
  {
    match e {
      case Generated(m) => GenerateStays(l, m);
      case Sent => SendStays(l);
      case Copied => CopyStays(l);
      case DeltaPoint(n) =>
    }
  }

  lemma StepKeeps(l: Log, e: Event)
    requires Inv(l) && Enabled(l.pipe, e) && Within(l.pipe, e)
    ensures Inv(Step(l, e))
  {
    hide *;
    match e {
      case Generated(m) => GenerateKeeps(l, m);
      case Sent => SendKeeps(l);
      case Copied => CopyKeeps(l);
      case DeltaPoint(n) => DeltaPointKeeps(l, n);
    }
  }

  lemma DeltaPointKeeps(l: Log, n: int)
    requires Inv(l)
    ensures Inv(Step(l, DeltaPoint(n)))
  {
  }

  lemma {:induction false} RunStays(l: Log, es: seq<Event>, r: Log)
    requires Base(l) && Runs(l, es, r)
    ensures Base(r)
    decreases |es|
  {
    hide Step, Live;
    if es != [] {
      StepStays(l, es[0]);
      RunStays(Step(l, es[0]), es[1..], r);
    }
  }

  lemma {:induction false} RunKeeps(l: Log, es: seq<Event>, r: Log)
    requires Inv(l) && RunsWithin(l, es, r)
    ensures Inv(r)
    decreases |es|
  {
    hide Step, Live, SentInOrder;
    if es != [] {
      StepKeeps(l, es[0]);
      RunKeeps(Step(l, es[0]), es[1..], r);
    }
  }

  // ---- What the two consumers see ----

  /** From the start, over any mix of generating, sending and copying within the limits: each consumer
      sees every frame once, in the order they were generated, and the two counts of the ring agree. */
  lemma ConsumersSeeEveryFrame(es: seq<Event>, r: Log)
    requires RunsWithin(Start(), es, r)
    ensures forall k | 0 <= k < |r.sent| :: r.sent[k] == Repeats(r.history, k + 1)
    ensures |r.sent| + r.pipe.toSend == |r.history|
    ensures r.pipe.toCopy <= |r.history| && r.copied == r.history[..|r.history| - r.pipe.toCopy]
    ensures r.pipe.current == r.pipe.lastSent + 1 == |r.sent| + 1
    ensures Slot(r.pipe.lastCopied + r.pipe.toCopy) == Slot(r.pipe.lastSent + r.pipe.toSend)
  {
    hide Slot, Step, Live;
    StartIsGood();
    RunKeeps(Start(), es, r);
    SlotOfSlot(|r.copied|, r.pipe.toCopy);
  }

  /** Any one of the packets `n`, `n + 1` and `n + 2` is enough to recover command `n`: whatever packet
      holds the three deltas decodes to the commands of the frames it stands for, angles to the nearest step. */
  lemma CommandRecoverable(es: seq<Event>, r: Log, k: nat, m: seq<byte>, pos: nat, bad: bool)
    requires RunsWithin(Start(), es, r) && 1 <= k <= |r.sent|
    requires var t := r.sent[k - 1]; At(m, pos, Chain(t.c2, t.c1, t.c0))
    ensures var (r2, r1, r0, _) := ReadChain(m, Cursor(pos, bad));
            && |r.sent| <= |r.history|
            && Faithful(r0, r.history[k - 1].cmd)
            && (k >= 2 ==> Faithful(r1, r.history[k - 2].cmd))
            && (k >= 3 ==> Faithful(r2, r.history[k - 3].cmd))
  {
    hide ReadChain, Faithful, Chain, At;
    ConsumersSeeEveryFrame(es, r);
    var t := r.sent[k - 1];
    CommandsArrive(m, pos, bad, t.c2, t.c1, t.c0);
  }

  /** The sender reads its three slots without the lock: a frame generated meanwhile does not disturb
      it as long as the limit still holds afterwards. */
  lemma GenerateMissesSender(p: Pipe, m: Move)
    requires Shaped(p) && p.current == p.lastSent + 1 && 0 < p.toSend && p.toSend + 1 <= SLOTS - 2
    ensures NextTriple(Generate(p, m)) == NextTriple(p)
  {
    var n := p.lastSent + p.toSend + 1;
    SlotsDiffer(p.current, n);
    SlotsDiffer(p.current - 1, n);
    SlotsDiffer(p.current - 2, n);
    hide Slot;
  }

  /** The delta point goes out with the packet at the head of the queue; a frame generated behind a
      waiting one starts out with none. */
  lemma DeltaGoesToTheHead(p: Pipe, m: Move)
    requires Shaped(p) && p.current == p.lastSent + 1 && p.toSend <= SLOTS - 2
    ensures NextDelta(Generate(p, m))
            == if DeltaUsable(p) then p.entityFrame else if p.toSend == 0 then -1 else NextDelta(p)
    ensures p.toSend > 0 ==> Generate(p, m).slots[Slot(p.lastSent + p.toSend + 1)].deltaSequence == -1
  {
    var n := p.lastSent + p.toSend + 1;
    assert p.toSend > 0 ==> Slot(n) != Slot(p.current);
  }

  /** Over every run, inside the limits or not: the next packet is right if and only if at most 62 frames
      wait, and the next frame copied if and only if at most 64 do. */
  lemma RightExactlyWithin(es: seq<Event>, r: Log)
    requires Runs(Start(), es, r)
    ensures Shaped(r.pipe) && |r.copied| <= |r.history|
    ensures r.pipe.toSend > 0 && Distinct(r.history) ==>
              (NextTriple(r.pipe) == Repeats(r.history, |r.sent| + 1) <==> r.pipe.toSend <= SLOTS - 2)
    ensures r.pipe.toCopy > 0 && Distinct(r.history) ==>
              (MoveOf(NextCopied(r.pipe)) == Numbered(r.history, |r.copied| + 1) <==> r.pipe.toCopy <= SLOTS)
  {
    hide Distinct, Slot, Live, Step;
    StartIsGood();
    RunStays(Start(), es, r);
    var (h, k) := (r.history, |r.copied| + 1);
    if r.pipe.toSend > 0 && Distinct(h) {
      SendIsRight(r);
    }
    if r.pipe.toCopy > 0 && Distinct(h) {
      WhatIsRead(r);
      HeldInSlot(|h|, k);
      if r.pipe.toCopy > SLOTS {
        assert k < Held(|h|, k) by { assert (|h| - k) / SLOTS > 0; }
        DifferentFrames(h, k, Held(|h|, k));
      }
    }
  }
}
