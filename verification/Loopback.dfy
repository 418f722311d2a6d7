/** One direction of the loopback of src/net.c: four slots between two counters that wrap at 32 bits. */
module Loopback {
  import opened Wire

  type Msg = seq<byte>

  const MAX_LOOPBACK := 4
  const WORD := 0x1_0000_0000
  const SLOT_SIZE := 2 * MAX_MSGLEN

  datatype Ring = Ring(msgs: seq<Msg>, get: nat, send: nat)

  predicate Shaped(r: Ring) {
    |r.msgs| == MAX_LOOPBACK && r.get < WORD && r.send < WORD
  }

  /** Unsigned 32-bit arithmetic. */
  function Wrapped(n: int): (k: nat)
    ensures k < WORD
  {
    n % WORD
  }

  function Slot(n: int): (k: nat)
    ensures k < MAX_LOOPBACK
  {
    n % MAX_LOOPBACK
  }

  /** NET_SendLoopPacket */
  function Send(r: Ring, m: Msg): (s: Ring)
    requires Shaped(r)
    ensures Shaped(s)
  {
    Ring(r.msgs[Slot(r.send) := m], r.get, Wrapped(r.send + 1))
  }

  /** NET_GetLoopPacket */
  function Get(r: Ring): (out: (Ring, Option<Msg>))
    requires Shaped(r)
    ensures Shaped(out.0)
  {
    var get := if Wrapped(r.send - r.get) > MAX_LOOPBACK then Wrapped(r.send - MAX_LOOPBACK) else r.get;
    if Wrapped(r.send - get) == 0 then (r.(get := get), None)
    else (r.(get := Wrapped(get + 1)), Some(r.msgs[Slot(get)]))
  }

  // ---- The queue it stands for ----

  function Newest(q: seq<Msg>, n: nat): (r: seq<Msg>)
    ensures |r| == if |q| < n then |q| else n
  {
    if |q| <= n then q else q[|q| - n..]
  }

  function FifoSend(q: seq<Msg>, m: Msg): seq<Msg> {
    Newest(q + [m], MAX_LOOPBACK)
  }

  function FifoGet(q: seq<Msg>): (seq<Msg>, Option<Msg>) {
    if q == [] then (q, None) else (q[1..], Some(q[0]))
  }

  /** `p` is everything sent and not yet read or overtaken: the counters are that far apart, and the
      slots hold its newest messages. */
  ghost predicate Holds(r: Ring, p: seq<Msg>) {
    && Shaped(r) && Wrapped(r.send - r.get) == Wrapped(|p|)
    && forall k: nat {:trigger Last(p, k)} | 1 <= k <= MAX_LOOPBACK && k <= |p| ::
         r.msgs[Slot(r.send - k)] == Last(p, k)
  }

  /** The `k`-th message from the end. */
  function Last(p: seq<Msg>, k: nat): Msg
    requires 1 <= k <= |p|
  {
    p[|p| - k]
  }

  lemma SlotOfWrapped(a: int, b: int)
    ensures Slot(Wrapped(a) - b) == Slot(a - b)
  {
    assert a == WORD * (a / WORD) + a % WORD;
    assert WORD * (a / WORD) == MAX_LOOPBACK * (0x4000_0000 * (a / WORD));
    SlotShift(Wrapped(a) - b, 0x4000_0000 * (a / WORD));
  }

  lemma SlotShift(a: int, k: int)
    ensures Slot(a + MAX_LOOPBACK * k) == Slot(a)
  {
  }

  lemma SlotsDiffer(n: int, k: int)
    requires 0 < k < MAX_LOOPBACK
    ensures Slot(n) != Slot(n - k)
  {
  }

  lemma WrapAdd(a: int, b: int)
    ensures Wrapped(Wrapped(a) + b) == Wrapped(a + b)
  {
  }

  lemma WrapMinus(a: int, b: int)
    ensures Wrapped(Wrapped(a) - b) == Wrapped(a - b)
    ensures Wrapped(a - Wrapped(b)) == Wrapped(a - b)
  {
  }

  lemma SendHolds(r: Ring, p: seq<Msg>, m: Msg)
    requires Holds(r, p)
    ensures Holds(Send(r, m), p + [m])
  {
    hide Slot, Wrapped;
    var s := Send(r, m);
    WrapMinus(r.send + 1, r.get);
    WrapAdd(r.send - r.get, 1);
    WrapAdd(|p|, 1);
    forall k: nat | 1 <= k <= MAX_LOOPBACK && k <= |p + [m]|
      ensures s.msgs[Slot(s.send - k)] == Last(p + [m], k)
    {
      SlotOfWrapped(r.send + 1, k);
      if k > 1 {
        assert Last(p + [m], k) == Last(p, k - 1);
        SlotsDiffer(r.send, k - 1);
      }
    }
  }

  /** How many of the unread messages the ring still gives out. */
  function Kept(d: nat): nat {
    if Wrapped(d) > MAX_LOOPBACK then MAX_LOOPBACK else Wrapped(d)
  }

  /** Reading gives the oldest of the messages kept, whatever the counters did. */
  lemma GetHolds(r: Ring, p: seq<Msg>)
    requires Holds(r, p)
    ensures Kept(|p|) <= |p|
    ensures var q := Newest(p, Kept(|p|));
            Holds(Get(r).0, FifoGet(q).0) && Get(r).1 == FifoGet(q).1
  {
    hide Slot, Wrapped;
    WrappedBound(|p|);
    var x := Kept(|p|);
    var get := if Wrapped(r.send - r.get) > MAX_LOOPBACK then Wrapped(r.send - MAX_LOOPBACK) else r.get;
    GetMoves(r, get, x);
    ReadOne(p, x);
    hide Newest, Last, FifoGet, Get;
    GetIs(r, get);
  }

  /** What is left after reading one of the newest `x`, seen from the end. */
  lemma ReadOne(p: seq<Msg>, x: nat)
    requires x <= |p|
    ensures var (q, m) := FifoGet(Newest(p, x));
            && |q| == (if x == 0 then 0 else x - 1) && |q| <= |p| && m == (if x == 0 then None else Some(Last(p, x)))
            && forall k: nat {:trigger Last(q, k)} | 1 <= k <= |q| :: Last(q, k) == Last(p, k)
  {
  }

  lemma GetIs(r: Ring, get: nat)
    requires Shaped(r)
    requires get == if Wrapped(r.send - r.get) > MAX_LOOPBACK then Wrapped(r.send - MAX_LOOPBACK) else r.get
    ensures Get(r) == if Wrapped(r.send - get) == 0 then (Ring(r.msgs, get, r.send), None)
                      else (Ring(r.msgs, Wrapped(get + 1), r.send), Some(r.msgs[Slot(get)]))
  {
  }

  lemma WrappedBound(d: nat)
    ensures Wrapped(d) <= d && (d < WORD ==> Wrapped(d) == d)
  {
  }

  /** Where the read counter stands once overtaken messages are skipped. */
  lemma GetMoves(r: Ring, get: nat, x: nat)
    requires Shaped(r)
    requires get == if Wrapped(r.send - r.get) > MAX_LOOPBACK then Wrapped(r.send - MAX_LOOPBACK) else r.get
    requires x == if Wrapped(r.send - r.get) > MAX_LOOPBACK then MAX_LOOPBACK else Wrapped(r.send - r.get)
    ensures Wrapped(r.send - get) == x == Wrapped(x) && Slot(get) == Slot(r.send - x)
    ensures x > 0 ==> Wrapped(r.send - Wrapped(get + 1)) == x - 1 == Wrapped(x - 1)
  {
    hide Wrapped, Slot;
    if Wrapped(r.send - r.get) > MAX_LOOPBACK {
      WrapMinus(r.send, r.send - MAX_LOOPBACK);
      SlotOfWrapped(r.send - MAX_LOOPBACK, 0);
    } else {
      SlotOfDistance(r.send, r.get);
    }
    SmallWrapped(x);
    if x > 0 {
      SmallWrapped(x - 1);
      WrapMinus(r.send, get + 1);
      WrapAdd(r.send - get, -1);
    }
  }

  lemma SmallWrapped(x: nat)
    requires x <= MAX_LOOPBACK
    ensures Wrapped(x) == x
  {
  }

  lemma SlotOfDistance(send: nat, get: nat)
    requires send < WORD && get < WORD
    ensures Slot(get) == Slot(send - Wrapped(send - get))
  {
    var w := Wrapped(send - get);
    var k := (send - get) / WORD;
    assert send - w == get + MAX_LOOPBACK * (0x4000_0000 * k);
    SlotShift(get, 0x4000_0000 * k);
  }

  /** The ring gives out what a queue of the newest four would, exactly when fewer than 2^32 messages are
      unread, or at least four past a multiple of it. */
  lemma KeepsNewestFour(d: nat)
    ensures Kept(d) == (if d < MAX_LOOPBACK then d else MAX_LOOPBACK) <==> d < WORD || d % WORD >= MAX_LOOPBACK
  {
  }

  // ---- Runs ----

  datatype Op = Put(m: Msg) | Take

  function RunRing(r: Ring, ops: seq<Op>): seq<Option<Msg>>
    requires Shaped(r)
    decreases |ops|
  {
    if ops == [] then []
    else match ops[0]
      case Put(m) => RunRing(Send(r, m), ops[1..])
      case Take => [Get(r).1] + RunRing(Get(r).0, ops[1..])
  }

  function RunFifo(q: seq<Msg>, ops: seq<Op>): seq<Option<Msg>>
    decreases |ops|
  {
    if ops == [] then []
    else match ops[0]
      case Put(m) => RunFifo(FifoSend(q, m), ops[1..])
      case Take => [FifoGet(q).1] + RunFifo(FifoGet(q).0, ops[1..])
  }

  /** With `d` unread now, fewer than 2^32 are unread at every read. */
  predicate Bounded(d: nat, ops: seq<Op>)
    decreases |ops|
  {
    if ops == [] then true
    else match ops[0]
      case Put(_) => Bounded(d + 1, ops[1..])
      case Take => d < WORD && Bounded(if Kept(d) == 0 then 0 else Kept(d) - 1, ops[1..])
  }

  lemma NewestAgain(p: seq<Msg>, m: Msg)
    ensures FifoSend(Newest(p, MAX_LOOPBACK), m) == Newest(p + [m], MAX_LOOPBACK)
  {
  }

  lemma {:induction false} RunsAgree(r: Ring, p: seq<Msg>, ops: seq<Op>)
    requires Holds(r, p) && Bounded(|p|, ops)
    ensures RunRing(r, ops) == RunFifo(Newest(p, MAX_LOOPBACK), ops)
    decreases |ops|
  {
    hide Holds, Send, Get, FifoSend, Kept, Newest, Shaped;
    HoldsShaped(r, p);
    if ops != [] {
      match ops[0] {
        case Put(m) =>
          SendHolds(r, p, m);
          NewestAgain(p, m);
          RunsAgree(Send(r, m), p + [m], ops[1..]);
        case Take =>
          GetHolds(r, p);
          KeepsNewestFour(|p|);
          var q := FifoGet(Newest(p, MAX_LOOPBACK)).0;
          NewestOfFew(p);
          RunsAgree(Get(r).0, q, ops[1..]);
      }
    }
  }

  lemma HoldsShaped(r: Ring, p: seq<Msg>)
    requires Holds(r, p)
    ensures Shaped(r)
  {
  }

  lemma NewestOfFew(p: seq<Msg>)
    ensures |p| < WORD ==> Newest(p, Kept(|p|)) == Newest(p, MAX_LOOPBACK)
    ensures var q := FifoGet(Newest(p, MAX_LOOPBACK)).0;
            && Newest(q, MAX_LOOPBACK) == q
            && (|p| < WORD ==> |q| == if Kept(|p|) == 0 then 0 else Kept(|p|) - 1)
  {
    WrappedBound(|p|);
    hide Wrapped;
    var newest := Newest(p, MAX_LOOPBACK);
    if |p| <= MAX_LOOPBACK {
      assert newest == p;
    } else {
      assert |newest| == MAX_LOOPBACK;
    }
    hide Newest;
    assert |FifoGet(newest).0| < MAX_LOOPBACK;
    NewestOfShort(FifoGet(newest).0);
  }

  lemma NewestOfShort(q: seq<Msg>)
    requires |q| <= MAX_LOOPBACK
    ensures Newest(q, MAX_LOOPBACK) == q
  {
  }

  /** From the cleared state, and for every sequence of sends and reads in which no read comes 2^32
      messages late, the ring is a queue that keeps the newest four. */
  lemma RefinesFifo(r: Ring, ops: seq<Op>)
    requires Shaped(r) && r.get == r.send && Bounded(0, ops)
    ensures RunRing(r, ops) == RunFifo([], ops)
  {
    assert Holds(r, []);
    RunsAgree(r, [], ops);
  }

  // ---- In place ----

  class LoopbackBuffer {
    const msgs: array<Msg>
    var get: nat
    var send: nat

    ghost predicate Valid()
      reads this
    {
      msgs.Length == MAX_LOOPBACK && get < WORD && send < WORD
    }

    ghost function View(): (r: Ring)
      requires Valid()
      reads this, msgs
      ensures Shaped(r)
    {
      Ring(msgs[..], get, send)
    }

    constructor ()
      ensures Valid() && fresh(msgs) && get == send == 0
    {
      msgs := new Msg[MAX_LOOPBACK];
      get, send := 0, 0;
    }

    /** NET_SendLoopPacket; a message that does not fit its slot ends the program. */
    method SendLoopPacket(data: Msg) returns (sysError: bool)
      requires Valid()
      modifies msgs, `send
      ensures Valid() && sysError == (|data| > SLOT_SIZE)
      ensures !sysError ==> View() == Send(old(View()), data)
    {
      var i := Slot(send);
      send := Wrapped(send + 1);
      sysError := |data| > SLOT_SIZE;
      if !sysError {
        msgs[i] := data;
      }
    }

    /** NET_GetLoopPacket */
    method GetLoopPacket() returns (message: Option<Msg>)
      requires Valid()
      modifies `get
      ensures Valid() && (View(), message) == Get(old(View()))
    {
      if Wrapped(send - get) > MAX_LOOPBACK {
        get := Wrapped(send - MAX_LOOPBACK);
      }
      if Wrapped(send - get) == 0 {
        return None;
      }
      var i := Slot(get);
      get := Wrapped(get + 1);
      message := Some(msgs[i]);
    }
  }
}
