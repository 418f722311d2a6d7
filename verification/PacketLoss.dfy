/** The reply window of src/netqw.c: 200 slots that tell which of the last packets were answered. */
module PacketLoss {

  const HISTORY := 200

  /** replyreceived, current_outgoing_sequence_number and packetloss. */
  datatype Meter = Meter(slots: seq<int>, current: nat, loss: nat)

  predicate Shaped(m: Meter) {
    |m.slots| == HISTORY && m.current >= 1
  }

  function Slot(n: nat): (k: nat)
    ensures k < HISTORY
  {
    n % HISTORY
  }

  /** A packet goes out: its slot is cleared. */
  function OnSend(m: Meter): (r: Meter)
    requires Shaped(m)
    ensures Shaped(r)
  {
    m.(slots := m.slots[Slot(m.current) := 0], current := m.current + 1)
  }

  predicate InWindow(m: Meter, reply: nat) {
    reply + HISTORY > m.current
  }

  /** How many slots are scanned, counting down from the reply. */
  function Scanned(current: nat, reply: nat): int {
    (if current > HISTORY then HISTORY else current) - (current - reply + 1)
  }

  /** Unanswered slots among `n` counted down from `reply`. */
  function LostCount(slots: seq<int>, reply: nat, n: nat): (c: nat)
    requires |slots| == HISTORY && n <= reply
    ensures c <= n
  {
    if n == 0 then 0
    else LostCount(slots, reply, n - 1) + (if slots[Slot(reply - (n - 1))] == 0 then 1 else 0)
  }

  function Percentage(lost: nat): nat {
    (lost * 100 + (HISTORY - 1)) / HISTORY
  }

  /** Replies carry the number of a packet already sent. */
  predicate Answers(m: Meter, reply: nat) {
    1 <= reply < m.current
  }

  function OnReply(m: Meter, reply: nat): (r: Meter)
    requires Shaped(m) && Answers(m, reply)
    ensures Shaped(r)
  {
    if !InWindow(m, reply) then m
    else
      var slots := m.slots[Slot(reply) := 1];
      m.(slots := slots, loss := Percentage(LostCount(slots, reply, Scanned(m.current, reply))))
  }

  // ---- Runs ----

  datatype Event = Send | Reply(reply: nat)

  ghost predicate Runs(m: Meter, replied: set<nat>, es: seq<Event>, out: Meter, outReplied: set<nat>)
    requires Shaped(m)
    decreases |es|
  {
    if es == [] then out == m && outReplied == replied
    else match es[0]
      case Send => Runs(OnSend(m), replied, es[1..], out, outReplied)
      case Reply(n) => Answers(m, n) && Runs(OnReply(m, n), replied + {n}, es[1..], out, outReplied)
  }

  /** Before the first packet; the slots hold whatever memory held. */
  predicate Initial(m: Meter) {
    Shaped(m) && m.current == 1 && m.loss == 0
  }

  predicate Recent(n: nat, current: nat) {
    1 <= n < current < n + HISTORY
  }

  /** The slots of the recent packets, and of no others, are accurate. */
  ghost predicate Tracks(m: Meter, replied: set<nat>)
    requires Shaped(m)
  {
    && (forall n | n in replied :: 1 <= n < m.current)
    && (forall n: nat | Recent(n, m.current) :: m.slots[Slot(n)] == 0 <==> n !in replied)
  }

  lemma RecentSlotsDiffer(a: nat, b: nat)
    requires a < b < a + HISTORY
    ensures Slot(a) != Slot(b)
  {
  }

  lemma SendTracks(m: Meter, replied: set<nat>)
    requires Shaped(m) && Tracks(m, replied)
    ensures Tracks(OnSend(m), replied)
  {
    hide Slot;
    forall n: nat | Recent(n, m.current + 1)
      ensures OnSend(m).slots[Slot(n)] == 0 <==> n !in replied
    {
      if n < m.current {
        RecentSlotsDiffer(n, m.current);
        assert Recent(n, m.current);
      }
    }
  }

  lemma ReplyTracks(m: Meter, replied: set<nat>, reply: nat)
    requires Shaped(m) && Tracks(m, replied) && Answers(m, reply)
    ensures Tracks(OnReply(m, reply), replied + {reply})
  {
    hide Slot, LostCount, Percentage;
    forall n: nat | Recent(n, m.current)
      ensures OnReply(m, reply).slots[Slot(n)] == 0 <==> n !in replied + {reply}
    {
      if InWindow(m, reply) && n < reply {
        RecentSlotsDiffer(n, reply);
      } else if InWindow(m, reply) && reply < n {
        RecentSlotsDiffer(reply, n);
      }
    }
  }

  lemma {:induction false} RunTracks(m: Meter, replied: set<nat>, es: seq<Event>, out: Meter, outReplied: set<nat>)
    requires Shaped(m) && Tracks(m, replied) && Runs(m, replied, es, out, outReplied)
    ensures Shaped(out) && Tracks(out, outReplied)
    decreases |es|
  {
    hide Tracks, OnSend, OnReply;
    if es != [] {
      match es[0] {
        case Send =>
          SendTracks(m, replied);
          RunTracks(OnSend(m), replied, es[1..], out, outReplied);
        case Reply(n) =>
          ReplyTracks(m, replied, n);
          RunTracks(OnReply(m, n), replied + {n}, es[1..], out, outReplied);
      }
    }
  }

  // ---- The loss figure ----

  function Oldest(current: nat): nat {
    if current > HISTORY then current - HISTORY + 2 else 2
  }

  /** The packets from `from` up to the reply that nobody answered. */
  function Unanswered(from: nat, reply: nat, replied: set<nat>): set<nat> {
    set n | from <= n <= reply && n !in replied
  }

  lemma {:induction false} CountIsExact(m: Meter, replied: set<nat>, reply: nat, n: nat)
    requires Shaped(m) && Tracks(m, replied) && 1 <= reply < m.current && n <= reply
    requires forall k | reply - n < k <= reply :: Recent(k, m.current)
    ensures LostCount(m.slots, reply, n) == |Unanswered(reply - n + 1, reply, replied)|
  {
    hide Tracks, Slot;
    var all := Unanswered(reply - n + 1, reply, replied);
    if n == 0 {
      assert all == {};
    } else {
      var k := reply - (n - 1);
      CountIsExact(m, replied, reply, n - 1);
      var rest := Unanswered(k + 1, reply, replied);
      assert Recent(k, m.current);
      assert m.slots[Slot(k)] == 0 <==> k !in replied by { TracksAt(m, replied, k); }
      assert all == if k in replied then rest else rest + {k};
    }
  }

  lemma TracksAt(m: Meter, replied: set<nat>, n: nat)
    requires Shaped(m) && Tracks(m, replied) && Recent(n, m.current)
    ensures m.slots[Slot(n)] == 0 <==> n !in replied
  {
  }

  /** In every run: a reply in the window sets the loss to half the number of unanswered packets, rounded
      up, over exactly the packets from the oldest the window can tell to the reply; it never gets past 99. A reply
      200 or more packets late changes nothing. */
  lemma LossIsExact(m: Meter, es: seq<Event>, out: Meter, replied: set<nat>, reply: nat)
    requires Initial(m) && Runs(m, {}, es, out, replied) && Shaped(out)
    requires Answers(out, reply)
    ensures reply + 200 > out.current ==>
              var lost := |Unanswered(Oldest(out.current), reply, replied + {reply})|;
              OnReply(out, reply).loss == (lost + 1) / 2 <= 99
    ensures reply + 200 <= out.current ==> OnReply(out, reply) == out
    ensures forall n | n in Unanswered(Oldest(out.current), reply, replied + {reply}) :: 1 <= n < out.current
  {
    if reply + 200 > out.current {
      LossInWindow(m, es, out, replied, reply);
    }
  }

  lemma LossInWindow(m: Meter, es: seq<Event>, out: Meter, replied: set<nat>, reply: nat)
    requires Initial(m) && Runs(m, {}, es, out, replied) && Shaped(out)
    requires Answers(out, reply) && InWindow(out, reply)
    ensures var lost := |Unanswered(Oldest(out.current), reply, replied + {reply})|;
            OnReply(out, reply).loss == (lost + 1) / 2 <= 99
  {
    hide Tracks, Runs, Slot, LostCount, Recent;
    assert Tracks(m, {}) by { NothingTracked(m); }
    RunTracks(m, {}, es, out, replied);
    ReplyTracks(out, replied, reply);
    var next := OnReply(out, reply);
    var n := Scanned(out.current, reply);
    ScanIsRecent(out.current, reply);
    CountIsExact(next, replied + {reply}, reply, n);
    assert reply - n + 1 == Oldest(out.current);
    HalfRoundedUp(LostCount(next.slots, reply, n));
  }

  lemma NothingTracked(m: Meter)
    requires Initial(m)
    ensures Tracks(m, {})
  {
  }

  lemma ScanIsRecent(current: nat, reply: nat)
    requires 1 <= reply < current < reply + HISTORY
    ensures 0 <= Scanned(current, reply) <= 198 && Scanned(current, reply) <= reply
    ensures forall k: nat | reply - Scanned(current, reply) < k <= reply :: Recent(k, current)
  {
  }

  lemma HalfRoundedUp(lost: nat)
    ensures Percentage(lost) == (lost + 1) / 2
  {
    assert lost * 100 + 199 == 200 * ((lost + 1) / 2) + (lost * 100 + 199 - 200 * ((lost + 1) / 2));
  }

  // ---- In place ----

  class ReplyWindow {
    const replyreceived: array<int>
    var currentOutgoing: nat
    var packetloss: nat

    ghost predicate Valid()
      reads this
    {
      replyreceived.Length == HISTORY && currentOutgoing >= 1
    }

    ghost function View(): (m: Meter)
      requires Valid()
      reads this, replyreceived
      ensures Shaped(m)
    {
      Meter(replyreceived[..], currentOutgoing, packetloss)
    }

    /** malloc leaves the slots as they are; NetQW_Thread_Init starts the numbers at 1. */
    constructor (garbage: nat -> int)
      ensures Valid() && fresh(replyreceived) && Initial(View())
    {
      replyreceived := new int[HISTORY](garbage);
      currentOutgoing, packetloss := 1, 0;
    }

    /** The bookkeeping after a packet has been sent. */
    method PacketSent()
      requires Valid()
      modifies replyreceived, `currentOutgoing
      ensures Valid() && View() == OnSend(old(View()))
    {
      replyreceived[currentOutgoing % HISTORY] := 0;
      currentOutgoing := currentOutgoing + 1;
    }

    /** The loss part of NetQW_Thread_HandleReceivedPacket. */
    method HandleReply(reply: nat)
      requires Valid() && Answers(View(), reply)
      modifies replyreceived, `packetloss
      ensures Valid() && View() == OnReply(old(View()), reply)
    {
      if reply + HISTORY > currentOutgoing {
        replyreceived[reply % HISTORY] := 1;
        ghost var slots := replyreceived[..];
        var j := if currentOutgoing > HISTORY then HISTORY else currentOutgoing;
        j := j - (currentOutgoing - reply + 1);
        var lostpackets := 0;
        var i := 0;
        while i < j
          invariant 0 <= i <= j && lostpackets == LostCount(slots, reply, i)
        {
          if replyreceived[(reply - i) % HISTORY] == 0 {
            lostpackets := lostpackets + 1;
          }
          i := i + 1;
        }
        packetloss := (lostpackets * 100 + (HISTORY - 1)) / HISTORY;
      }
    }
  }
}
