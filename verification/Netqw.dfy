/** The reliable half of struct NetQW, updated in place as src/netqw.c does, on top of its linked lists. */
module Netqw {
  import opened Wire
  import opened NetchanSpec
  import opened LinkedList
  import opened PacketListsSpec
  import opened PacketLists
  import opened MovePart
  import N = NetqwSpec

  // ---- The buffers in the list ----

  /** What the buffers hold that have not been freed. */
  function Buffers(s: State): (r: seq<Data>)
    ensures |r| == |s.reliable|
  {
    Datas(s.heap, s.reliable)
  }

  /** A buffer with the address that malloc gave it. */
  datatype Allocation = Allocation(at: nat, data: Data)

  predicate AllFresh(s: State, bs: seq<Allocation>) {
    && (forall i | 0 <= i < |bs| :: Fresh(s, bs[i].at))
    && (forall i, j | 0 <= i < j < |bs| :: bs[i].at != bs[j].at)
  }

  function Contents(bs: seq<Allocation>): (r: seq<Data>)
    ensures |r| == |bs|
  {
    seq(|bs|, i requires 0 <= i < |bs| => bs[i].data)
  }

  /** A step that neither appends nor frees leaves the buffers alone. */
  lemma BuffersStay(s: State, e: Event)
    requires Inv(s) && Enabled(s, e) && (e.StartFreeing? || e.TakeHead? || e.ResetTail?)
    ensures Buffers(Step(s, e)) == Buffers(s) && Step(s, e).heap == s.heap && Step(s, e).reliable == s.reliable
  {
  }

  lemma BufferGone(s: State)
    requires Inv(s) && Enabled(s, FreeTaken)
    ensures s.reliable != [] && Buffers(Step(s, FreeTaken)) == Buffers(s)[1..]
    ensures Step(s, FreeTaken).heap.Keys <= s.heap.Keys && |Step(s, FreeTaken).reliable| == |s.reliable| - 1
    ensures DataAt(s.heap, s.freeing.taken.value) == Buffers(s)[0]
  {
    TailNoDup(s.reliable);
    DatasOfTail(s.heap, s.reliable);
    RestKept(s, FreeTaken, s.reliable[1..]);
  }

  /** An append shows in the list unless the list is closing, and does not change whether it is. */
  lemma BufferAdded(s: State, b: Allocation)
    requires Inv(s) && Fresh(s, b.at)
    ensures var t := Step(s, Append(b.at, b.data));
            && Buffers(t) == (if Closing(s) then Buffers(s) else Buffers(s) + [b.data])
            && Closing(t) == Closing(s) && t.freeing == s.freeing && t.heap.Keys == s.heap.Keys + {b.at}
            && |t.reliable| == (if Closing(s) then |s.reliable| else |s.reliable| + 1)
  {
    var e := Append(b.at, b.data);
    RestKept(s, e, s.reliable);
    DatasOfMore(Step(s, e).heap, s.reliable, b.at);
  }

  lemma BufferJoins(s: State, b: Allocation)
    requires Inv(s) && Free(s) && Fresh(s, b.at)
    ensures var e := Append(b.at, b.data);
            Enabled(s, e) && Buffers(Step(s, e)) == Buffers(s) + [b.data] && Free(Step(s, e))
  {
    hide Inv, Step, Datas;
    BufferAdded(s, b);
  }

  /** Addresses stay unused when the heap shrinks. */
  lemma StillFresh(s: State, t: State, bs: seq<Allocation>)
    requires AllFresh(s, bs) && t.heap.Keys <= s.heap.Keys
    ensures AllFresh(t, bs)
  {
  }

  // ---- In place ----

  class Connection {
    const qport: int
    const lists: PacketQueues
    var currentOutgoing: nat
    var lastIncoming: nat
    var buffersSent: nat
    var reliableSequence: nat
    var incomingReliableXor: bool
    var outgoingReliableXor: bool

    ghost predicate Valid()
      reads this, lists
    {
      lists.Valid() && Free(lists.View()) && buffersSent <= |lists.View().reliable| && 0 <= qport < 65536
    }

    ghost function View(): N.QwClient
      reads this, lists
    {
      N.QwClient(currentOutgoing, lastIncoming, buffersSent, reliableSequence,
                 incomingReliableXor, outgoingReliableXor, Buffers(lists.View()))
    }

    /** NetQW_Create and NetQW_Thread_Init; reliable_sequence_number is left as memory had it. */
    constructor (qport: int, garbage: nat)
      requires 0 <= qport < 65536
      ensures Valid() && fresh(lists) && N.Initial(View())
    {
      this.qport := qport;
      lists := new PacketQueues();
      currentOutgoing, lastIncoming, buffersSent, reliableSequence := 1, 0, 0, garbage;
      incomingReliableXor, outgoingReliableXor := false, false;
    }

    /** NetQW_AppendReliableBuffer; `at` is what malloc returned. */
    method AppendReliableBuffer(buffer: Data, at: Option<nat>) returns (ok: bool)
      requires Valid() && (at.Some? ==> Fresh(lists.View(), at.value))
      modifies lists
      ensures Valid() && ok == at.Some?
      ensures View() == if at.Some? then N.Append(old(View()), buffer) else old(View())
    {
      ok := at.Some?;
      hide Represents, Inv, PacketListsSpec.Free, Fresh, Enabled, Step, Buffers, Dangling;
      if ok {
        InvOf(lists.links, lists.View());
        BufferJoins(lists.View(), Allocation(at.value, buffer));
        var wild := lists.AppendReliableBuffer(at.value, buffer);
      }
    }

    /** As many buffers as fit behind `used` bytes, read off the list. */
    method CollectBuffers(used: nat) returns (j: nat, rel: seq<byte>)
      requires Valid()
      ensures j == N.Fit(View().queue, used) && rel == Flatten(View().queue[..j])
      ensures j > 0 ==> used + |rel| < N.LIMIT
    {
      j, rel := Collect(lists.heap, lists.links, lists.View(), used);
    }

    /** One turn of the send loop of NetQW_Thread_DoSend. */
    method DoSend(m: Moves) returns (buf: seq<byte>)
      requires Valid() && currentOutgoing < BIT31 && lastIncoming < BIT31
      modifies this`currentOutgoing, this`buffersSent, this`reliableSequence, this`incomingReliableXor
      ensures Valid() && View() == N.Send(old(View()), Bytes(m))
      ensures buf == N.DatagramOf(old(View()), qport, Bytes(m))
      ensures |buf| < N.LIMIT
    {
      ghost var c := View();
      var head := Header(currentOutgoing, false, lastIncoming, outgoingReliableXor);
      var moves := Bytes(m);
      var rel: seq<byte> := [];
      hide NetqwHeaderBytes, Bytes, Buffers, PacketListsSpec.Free, N.Fit, Represents;
      NoBuffers(c.queue);
      if buffersSent == 0 {
        var j;
        j, rel := CollectBuffers(N.HEADER + |moves|);
        if j > 0 {
          buffersSent := j;
          reliableSequence := currentOutgoing;
          incomingReliableXor := !incomingReliableXor;
          head := head.(hasReliable := true);
        }
      }
      buf := NetqwHeaderBytes(head) + LE16(qport) + moves + rel;
      currentOutgoing := currentOutgoing + 1;
    }

    /** The client thread appends these, one after another. */
    method ClientAppends(bs: seq<Allocation>, ghost others: seq<Allocation>)
      requires lists.Valid() && AllFresh(lists.View(), bs + others)
      modifies lists
      ensures lists.Valid() && Grown(old(lists.View()), lists.View(), Contents(bs)) && AllFresh(lists.View(), others)
    {
      hide Represents, Step, Enabled, Grown, AllFresh, Contents, Dangling;
      ghost var s := lists.View();
      var i := 0;
      GrownNot(s, bs, others);
      while i < |bs|
        invariant i <= |bs| && lists.Valid() && Grown(s, lists.View(), Contents(bs)[..i])
        invariant AllFresh(lists.View(), bs[i..] + others)
      {
        InvOf(lists.links, lists.View());
        GrownMore(s, lists.View(), bs, others, i);
        var wild := lists.AppendReliableBuffer(bs[i].at, bs[i].data);
        i := i + 1;
      }
      GrownAll(s, lists.View(), bs, others);
    }

    method ClientAppendsLast(bs: seq<Allocation>)
      requires lists.Valid() && AllFresh(lists.View(), bs)
      modifies lists
      ensures lists.Valid() && Grown(old(lists.View()), lists.View(), Contents(bs))
    {
      hide *;
      assert bs + [] == bs;
      ClientAppends(bs, []);
    }

    /** One turn of the loop that frees acknowledged buffers; the client thread appends between the statement
        that takes the head and the one that frees it. */
    method FreeHead(bs: seq<Allocation>, ghost others: seq<Allocation>, ghost left: nat, ghost q: seq<Data>)
      returns (freed: Data)
      requires lists.Valid() && AllFresh(lists.View(), bs + others) && FreeingFrom(lists.View(), left, q) && left > 0
      modifies lists
      ensures lists.Valid() && AllFresh(lists.View(), others) && q != [] && freed == q[0]
      ensures FreeingFrom(lists.View(), left - 1, AfterTurn(q, Contents(bs)))
    {
      hide Represents, Enabled, Step, AllFresh, Contents, Buffers, Grown, AfterTurn, FreeingFrom, DataAt;
      ghost var s := lists.View();
      InvOf(lists.links, s);
      TakeTurn(s, left, q, bs + others);
      lists.TakeReliableHead();
      ghost var taken := lists.View();
      ClientAppends(bs, others);
      ghost var t := lists.View();
      InvOf(lists.links, t);
      FinishTurn(taken, t, left, q, Contents(bs), others);
      var reliablebuffer := lists.freeing.taken.value;
      freed := lists.heap[reliablebuffer].data;
      lists.FreeTakenBuffer();
    }

    /** All turns but the last, nothing being appended. */
    method FreeAllButLast(ghost others: seq<Allocation>, ghost q: seq<Data>) returns (freed: seq<Data>)
      requires lists.Valid() && AllFresh(lists.View(), others) && 0 < buffersSent <= |q|
      requires FreeingFrom(lists.View(), buffersSent, q)
      modifies lists
      ensures lists.Valid() && AllFresh(lists.View(), others)
      ensures FreeingFrom(lists.View(), 1, q[buffersSent - 1..]) && freed == q[..buffersSent - 1]
    {
      hide *;
      var i := 0;
      freed := [];
      assert q[0..] == q && q[..0] == [];
      while i + 1 < buffersSent
        invariant i < buffersSent && lists.Valid() && AllFresh(lists.View(), others)
        invariant FreeingFrom(lists.View(), buffersSent - i, q[i..]) && freed == q[..i]
      {
        NothingAppended(lists.View(), others, q, i);
        var data := FreeHead([], others, buffersSent - i, q[i..]);
        freed := freed + [data];
        i := i + 1;
      }
    }

    /** The loop that frees the bundle, and the tail cleared after it. The client thread appends `early` before
        the last turn, `mid` between the two statements of that turn, and `late` after the loop. */
    method FreeBundle(early: seq<Allocation>, mid: seq<Allocation>, late: seq<Allocation>)
      returns (freed: seq<Data>)
      requires Valid() && buffersSent > 0 && AllFresh(lists.View(), early + (mid + late))
      modifies lists
      ensures lists.Valid() && Free(lists.View()) && freed == old(View()).queue[..buffersSent]
      ensures Buffers(lists.View())
              == AfterBundle(old(View()).queue, buffersSent, Contents(early), Contents(mid) + Contents(late))
    {
      ghost var (q, n) := (Buffers(lists.View()), buffersSent);
      hide Represents, Enabled, Step, AllFresh, Contents, Buffers, Grown, FreeingFrom, AfterTurn, AfterBundle, Inv;
      ghost var all := early + (mid + late);
      InvOf(lists.links, lists.View());
      BeginsFreeing(lists.View(), n, all);
      lists.BeginFreeing(buffersSent);
      freed := FreeAllButLast(all, q);
      ghost var s := lists.View();
      ClientAppends(early, mid + late);
      ghost var rest := q[n - 1..] + Contents(early);
      StillFreeing(s, lists.View(), 1, q[n - 1..], Contents(early));
      var data := FreeHead(mid, late, 1, rest);
      freed := freed + [data];
      s := lists.View();
      ClientAppendsLast(late);
      InvOf(lists.links, lists.View());
      FreeingEnds(s, lists.View(), AfterTurn(rest, Contents(mid)), Contents(late));
      BundleFreed(q, n, Contents(early), Contents(mid), Contents(late));
      lists.ResetReliableTail();
    }

    /** The same appends when nothing is being freed. */
    method AppendsMeanwhile(early: seq<Allocation>, mid: seq<Allocation>, late: seq<Allocation>)
      requires lists.Valid() && Free(lists.View()) && AllFresh(lists.View(), early + (mid + late))
      modifies lists
      ensures lists.Valid() && Free(lists.View())
      ensures Buffers(lists.View())
              == old(Buffers(lists.View())) + Contents(early) + (Contents(mid) + Contents(late))
    {
      hide Represents, AllFresh, Contents, Buffers, Grown;
      ghost var s := lists.View();
      ClientAppends(early, mid + late);
      JoinedAll(s, lists.View(), Contents(early));
      ghost var s1 := lists.View();
      ClientAppends(mid, late);
      JoinedAll(s1, lists.View(), Contents(mid));
      ghost var s2 := lists.View();
      ClientAppendsLast(late);
      JoinedAll(s2, lists.View(), Contents(late));
      assert Buffers(lists.View()) == Buffers(s) + Contents(early) + (Contents(mid) + Contents(late));
    }

    /** NetQW_Thread_HandleReceivedPacket on a packet whose header is `h`. The client thread appends `early`
        before the last buffer is taken off the list, `mid` between the two statements that take and free it,
        and `late` after the loop. */
    method HandleReceivedPacket(h: Header, early: seq<Allocation>, mid: seq<Allocation>, late: seq<Allocation>)
      returns (freed: seq<Data>)
      requires Valid() && AllFresh(lists.View(), early + (mid + late))
      modifies this`lastIncoming, this`buffersSent, this`incomingReliableXor, this`outgoingReliableXor, lists
      ensures Valid()
      ensures View() == N.HandleAround(old(View()), h, Contents(early), Contents(mid) + Contents(late))
      ensures freed == old(View()).queue[..N.Freed(old(View()), h)]
    {
      ghost var (c, ec, lc) := (View(), Contents(early), Contents(mid) + Contents(late));
      hide Represents, PacketListsSpec.Free, Buffers, AllFresh, Contents, AfterBundle, N.HandleAround;
      lastIncoming := h.seqNo;
      if h.hasReliable {
        outgoingReliableXor := !outgoingReliableXor;
      }
      if buffersSent > 0 && h.seqNo >= reliableSequence && incomingReliableXor == h.ackBit {
        HandledFreeing(c, h, ec, lc);
        freed := FreeBundle(early, mid, late);
        buffersSent := 0;
      } else {
        HandledKeeping(c, h, ec, lc);
        freed := [];
        if buffersSent > 0 && h.seqNo >= reliableSequence {
          buffersSent := 0;
          incomingReliableXor := !incomingReliableXor;
        }
        AppendsMeanwhile(early, mid, late);
      }
    }

    /** The connected branch of NetQW_Thread_DoReceive with no lag set: the packet dropped by one of the two
        sequence checks, or for want of memory, or handled at once. */
    method DoReceive(buf: seq<byte>, mallocOk: bool,
                     early: seq<Allocation>, mid: seq<Allocation>, late: seq<Allocation>)
      returns (accepted: bool, freed: seq<Data>)
      requires Valid() && AllFresh(lists.View(), early + (mid + late))
      modifies this`lastIncoming, this`buffersSent, this`incomingReliableXor, this`outgoingReliableXor, lists
      ensures Valid()
      ensures accepted <==> |buf| >= 8 && mallocOk
                            && NetqwParse(buf).seqNo > old(lastIncoming) && NetqwParse(buf).ack < currentOutgoing
      ensures if accepted
        then
          && View() == N.HandleAround(old(View()), NetqwParse(buf), Contents(early), Contents(mid) + Contents(late))
          && freed == old(View()).queue[..N.Freed(old(View()), NetqwParse(buf))]
        else
          && View() == N.AppendAll(old(View()), Contents(early) + (Contents(mid) + Contents(late)))
          && freed == []
    {
      ghost var (c, ec, lc) := (View(), Contents(early), Contents(mid) + Contents(late));
      hide Represents, PacketListsSpec.Free, Buffers, AllFresh, Contents, N.HandleAround, NetqwParse;
      accepted, freed := false, [];
      if |buf| >= 8 {
        var h := NetqwParse(buf);
        if h.seqNo > lastIncoming && h.ack < currentOutgoing && mallocOk {
          accepted := true;
          freed := HandleReceivedPacket(h, early, mid, late);
          return;
        }
      }
      AppendsMeanwhile(early, mid, late);
      assert c.queue + ec + lc == c.queue + (ec + lc);
    }
  }

  /** What the list holds when the first `n` of `q` have been freed; `early` was appended before the last of
      them was taken, `late` after. */
  function AfterBundle(q: seq<Data>, n: nat, early: seq<Data>, late: seq<Data>): seq<Data>
    requires n <= |q|
  {
    if n == |q + early| then [] else (q + early)[n..] + late
  }

  lemma JoinedAll(s: State, t: State, added: seq<Data>)
    requires Free(s) && Grown(s, t, added)
    ensures Free(t) && Buffers(t) == Buffers(s) + added
  {
  }

  /** The protocol step when the packet acknowledges the bundle ... */
  lemma HandledFreeing(c: N.QwClient, h: Header, early: seq<Data>, late: seq<Data>)
    requires c.buffersSent <= |c.queue| && N.Decides(c, h) && h.ackBit == c.sentXor
    ensures var d := c.(lastIn := h.seqNo, ackXor := if h.hasReliable then !c.ackXor else c.ackXor, buffersSent := 0);
            N.HandleAround(c, h, early, late) == d.(queue := AfterBundle(c.queue, c.buffersSent, early, late))
    ensures N.Freed(c, h) == c.buffersSent
  {
  }

  /** ... and when it does not. */
  lemma HandledKeeping(c: N.QwClient, h: Header, early: seq<Data>, late: seq<Data>)
    requires c.buffersSent <= |c.queue| && !(N.Decides(c, h) && h.ackBit == c.sentXor)
    ensures var d := c.(lastIn := h.seqNo, ackXor := if h.hasReliable then !c.ackXor else c.ackXor,
                        queue := c.queue + early + late);
            N.HandleAround(c, h, early, late)
            == if N.Decides(c, h) then d.(buffersSent := 0, sentXor := !c.sentXor) else d
    ensures N.Freed(c, h) == 0 && c.queue[..0] == []
  {
  }

  lemma BundleFreed(q: seq<Data>, n: nat, early: seq<Data>, mid: seq<Data>, late: seq<Data>)
    requires 0 < n <= |q|
    ensures var r := AfterTurn(q[n - 1..] + early, mid);
            (if r == [] then [] else r + late) == AfterBundle(q, n, early, mid + late)
    ensures (q[n - 1..] + early)[0] == q[n - 1] && q[..n - 1] + [q[n - 1]] == q[..n]
  {
    Slices(q, n, early);
    var rest := (q + early)[n..];
    assert rest + mid + late == rest + (mid + late);
  }

  lemma Slices(q: seq<Data>, n: nat, early: seq<Data>)
    requires 0 < n <= |q|
    ensures (q[n - 1..] + early)[1..] == (q + early)[n..] && q[..n - 1] + [q[n - 1]] == q[..n]
  {
  }

  /** Between two turns of the loop, `left` of the buffers `q` are still to be freed. */
  predicate FreeingFrom(s: State, left: nat, q: seq<Data>) {
    s.freeing == Freeing(left, None) && left <= |q| && Buffers(s) == q
  }

  /** A turn frees the first buffer; what was appended meanwhile is behind the others, unless the turn took the
      only one. */
  function AfterTurn(q: seq<Data>, added: seq<Data>): seq<Data> {
    if |q| <= 1 then [] else q[1..] + added
  }

  lemma NothingAppended(s: State, bs: seq<Allocation>, q: seq<Data>, i: nat)
    requires AllFresh(s, bs) && i + 1 < |q|
    ensures AllFresh(s, [] + bs) && AfterTurn(q[i..], Contents([])) == q[i + 1..]
    ensures q[i..][0] == q[i] && q[..i] + [q[i]] == q[..i + 1]
  {
    assert [] + bs == bs && Contents([]) == [] && q[i..][1..] == q[i + 1..];
  }

  lemma BeginsFreeing(s: State, n: nat, bs: seq<Allocation>)
    requires Inv(s) && Free(s) && 0 < n <= |s.reliable| && AllFresh(s, bs)
    ensures Enabled(s, StartFreeing(n))
    ensures FreeingFrom(Step(s, StartFreeing(n)), n, Buffers(s)) && AllFresh(Step(s, StartFreeing(n)), bs)
  {
  }

  lemma TakeTurn(s: State, left: nat, q: seq<Data>, bs: seq<Allocation>)
    requires Inv(s) && AllFresh(s, bs) && FreeingFrom(s, left, q) && left > 0
    ensures Enabled(s, TakeHead) && AllFresh(Step(s, TakeHead), bs) && Taken(Step(s, TakeHead), left - 1, q)
  {
    BuffersStay(s, TakeHead);
  }

  /** The first buffer of `q` has been taken off the list and not yet freed. */
  predicate Taken(s: State, left: nat, q: seq<Data>) {
    && s.freeing.Freeing? && s.freeing.left == left && s.freeing.taken != None
    && left < |q| && Buffers(s) == q && (Closing(s) <==> |q| == 1)
  }

  /** The buffer taken is the first of the list until it is freed. */
  lemma TakenIsFirst(t: State)
    requires Inv(t) && t.freeing.Freeing? && t.freeing.taken != None
    ensures Enabled(t, FreeTaken) && t.reliable != [] && |Buffers(t)| == |t.reliable|
    ensures var a := t.freeing.taken.value; a in t.heap && t.heap[a].data == Buffers(t)[0]
    ensures Step(t, FreeTaken).freeing == t.freeing.(taken := None)
    ensures Closing(t) <==> |t.reliable| == 1
  {
    assert Owned(t, t.reliable[0]);
  }

  lemma FinishTurn(taken: State, t: State, left: nat, q: seq<Data>, added: seq<Data>, others: seq<Allocation>)
    requires Inv(t) && left > 0 && Taken(taken, left - 1, q) && Grown(taken, t, added) && AllFresh(t, others)
    ensures Enabled(t, FreeTaken) && FreeingFrom(Step(t, FreeTaken), left - 1, AfterTurn(q, added))
    ensures AllFresh(Step(t, FreeTaken), others) && t.freeing.Freeing? && t.freeing.taken != None
    ensures var a := t.freeing.taken.value; q != [] && a in t.heap && t.heap[a].data == q[0]
  {
    TakenIsFirst(t);
    hide Inv, Core, Closing, Enabled, Step, AllFresh, Datas;
    BufferGone(t);
    StillFresh(t, Step(t, FreeTaken), others);
  }

  lemma StillFreeing(s: State, t: State, left: nat, q: seq<Data>, added: seq<Data>)
    requires FreeingFrom(s, left, q) && left > 0 && Grown(s, t, added)
    ensures FreeingFrom(t, left, q + added)
  {
  }

  /** The loop is over: what is appended now joins the list if there is one. */
  lemma FreeingEnds(s: State, t: State, q: seq<Data>, added: seq<Data>)
    requires Inv(t) && FreeingFrom(s, 0, q) && Grown(s, t, added)
    ensures Enabled(t, ResetTail) && Free(Step(t, ResetTail))
    ensures Buffers(Step(t, ResetTail)) == if q == [] then [] else q + added
  {
    BuffersStay(t, ResetTail);
  }

  /** From `s` to `t` the client thread has appended `added`, and nothing else has happened. */
  ghost predicate Grown(s: State, t: State, added: seq<Data>) {
    && t.freeing == s.freeing && Closing(t) == Closing(s)
    && Buffers(t) == (if Closing(s) then Buffers(s) else Buffers(s) + added)
  }

  lemma GrownNot(s: State, bs: seq<Allocation>, others: seq<Allocation>)
    requires AllFresh(s, bs + others)
    ensures Grown(s, s, Contents(bs)[..0]) && AllFresh(s, bs[0..] + others)
  {
    assert Buffers(s) + Contents(bs)[..0] == Buffers(s) && bs[0..] == bs;
  }

  lemma GrownMore(s: State, t: State, bs: seq<Allocation>, others: seq<Allocation>, i: nat)
    requires Inv(t) && i < |bs| && Grown(s, t, Contents(bs)[..i]) && AllFresh(t, bs[i..] + others)
    ensures var e := Append(bs[i].at, bs[i].data);
            && Enabled(t, e) && Grown(s, Step(t, e), Contents(bs)[..i + 1])
            && AllFresh(Step(t, e), bs[i + 1..] + others)
  {
    FreshAfter(t, bs, others, i);
    hide AllFresh, Inv, Step, Closing, Buffers;
    BufferAdded(t, bs[i]);
    assert Contents(bs)[..i + 1] == Contents(bs)[..i] + [bs[i].data];
  }

  lemma GrownAll(s: State, t: State, bs: seq<Allocation>, others: seq<Allocation>)
    requires Grown(s, t, Contents(bs)[..|bs|]) && AllFresh(t, bs[|bs|..] + others)
    ensures Grown(s, t, Contents(bs)) && AllFresh(t, others)
  {
    assert bs[|bs|..] + others == others && Contents(bs)[..|bs|] == Contents(bs);
  }

  /** The loop that bundles buffers, over the list as it stands. */
  method Collect(heap: map<nat, Block>, links: Pointers, ghost s: State, used: nat) returns (j: nat, rel: seq<byte>)
    requires Represents(links, s) && Free(s) && s.heap == heap
    ensures j == N.Fit(Buffers(s), used) && rel == Flatten(Buffers(s)[..j])
    ensures j > 0 ==> used + |rel| < N.LIMIT
  {
    hide Represents, Buffers;
    ghost var all := Buffers(s);
    ListNext(s, links, 0);
    var reliablebuffer := links.reliableHead;
    j, rel := 0, [];
    assert all[0..] == all;
    while reliablebuffer != 0 && used + |rel| + |heap[reliablebuffer].data| < N.LIMIT
      invariant j <= |all| && reliablebuffer == At(s.reliable, j)
      invariant reliablebuffer != 0 ==> reliablebuffer in heap
      invariant rel == Flatten(all[..j]) && (j > 0 ==> used + |rel| < N.LIMIT)
      invariant N.Fit(all, used) == j + N.Fit(all[j..], used + |rel|)
      decreases |all| - j
    {
      ListNext(s, links, j);
      assert all[j..][0] == all[j] && all[j..][1..] == all[j + 1..];
      assert all[..j + 1][..j] == all[..j];
      rel := rel + heap[reliablebuffer].data;
      reliablebuffer := links.reliableNext[reliablebuffer];
      j := j + 1;
    }
    ListNext(s, links, j);
    assert j < |all| ==> all[j..][0] == all[j];
  }

  /** Element `j` of a list, null behind its end. */
  function At(q: seq<nat>, j: nat): nat {
    if j < |q| then q[j] else 0
  }

  lemma InvOf(p: Pointers, s: State)
    requires Represents(p, s)
    ensures Inv(s)
  {
  }

  lemma NoBuffers(q: seq<Data>)
    ensures Flatten(q[..0]) == []
  {
  }

  lemma ListNext(s: State, p: Pointers, j: nat)
    requires Represents(p, s) && Free(s)
    ensures j == 0 ==> p.reliableHead == At(s.reliable, 0)
    ensures j >= |s.reliable| ==> At(s.reliable, j) == 0
    ensures j < |s.reliable| ==>
              && s.reliable[j] != 0 && s.reliable[j] in s.heap && s.heap[s.reliable[j]].data == Buffers(s)[j]
              && s.reliable[j] in p.reliableNext && p.reliableNext[s.reliable[j]] == At(s.reliable, j + 1)
              && At(s.reliable, j) == s.reliable[j] && (j + 1 < |s.reliable| ==> s.reliable[j + 1] in s.heap)
  {
    if j < |s.reliable| {
      assert Owned(s, s.reliable[j]);
      if j + 1 < |s.reliable| {
        assert Owned(s, s.reliable[j + 1]);
      }
    }
  }

  lemma FirstFresh(s: State, bs: seq<Allocation>, others: seq<Allocation>, i: nat)
    requires i < |bs| && AllFresh(s, bs[i..] + others)
    ensures Fresh(s, bs[i].at)
  {
    assert (bs[i..] + others)[0] == bs[i];
  }

  lemma FreshAfter(s: State, bs: seq<Allocation>, others: seq<Allocation>, i: nat)
    requires i < |bs| && AllFresh(s, bs[i..] + others) && Inv(s)
    ensures Fresh(s, bs[i].at) && AllFresh(Step(s, Append(bs[i].at, bs[i].data)), bs[i + 1..] + others)
  {
    FirstFresh(s, bs, others, i);
    var t := Step(s, Append(bs[i].at, bs[i].data));
    var (now, later) := (bs[i..] + others, bs[i + 1..] + others);
    assert now[0] == bs[i];
    forall k | 0 <= k < |later| ensures later[k] == now[k + 1] && Fresh(t, later[k].at) {
    }
  }
}
