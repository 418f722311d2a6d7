/** The four linked lists of struct NetQW and the blocks on them, updated in place as src/netqw.c does. A
    struct field is a map from addresses; an address must be allocated to be read, written or freed. */
module PacketLists {
  import opened Wire
  import opened LinkedList
  import opened PacketListsSpec

  // ---- The pointers as a value ----

  /** The fields clientnext and internalnext of received packets, next of the two other structs, and the heads
      and tails. The tail of the reliable buffers is part of the state. */
  datatype Pointers = Pointers(clientNext: map<nat, nat>, clientHead: nat, clientTail: nat,
                               internalNext: map<nat, nat>, internalHead: nat, internalTail: nat,
                               reliableNext: map<nat, nat>, reliableHead: nat,
                               sendNext: map<nat, nat>, sendHead: nat, sendTail: nat)

  datatype Kind = ClientPacket | Buffer | SendPacket

  function KindOf(b: Block): Kind {
    match b case Received(_, _, _) => ClientPacket case Reliable(_) => Buffer case Queued(_) => SendPacket
  }

  /** A next field exists at the addresses of its struct. */
  ghost predicate FieldOf(next: map<nat, nat>, heap: map<nat, Block>, k: Kind) {
    forall a :: a in next <==> a in heap && KindOf(heap[a]) == k
  }

  /** A block allocated, and its field cleared. */
  lemma FieldNew(next: map<nat, nat>, heap: map<nat, Block>, k: Kind, at: nat, b: Block)
    requires FieldOf(next, heap, k) && at !in heap
    ensures FieldOf(if KindOf(b) == k then next[at := 0] else next, heap[at := b], k)
  {
  }

  lemma FieldSet(next: map<nat, nat>, heap: map<nat, Block>, k: Kind, a: nat, v: nat)
    requires FieldOf(next, heap, k) && a in next
    ensures FieldOf(next[a := v], heap, k)
  {
  }

  lemma FieldFreed(next: map<nat, nat>, heap: map<nat, Block>, k: Kind, a: nat)
    requires FieldOf(next, heap, k) && a in heap
    ensures FieldOf(if KindOf(heap[a]) == k then next - {a} else next, heap - {a}, k)
  {
  }

  /** The buffers that the head still leads to. */
  function Reachable(s: State): seq<nat> {
    if s.freeing.Freeing? && s.freeing.taken != None && s.reliable != [] then s.reliable[1..] else s.reliable
  }

  /** A packet that is not yet published has a null pointer. */
  predicate Unpublished(next: map<nat, nat>, arriving: Option<nat>) {
    arriving != None ==> arriving.value in next && next[arriving.value] == 0
  }

  ghost predicate ClientLinks(s: State, p: Pointers) {
    && Linked(p.clientNext, p.clientHead, p.clientTail, s.client)
    && FieldOf(p.clientNext, s.heap, ClientPacket) && Unpublished(p.clientNext, s.arriving)
  }

  ghost predicate InternalLinks(s: State, p: Pointers) {
    Linked(p.internalNext, p.internalHead, p.internalTail, s.internal) && FieldOf(p.internalNext, s.heap, ClientPacket)
  }

  ghost predicate ReliableLinks(s: State, p: Pointers) {
    Chain(p.reliableNext, p.reliableHead, Reachable(s)) && FieldOf(p.reliableNext, s.heap, Buffer)
  }

  ghost predicate SendLinks(s: State, p: Pointers) {
    Linked(p.sendNext, p.sendHead, p.sendTail, s.sendq) && FieldOf(p.sendNext, s.heap, SendPacket)
  }

  /** The pointers represent the lists of the state. */
  ghost predicate Represents(p: Pointers, s: State) {
    Inv(s) && ClientLinks(s, p) && InternalLinks(s, p) && ReliableLinks(s, p) && SendLinks(s, p)
  }

  /** What the program itself keeps of a state. */
  datatype Seen = Seen(heap: map<nat, Block>, tail: nat, arriving: Option<nat>, handling: Option<nat>, freeing: Freeing)

  function SeenOf(s: State): Seen {
    Seen(s.heap, s.tail, s.arriving, s.handling, s.freeing)
  }

  lemma NotListed(s: State, at: nat)
    requires Inv(s) && at !in s.heap
    ensures at !in s.client && at !in s.internal && at !in s.reliable && at !in s.sendq && at !in s.lost
    ensures s.arriving != Some(at)
  {
    assert Owned(s, at);
  }

  lemma InvCore(s: State)
    requires Inv(s)
    ensures Core(s)
  {
  }

  lemma HoldersAreLive(s: State)
    requires Core(s)
    ensures forall a | a in s.client || a in s.internal || s.arriving == Some(a) || s.handling == Some(a) ::
              a in s.heap && s.heap[a].Received? && s.heap[a].usecount > 0
  {
    forall a | a in s.client || a in s.internal || s.arriving == Some(a) || s.handling == Some(a)
      ensures a in s.heap && s.heap[a].Received? && s.heap[a].usecount > 0
    {
      assert Owned(s, a);
    }
  }

  // ---- One list at a time ----

  lemma FieldsOfNew(s: State, p: Pointers, at: nat, b: Block)
    requires Represents(p, s) && at !in s.heap
    ensures var h := s.heap[at := b];
            && (b.Received? ==> FieldOf(p.clientNext[at := 0], h, ClientPacket)
                                && FieldOf(p.internalNext[at := 0], h, ClientPacket))
            && (!b.Received? ==> FieldOf(p.clientNext, h, ClientPacket) && FieldOf(p.internalNext, h, ClientPacket))
            && FieldOf(if b.Reliable? then p.reliableNext[at := 0] else p.reliableNext, h, Buffer)
            && FieldOf(if b.Queued? then p.sendNext[at := 0] else p.sendNext, h, SendPacket)
  {
    hide Inv, Linked, Chain, FieldOf;
    FieldNew(p.clientNext, s.heap, ClientPacket, at, b);
    FieldNew(p.internalNext, s.heap, ClientPacket, at, b);
    FieldNew(p.reliableNext, s.heap, Buffer, at, b);
    FieldNew(p.sendNext, s.heap, SendPacket, at, b);
  }

  /** A packet handled at once: its two pointers are cleared. */
  lemma ArrivesAtOnce(s: State, p: Pointers, at: nat, data: Data)
    requires Represents(p, s) && Enabled(s, Arrive(at, data, false))
    ensures Represents(p.(clientNext := p.clientNext[at := 0], internalNext := p.internalNext[at := 0]),
                       Step(s, Arrive(at, data, false)))
    ensures SeenOf(Step(s, Arrive(at, data, false)))
            == SeenOf(s).(heap := s.heap[at := Received(data, false, 1)], arriving := Some(at))
  {
    hide Inv, Core, Linked, Chain, FieldOf;
    StepKeeps(s, Arrive(at, data, false));
    NotListed(s, at);
    FieldsOfNew(s, p, at, Received(data, false, 1));
    var t := Step(s, Arrive(at, data, false));
    assert t.client == s.client && t.internal == s.internal && t.sendq == s.sendq;
    assert t.heap == s.heap[at := Received(data, false, 1)] && t.arriving == Some(at) && Reachable(t) == Reachable(s);
    hide Step, Enabled, Reachable;
    LinkedKept(p.clientNext, p.clientNext[at := 0], p.clientHead, p.clientTail, s.client);
    LinkedKept(p.internalNext, p.internalNext[at := 0], p.internalHead, p.internalTail, s.internal);
  }

  /** The internal list with a new packet behind its tail. */
  function InternalWith(p: Pointers, at: nat): map<nat, nat> {
    if p.internalTail != 0 then p.internalNext[at := 0][p.internalTail := at] else p.internalNext[at := 0]
  }

  lemma InternalLinked(s: State, p: Pointers, at: nat, heap: map<nat, Block>)
    requires InternalLinks(s, p) && at != 0 && at !in s.internal
    requires FieldOf(p.internalNext[at := 0], heap, ClientPacket)
    ensures p.internalTail != 0 ==> p.internalTail in p.internalNext[at := 0]
    ensures FieldOf(InternalWith(p, at), heap, ClientPacket)
    ensures Linked(InternalWith(p, at), if p.internalTail == 0 then at else p.internalHead, at, s.internal + [at])
  {
    LinkedAppended(p.internalNext, p.internalHead, p.internalTail, s.internal, at);
    hide Linked, FieldOf;
    var n := p.internalNext[at := 0];
    if p.internalTail in n {
      FieldSet(n, heap, ClientPacket, p.internalTail, at);
    }
  }

  /** A delayed one is also linked behind the tail of the internal list. */
  lemma ArrivesDelayed(s: State, p: Pointers, at: nat, data: Data)
    requires Represents(p, s) && Enabled(s, Arrive(at, data, true))
    ensures p.internalTail != 0 ==> p.internalTail in p.internalNext[at := 0]
    ensures Represents(p.(clientNext := p.clientNext[at := 0], internalNext := InternalWith(p, at),
                          internalHead := if p.internalTail == 0 then at else p.internalHead, internalTail := at),
                       Step(s, Arrive(at, data, true)))
    ensures SeenOf(Step(s, Arrive(at, data, true)))
            == SeenOf(s).(heap := s.heap[at := Received(data, true, 2)], arriving := Some(at))
  {
    hide Inv, Core, Linked, Chain, FieldOf;
    StepKeeps(s, Arrive(at, data, true));
    NotListed(s, at);
    var b := Received(data, true, 2);
    FieldsOfNew(s, p, at, b);
    var t := Step(s, Arrive(at, data, true));
    assert t.client == s.client && t.internal == s.internal + [at] && t.sendq == s.sendq;
    assert t.heap == s.heap[at := b] && t.arriving == Some(at) && Reachable(t) == Reachable(s);
    hide Step, Enabled, Reachable, InternalWith;
    LinkedKept(p.clientNext, p.clientNext[at := 0], p.clientHead, p.clientTail, s.client);
    InternalLinked(s, p, at, t.heap);
  }

  lemma PublishedLinked(s: State, p: Pointers)
    requires Represents(p, s) && Enabled(s, Publish)
    ensures var (n, at) := (p.clientNext, s.arriving.value);
            && (p.clientTail != 0 ==> p.clientTail in n)
            && Represents(p.(clientNext := if p.clientTail != 0 then n[p.clientTail := at] else n,
                             clientHead := if p.clientTail == 0 then at else p.clientHead, clientTail := at),
                          Step(s, Publish))
    ensures s.arriving != None && SeenOf(Step(s, Publish)) == SeenOf(s).(arriving := None)
  {
    hide Inv, Core, Linked, Chain, FieldOf;
    StepKeeps(s, Publish);
    ArrivingIsUnlisted(s);
    var t := Step(s, Publish);
    assert t.client == s.client + [s.arriving.value] && t.internal == s.internal && t.sendq == s.sendq;
    assert t.heap == s.heap && t.arriving == None && Reachable(t) == Reachable(s);
    hide Step, Enabled, Reachable;
    LinkedAppended(p.clientNext, p.clientHead, p.clientTail, s.client, s.arriving.value);
    if p.clientTail in p.clientNext {
      FieldSet(p.clientNext, s.heap, ClientPacket, p.clientTail, s.arriving.value);
    }
    assert p.clientNext[s.arriving.value := 0] == p.clientNext;
  }

  lemma ArrivingIsUnlisted(s: State)
    requires Inv(s) && s.arriving != None
    ensures s.arriving.value !in s.client && s.arriving.value != 0
  {
    assert Owned(s, s.arriving.value);
  }

  lemma UnlinkedHead(s: State, p: Pointers)
    requires Represents(p, s) && Enabled(s, Unlink)
    ensures var h := p.internalHead;
            && h == s.internal[0] && h in s.heap && h in p.internalNext
            && Represents(p.(internalHead := p.internalNext[h],
                             internalTail := if p.internalNext[h] == 0 then 0 else p.internalTail), Step(s, Unlink))
    ensures SeenOf(Step(s, Unlink)) == SeenOf(s).(handling := Some(p.internalHead))
  {
    hide Inv, Core, Linked, Chain, FieldOf;
    StepKeeps(s, Unlink);
    InvCore(s);
    HoldersAreLive(s);
    LinkedPopped(p.internalNext, p.internalHead, p.internalTail, s.internal);
  }

  /** A field after one reference to `a` has been dropped. */
  function Dropped(next: map<nat, nat>, heap: map<nat, Block>, a: nat): map<nat, nat> {
    if a in heap && heap[a].Received? && heap[a].usecount <= 1 then next - {a} else next
  }

  lemma DroppedLinks(next: map<nat, nat>, heap: map<nat, Block>, head: nat, tail: nat, q: seq<nat>, a: nat)
    requires Linked(next, head, tail, q) && FieldOf(next, heap, ClientPacket) && a in heap && heap[a].Received?
    requires forall b | b in q :: b in Release(heap, a)
    ensures Linked(Dropped(next, heap, a), head, tail, q)
    ensures FieldOf(Dropped(next, heap, a), Release(heap, a), ClientPacket)
  {
    LinkedKept(next, Dropped(next, heap, a), head, tail, q);
  }

  lemma ReleaseKeepsOthers(p: Pointers, heap: map<nat, Block>, a: nat)
    requires FieldOf(p.reliableNext, heap, Buffer) && FieldOf(p.sendNext, heap, SendPacket)
    ensures FieldOf(p.reliableNext, Release(heap, a), Buffer) && FieldOf(p.sendNext, Release(heap, a), SendPacket)
  {
  }

  lemma DroppedHandling(s: State, p: Pointers)
    requires Represents(p, s) && Enabled(s, Drop)
    ensures var a := s.handling.value;
            && a in s.heap && s.heap[a].Received? && s.heap[a].usecount > 0
            && Represents(p.(clientNext := Dropped(p.clientNext, s.heap, a),
                             internalNext := Dropped(p.internalNext, s.heap, a)), Step(s, Drop))
    ensures s.handling != None
    ensures SeenOf(Step(s, Drop)) == SeenOf(s).(heap := Release(s.heap, s.handling.value), handling := None)
  {
    hide Inv, Core, Linked, Chain, FieldOf;
    StepKeeps(s, Drop);
    InvCore(s);
    InvCore(Step(s, Drop));
    HoldersAreLive(s);
    HoldersAreLive(Step(s, Drop));
    var t := Step(s, Drop);
    assert t.client == s.client && t.internal == s.internal && t.sendq == s.sendq;
    assert t.heap == Release(s.heap, s.handling.value) && t.arriving == s.arriving && Reachable(t) == Reachable(s);
    hide Release, Dropped, Step, Enabled, Reachable;
    var a := s.handling.value;
    DroppedLinks(p.clientNext, s.heap, p.clientHead, p.clientTail, s.client, a);
    DroppedLinks(p.internalNext, s.heap, p.internalHead, p.internalTail, s.internal, a);
    UnpublishedKept(p.clientNext, s.heap, a, s.arriving);
    ReleaseKeepsOthers(p, s.heap, a);
  }

  lemma UnpublishedKept(next: map<nat, nat>, heap: map<nat, Block>, a: nat, arriving: Option<nat>)
    requires Unpublished(next, arriving) && (arriving != None ==> arriving.value in Release(heap, a))
    ensures Unpublished(Dropped(next, heap, a), arriving)
  {
  }

  lemma FreedClientHead(s: State, p: Pointers)
    requires Represents(p, s) && Enabled(s, ClientFree)
    ensures var a := p.clientHead;
            && a == s.client[0] && a in s.heap && s.heap[a].Received? && s.heap[a].usecount > 0 && a in p.clientNext
            && Represents(p.(clientNext := Dropped(p.clientNext, s.heap, a), clientHead := p.clientNext[a],
                             clientTail := if p.clientNext[a] == 0 then 0 else p.clientTail,
                             internalNext := Dropped(p.internalNext, s.heap, a)), Step(s, ClientFree))
    ensures SeenOf(Step(s, ClientFree)) == SeenOf(s).(heap := Release(s.heap, p.clientHead))
  {
    hide Inv, Core, Linked, Chain, FieldOf;
    StepKeeps(s, ClientFree);
    InvCore(s);
    InvCore(Step(s, ClientFree));
    HoldersAreLive(s);
    HoldersAreLive(Step(s, ClientFree));
    LinkedPopped(p.clientNext, p.clientHead, p.clientTail, s.client);
    var t := Step(s, ClientFree);
    assert t.client == s.client[1..] && t.internal == s.internal && t.sendq == s.sendq;
    assert t.heap == Release(s.heap, s.client[0]) && t.arriving == s.arriving && Reachable(t) == Reachable(s);
    hide Release, Dropped, Step, Enabled, Reachable;
    var a := p.clientHead;
    DroppedLinks(p.clientNext, s.heap, p.clientNext[a], if p.clientNext[a] == 0 then 0 else p.clientTail,
                 s.client[1..], a);
    DroppedLinks(p.internalNext, s.heap, p.internalHead, p.internalTail, s.internal, a);
    UnpublishedKept(p.clientNext, s.heap, a, s.arriving);
    ReleaseKeepsOthers(p, s.heap, a);
  }

  lemma ReachableTail(s: State)
    requires Inv(s) && !Closing(s)
    ensures var q := Reachable(s);
            && NoDup(q) && Last(q) == s.tail && (forall a | a in q :: a in s.reliable)
            && (s.tail != 0 ==> s.tail in s.reliable) && (s.reliable != [] ==> q != [])
  {
    if s.reliable != [] {
      TailNoDup(s.reliable);
    }
  }

  /** What appending a buffer does to the pointers: outside the closing of the list the buffer is linked behind
      the others; while it is closing the head leads nowhere all the same. */
  lemma BufferLinked(s: State, e: Event, next: map<nat, nat>, head: nat)
    requires Inv(s) && e.Append? && Enabled(s, e) && FieldOf(next, s.heap, Buffer) && Chain(next, head, Reachable(s))
    ensures var (n, wild) := (next[e.at := 0], Dangling(s, e));
            && (s.tail != 0 ==> (s.tail in n <==> !wild)) && (s.tail == 0 ==> !wild)
            && Chain(if s.tail == 0 || wild then n else n[s.tail := e.at], if s.tail == 0 then e.at else head,
                     Reachable(Step(s, e)))
  {
    NotListed(s, e.at);
    assert Owned(s, s.tail);
    if Closing(s) {
      assert Reachable(s) == [] && Reachable(Step(s, e)) == [];
      if s.freeing.taken != None {
        assert Owned(s, s.freeing.taken.value);
      }
    } else {
      ReachableTail(s);
      hide Chain, Closing;
      var q := Reachable(s);
      Appended(next, head, s.tail, q, e.at);
      assert Reachable(Step(s, e)) == q + [e.at];
    }
  }

  lemma AppendedBuffer(s: State, p: Pointers, e: Event)
    requires Represents(p, s) && e.Append? && Enabled(s, e)
    ensures var (n, wild) := (p.reliableNext[e.at := 0], Dangling(s, e));
            && (s.tail != 0 ==> (s.tail in n <==> !wild)) && (s.tail == 0 ==> !wild)
            && Represents(p.(reliableNext := if s.tail == 0 || wild then n else n[s.tail := e.at],
                             reliableHead := if s.tail == 0 then e.at else p.reliableHead), Step(s, e))
    ensures SeenOf(Step(s, e)) == SeenOf(s).(heap := s.heap[e.at := Block.Reliable(e.data)], tail := e.at)
  {
    hide Inv, Core, Linked, Chain, FieldOf;
    StepKeeps(s, e);
    NotListed(s, e.at);
    BufferLinked(s, e, p.reliableNext, p.reliableHead);
    hide Dangling, Reachable, Closing;
    var b := Block.Reliable(e.data);
    FieldsOfNew(s, p, e.at, b);
    var n := p.reliableNext[e.at := 0];
    if s.tail in n {
      FieldSet(n, s.heap[e.at := b], Buffer, s.tail, e.at);
    }
  }

  lemma ReliableIsListed(s: State)
    requires Inv(s)
    ensures NoDup(s.reliable)
    ensures s.reliable != [] ==>
              && s.reliable[0] in s.heap && s.heap[s.reliable[0]].Reliable? && s.reliable[0] !in s.reliable[1..]
              && (s.freeing.Freeing? && s.freeing.taken != None ==> s.freeing.taken.value == s.reliable[0])
  {
    if s.reliable != [] {
      assert Owned(s, s.reliable[0]);
      TailNoDup(s.reliable);
    }
  }

  lemma SendIsListed(s: State)
    requires Inv(s) && s.sendq != []
    ensures s.sendq[0] in s.heap && s.heap[s.sendq[0]].Queued?
  {
    assert Owned(s, s.sendq[0]);
  }

  lemma TakenHead(s: State, p: Pointers)
    requires Represents(p, s) && Enabled(s, TakeHead)
    ensures var a := p.reliableHead;
            && a == s.reliable[0] && a in p.reliableNext
            && Represents(p.(reliableHead := p.reliableNext[a]), Step(s, TakeHead))
    ensures s.freeing.Freeing? && s.freeing.left > 0
    ensures SeenOf(Step(s, TakeHead)) == SeenOf(s).(freeing := Freeing(s.freeing.left - 1, Some(p.reliableHead)))
  {
    hide Inv, Core, Linked, Chain, FieldOf;
    StepKeeps(s, TakeHead);
    ReliableIsListed(s);
    Popped(p.reliableNext, p.reliableHead, s.reliable);
  }

  lemma FreedTaken(s: State, p: Pointers)
    requires Represents(p, s) && Enabled(s, FreeTaken)
    ensures var a := s.freeing.taken.value;
            && a in s.heap
            && Represents(p.(reliableNext := p.reliableNext - {a}), Step(s, FreeTaken))
    ensures s.freeing.Freeing? && s.freeing.taken != None
    ensures SeenOf(Step(s, FreeTaken)) == SeenOf(s).(heap := s.heap - {s.freeing.taken.value},
                                                     freeing := s.freeing.(taken := None))
  {
    hide Inv, Core, Linked, Chain, FieldOf;
    StepKeeps(s, FreeTaken);
    ReliableIsListed(s);
    var a := s.freeing.taken.value;
    ChainKept(p.reliableNext, p.reliableNext - {a}, p.reliableHead, s.reliable[1..]);
    FieldFreed(p.clientNext, s.heap, ClientPacket, a);
    FieldFreed(p.internalNext, s.heap, ClientPacket, a);
    FieldFreed(p.reliableNext, s.heap, Buffer, a);
    FieldFreed(p.sendNext, s.heap, SendPacket, a);
  }

  /** The list is empty exactly when its head is null. */
  lemma ResetsTail(s: State, p: Pointers)
    requires Represents(p, s) && Enabled(s, ResetTail)
    ensures p.reliableHead == 0 <==> s.reliable == []
    ensures Represents(p, Step(s, ResetTail))
    ensures SeenOf(Step(s, ResetTail))
            == SeenOf(s).(tail := if p.reliableHead == 0 then 0 else s.tail, freeing := NotFreeing)
  {
    hide Inv, Core, Linked, Chain, FieldOf;
    StepKeeps(s, ResetTail);
    HeadTells(p.reliableNext, p.reliableHead, s.reliable);
  }

  lemma StartsFreeing(s: State, p: Pointers, n: nat)
    requires Represents(p, s) && Enabled(s, StartFreeing(n))
    ensures Represents(p, Step(s, StartFreeing(n)))
    ensures SeenOf(Step(s, StartFreeing(n))) == SeenOf(s).(freeing := Freeing(n, None))
  {
    hide Inv, Core, Linked, Chain, FieldOf;
    StepKeeps(s, StartFreeing(n));
  }

  lemma QueuedLinked(s: State, p: Pointers, at: nat, data: Data)
    requires Represents(p, s) && Enabled(s, QueueSend(at, data))
    ensures var n := p.sendNext[at := 0];
            && (p.sendTail != 0 ==> p.sendTail in n)
            && Represents(p.(sendNext := if p.sendTail != 0 then n[p.sendTail := at] else n,
                             sendHead := if p.sendTail == 0 then at else p.sendHead, sendTail := at),
                          Step(s, QueueSend(at, data)))
    ensures SeenOf(Step(s, QueueSend(at, data))) == SeenOf(s).(heap := s.heap[at := Queued(data)])
  {
    hide Inv, Core, Linked, Chain, FieldOf;
    StepKeeps(s, QueueSend(at, data));
    NotListed(s, at);
    hide Inv, Linked, Chain, FieldOf;
    LinkedAppended(p.sendNext, p.sendHead, p.sendTail, s.sendq, at);
    var b := Queued(data);
    FieldsOfNew(s, p, at, b);
    var n := p.sendNext[at := 0];
    if p.sendTail in n {
      FieldSet(n, s.heap[at := b], SendPacket, p.sendTail, at);
    }
  }

  lemma SentHead(s: State, p: Pointers)
    requires Represents(p, s) && Enabled(s, SendQueued)
    ensures var a := p.sendHead;
            && a == s.sendq[0] && a in s.heap && a in p.sendNext
            && Represents(p.(sendNext := p.sendNext - {a}, sendHead := p.sendNext[a],
                             sendTail := if p.sendNext[a] == 0 then 0 else p.sendTail), Step(s, SendQueued))
    ensures SeenOf(Step(s, SendQueued)) == SeenOf(s).(heap := s.heap - {p.sendHead})
  {
    hide Inv, Core, Linked, Chain, FieldOf;
    StepKeeps(s, SendQueued);
    SendIsListed(s);
    var a := p.sendHead;
    LinkedPopped(p.sendNext, a, p.sendTail, s.sendq);
    LinkedKept(p.sendNext, p.sendNext - {a}, p.sendNext[a], if p.sendNext[a] == 0 then 0 else p.sendTail, s.sendq[1..]);
    FieldFreed(p.clientNext, s.heap, ClientPacket, a);
    FieldFreed(p.internalNext, s.heap, ClientPacket, a);
    FieldFreed(p.reliableNext, s.heap, Buffer, a);
    FieldFreed(p.sendNext, s.heap, SendPacket, a);
  }

  // ---- NetQW_Delete ----

  /** While lists are taken apart their tails no longer matter. */
  ghost predicate Apart(p: Pointers, s: State) {
    && Core(s) && Free(s) && s.arriving == None && s.handling == None
    && Chain(p.clientNext, p.clientHead, s.client) && FieldOf(p.clientNext, s.heap, ClientPacket)
    && Chain(p.internalNext, p.internalHead, s.internal) && FieldOf(p.internalNext, s.heap, ClientPacket)
    && Chain(p.reliableNext, p.reliableHead, s.reliable) && FieldOf(p.reliableNext, s.heap, Buffer)
    && FieldOf(p.sendNext, s.heap, SendPacket)
  }

  lemma TakenApart(s: State, p: Pointers)
    requires Represents(p, s) && Free(s) && s.arriving == None && s.handling == None
    ensures Apart(p, s)
  {
  }

  function WithoutBuffer(s: State): State
    requires s.reliable != []
  {
    s.(heap := s.heap - {s.reliable[0]}, reliable := s.reliable[1..])
  }

  lemma BufferApart(s: State, p: Pointers)
    requires Apart(p, s) && p.reliableHead != 0
    ensures var a := p.reliableHead;
            && s.reliable != [] && a == s.reliable[0] && a in s.heap && a in p.reliableNext
            && Apart(p.(reliableNext := p.reliableNext - {a}, reliableHead := p.reliableNext[a]), WithoutBuffer(s))
  {
    var a := p.reliableHead;
    Popped(p.reliableNext, a, s.reliable);
    TailNoDup(s.reliable);
    CoreWithoutBuffer(s);
    assert Owned(s, a);
    ChainKept(p.reliableNext, p.reliableNext - {a}, p.reliableNext[a], s.reliable[1..]);
    hide Core, Chain, FieldOf;
    FieldFreed(p.clientNext, s.heap, ClientPacket, a);
    FieldFreed(p.internalNext, s.heap, ClientPacket, a);
    FieldFreed(p.reliableNext, s.heap, Buffer, a);
    FieldFreed(p.sendNext, s.heap, SendPacket, a);
  }

  lemma CoreWithoutBuffer(s: State)
    requires Core(s) && Free(s) && s.reliable != []
    ensures Core(WithoutBuffer(s))
  {
    TailNoDup(s.reliable);
    assert Owned(s, s.reliable[0]);
    var t := WithoutBuffer(s);
    forall a: nat ensures Owned(t, a) {
      assert Owned(s, a);
    }
  }

  lemma DroppedChain(next: map<nat, nat>, heap: map<nat, Block>, head: nat, q: seq<nat>, a: nat)
    requires Chain(next, head, q) && FieldOf(next, heap, ClientPacket) && a in heap && heap[a].Received?
    requires forall b | b in q :: b in Release(heap, a)
    ensures Chain(Dropped(next, heap, a), head, q) && FieldOf(Dropped(next, heap, a), Release(heap, a), ClientPacket)
  {
    ChainKept(next, Dropped(next, heap, a), head, q);
  }

  lemma ClientApart(s: State, p: Pointers)
    requires Apart(p, s) && p.clientHead != 0
    ensures Enabled(s, ClientFree)
    ensures var a := p.clientHead;
            && s.client != [] && a == s.client[0] && a in p.clientNext
            && a in s.heap && s.heap[a].Received? && s.heap[a].usecount > 0
            && Apart(p.(clientNext := Dropped(p.clientNext, s.heap, a), clientHead := p.clientNext[a],
                        internalNext := Dropped(p.internalNext, s.heap, a)), Step(s, ClientFree))
    ensures var t := Step(s, ClientFree);
            && t.heap == Release(s.heap, p.clientHead) && t.sendq == s.sendq && t.lost == s.lost
            && |t.client| < |s.client|
  {
    var a := p.clientHead;
    Popped(p.clientNext, a, s.client);
    TailNoDup(s.client);
    HoldersAreLive(s);
    CoreKept(s, ClientFree);
    HoldersAreLive(Step(s, ClientFree));
    hide Core, Chain, Release, FieldOf, Dropped;
    DroppedChain(p.clientNext, s.heap, p.clientNext[a], s.client[1..], a);
    DroppedChain(p.internalNext, s.heap, p.internalHead, s.internal, a);
    ReleaseKeepsOthers(p, s.heap, a);
  }

  lemma InternalApart(s: State, p: Pointers)
    requires Apart(p, s) && p.internalHead != 0
    ensures Enabled(s, InternalFree)
    ensures var a := p.internalHead;
            && s.internal != [] && a == s.internal[0] && a in p.internalNext
            && a in s.heap && s.heap[a].Received? && s.heap[a].usecount > 0
            && Apart(p.(clientNext := Dropped(p.clientNext, s.heap, a), internalHead := p.internalNext[a],
                        internalNext := Dropped(p.internalNext, s.heap, a)), Step(s, InternalFree))
    ensures var t := Step(s, InternalFree);
            && t.heap == Release(s.heap, p.internalHead) && t.sendq == s.sendq && t.lost == s.lost
            && |t.internal| < |s.internal|
  {
    var a := p.internalHead;
    Popped(p.internalNext, a, s.internal);
    TailNoDup(s.internal);
    HoldersAreLive(s);
    CoreKept(s, InternalFree);
    HoldersAreLive(Step(s, InternalFree));
    hide Core, Chain, Release, FieldOf, Dropped;
    DroppedChain(p.clientNext, s.heap, p.clientHead, s.client, a);
    DroppedChain(p.internalNext, s.heap, p.internalNext[a], s.internal[1..], a);
    ReleaseKeepsOthers(p, s.heap, a);
  }

  lemma NothingLeft(s: State, p: Pointers)
    requires Apart(p, s) && p.reliableHead == 0 && p.clientHead == 0 && p.internalHead == 0
    ensures s.heap.Keys == s.lost + set a | a in s.sendq
    ensures s.heap == map[] <==> s.sendq == [] && s.lost == {}
  {
    HeadTells(p.reliableNext, p.reliableHead, s.reliable);
    HeadTells(p.clientNext, p.clientHead, s.client);
    HeadTells(p.internalNext, p.internalHead, s.internal);
    OnlyTheSendQueue(s);
  }

  // ---- In place ----

  class PacketQueues {
    var heap: map<nat, Block>
    var links: Pointers
    var reliableTail: nat
    /** Local variables of the network thread. */
    var arriving: Option<nat>
    var handling: Option<nat>
    var freeing: Freeing
    /** The same with the addresses on each list, and those on none. */
    ghost var state: State

    ghost function View(): State
      reads this
    {
      state
    }

    ghost predicate Valid()
      reads this
    {
      Represents(links, state) && SeenOf(state) == Seen(heap, reliableTail, arriving, handling, freeing)
    }

    /** NetQW_Create */
    constructor ()
      ensures Valid() && View() == Init()
    {
      heap, reliableTail := map[], 0;
      links := Pointers(map[], 0, 0, map[], 0, 0, map[], 0, map[], 0, 0);
      arriving, handling, freeing := None, None, NotFreeing;
      state := Init();
      new;
      InitIsGood();
    }

    /** NetQW_Thread_DoReceive up to the lock; `at` is what malloc returned. */
    method ReceivePacket(at: nat, data: Data, delayed: bool)
      requires Valid() && Enabled(View(), Arrive(at, data, delayed))
      modifies `heap, `links, `arriving, `state
      ensures Valid() && View() == Step(old(View()), Arrive(at, data, delayed))
    {
      hide Represents, Step, Enabled, Release, Dropped, Dangling;
      if delayed {
        ArrivesDelayed(state, links, at, data);
      } else {
        ArrivesAtOnce(state, links, at, data);
      }
      heap := heap[at := Received(data, delayed, 1)];
      links := links.(clientNext := links.clientNext[at := 0], internalNext := links.internalNext[at := 0]);
      if delayed {
        if links.internalTail != 0 {
          links := links.(internalNext := links.internalNext[links.internalTail := at]);
        } else {
          links := links.(internalHead := at);
        }
        links := links.(internalTail := at);
        heap := heap[at := heap[at].(usecount := heap[at].usecount + 1)];
      }
      arriving := Some(at);
      state := Step(state, Arrive(at, data, delayed));
    }

    /** The locked region of NetQW_Thread_DoReceive. */
    method PublishPacket()
      requires Valid() && Enabled(View(), Publish)
      modifies `links, `arriving, `state
      ensures Valid() && View() == Step(old(View()), Publish)
    {
      hide Represents, Step, Enabled, Release, Dropped, Dangling;
      PublishedLinked(state, links);
      var netpacket := arriving.value;
      if links.clientTail != 0 {
        links := links.(clientNext := links.clientNext[links.clientTail := netpacket]);
      } else {
        links := links.(clientHead := netpacket);
      }
      links := links.(clientTail := netpacket);
      arriving := None;
      state := Step(state, Publish);
    }

    /** The network thread handles its delayed head, then unlinks it; `data` is what it handled. */
    method HandleHead() returns (data: Data)
      requires Valid() && Enabled(View(), Unlink)
      modifies `links, `handling, `state
      ensures Valid() && View() == Step(old(View()), Unlink) && data == DataAt(heap, old(View()).internal[0])
    {
      hide Represents, Step, Enabled, Release, Dropped, Dangling;
      UnlinkedHead(state, links);
      var netpacket := links.internalHead;
      data := heap[netpacket].data;
      links := links.(internalHead := links.internalNext[netpacket]);
      if links.internalHead == 0 {
        links := links.(internalTail := 0);
      }
      handling := Some(netpacket);
      state := Step(state, Unlink);
    }

    /** `usecount--`, and free when it reaches zero. */
    method DropReference(a: nat)
      requires a in heap && heap[a].Received? && heap[a].usecount > 0
      modifies `heap, `links
      ensures heap == Release(old(heap), a)
      ensures links == old(links).(clientNext := Dropped(old(links).clientNext, old(heap), a),
                                   internalNext := Dropped(old(links).internalNext, old(heap), a))
    {
      heap := heap[a := heap[a].(usecount := heap[a].usecount - 1)];
      if heap[a].usecount == 0 {
        heap := heap - {a};
        links := links.(clientNext := links.clientNext - {a}, internalNext := links.internalNext - {a});
      }
    }

    /** ... and drops it under the lock. */
    method DropHead()
      requires Valid() && Enabled(View(), Drop)
      modifies `heap, `links, `handling, `state
      ensures Valid() && View() == Step(old(View()), Drop)
    {
      hide Represents, Step, Enabled, Release, Dropped, Dangling;
      DroppedHandling(state, links);
      DropReference(handling.value);
      handling := None;
      state := Step(state, Drop);
    }

    /** NetQW_FreePacket */
    method FreePacket()
      requires Valid() && Enabled(View(), ClientFree)
      modifies `heap, `links, `state
      ensures Valid() && View() == Step(old(View()), ClientFree)
    {
      hide Represents, Step, Enabled, Release, Dropped, Dangling;
      FreedClientHead(state, links);
      var netpacket := links.clientHead;
      links := links.(clientHead := links.clientNext[netpacket]);
      DropReference(netpacket);
      if links.clientHead == 0 {
        links := links.(clientTail := 0);
      }
      state := Step(state, ClientFree);
    }

    /** NetQW_AppendReliableBuffer. `wild` says that it wrote through a pointer to freed memory. */
    method AppendReliableBuffer(at: nat, data: Data) returns (wild: bool)
      requires Valid() && Enabled(View(), Append(at, data))
      modifies `heap, `links, `reliableTail, `state
      ensures Valid() && View() == Step(old(View()), Append(at, data))
      ensures wild <==> Dangling(old(View()), Append(at, data))
    {
      hide Represents, Step, Enabled, Release, Dropped, Dangling;
      AppendedBuffer(state, links, Append(at, data));
      heap, links := heap[at := Reliable(data)], links.(reliableNext := links.reliableNext[at := 0]);
      wild := false;
      if reliableTail != 0 {
        if reliableTail in links.reliableNext {
          links := links.(reliableNext := links.reliableNext[reliableTail := at]);
        } else {
          wild := true;
        }
      } else {
        links := links.(reliableHead := at);
      }
      reliableTail := at;
      state := Step(state, Append(at, data));
    }

    /** The first `n` buffers have been acknowledged. */
    method BeginFreeing(n: nat)
      requires Valid() && Enabled(View(), StartFreeing(n))
      modifies `freeing, `state
      ensures Valid() && View() == Step(old(View()), StartFreeing(n))
    {
      hide Represents, Step, Enabled, Release, Dropped, Dangling;
      StartsFreeing(state, links, n);
      freeing := Freeing(n, None);
      state := Step(state, StartFreeing(n));
    }

    /** The network thread takes the head off the list ... */
    method TakeReliableHead()
      requires Valid() && Enabled(View(), TakeHead)
      modifies `links, `freeing, `state
      ensures Valid() && View() == Step(old(View()), TakeHead)
    {
      hide Represents, Step, Enabled, Release, Dropped, Dangling;
      TakenHead(state, links);
      var reliablebuffer := links.reliableHead;
      links := links.(reliableHead := links.reliableNext[reliablebuffer]);
      freeing := Freeing(freeing.left - 1, Some(reliablebuffer));
      state := Step(state, TakeHead);
    }

    /** ... frees it ... */
    method FreeTakenBuffer()
      requires Valid() && Enabled(View(), FreeTaken)
      modifies `heap, `links, `freeing, `state
      ensures Valid() && View() == Step(old(View()), FreeTaken)
    {
      hide Represents, Step, Enabled, Release, Dropped, Dangling;
      FreedTaken(state, links);
      var reliablebuffer := freeing.taken.value;
      heap, links := heap - {reliablebuffer}, links.(reliableNext := links.reliableNext - {reliablebuffer});
      freeing := freeing.(taken := None);
      state := Step(state, FreeTaken);
    }

    /** ... and when all are freed looks whether the list is empty. */
    method ResetReliableTail()
      requires Valid() && Enabled(View(), ResetTail)
      modifies `reliableTail, `freeing, `state
      ensures Valid() && View() == Step(old(View()), ResetTail)
    {
      hide Represents, Step, Enabled, Release, Dropped, Dangling;
      ResetsTail(state, links);
      if links.reliableHead == 0 {
        reliableTail := 0;
      }
      freeing := NotFreeing;
      state := Step(state, ResetTail);
    }

    /** NetQW_Thread_QueuePacket */
    method QueuePacket(at: nat, data: Data)
      requires Valid() && Enabled(View(), QueueSend(at, data))
      modifies `heap, `links, `state
      ensures Valid() && View() == Step(old(View()), QueueSend(at, data))
    {
      hide Represents, Step, Enabled, Release, Dropped, Dangling;
      QueuedLinked(state, links, at, data);
      heap, links := heap[at := Queued(data)], links.(sendNext := links.sendNext[at := 0]);
      if links.sendTail != 0 {
        links := links.(sendNext := links.sendNext[links.sendTail := at]);
      } else {
        links := links.(sendHead := at);
      }
      links := links.(sendTail := at);
      state := Step(state, QueueSend(at, data));
    }

    /** The network thread sends its queued head and frees it. */
    method SendQueuedHead() returns (data: Data)
      requires Valid() && Enabled(View(), SendQueued)
      modifies `heap, `links, `state
      ensures Valid() && View() == Step(old(View()), SendQueued)
      ensures data == DataAt(old(heap), old(View()).sendq[0])
    {
      hide Represents, Step, Enabled, Release, Dropped, Dangling;
      SentHead(state, links);
      var sendpacket := links.sendHead;
      data := heap[sendpacket].data;
      links := links.(sendHead := links.sendNext[sendpacket]);
      if links.sendHead == 0 {
        links := links.(sendTail := 0);
      }
      heap, links := heap - {sendpacket}, links.(sendNext := links.sendNext - {sendpacket});
      state := Step(state, SendQueued);
    }

    /** The lists are being taken apart; the send queue and what is lost are as in `s`. */
    ghost predicate TakingApart(s: State)
      reads this
    {
      Apart(links, state) && state.heap == heap && state.sendq == s.sendq && state.lost == s.lost
    }

    method DeleteBuffers(ghost s: State)
      requires TakingApart(s)
      modifies `heap, `links, `state
      ensures TakingApart(s) && links.reliableHead == 0
    {
      hide Apart, KindOf;
      while links.reliableHead != 0
        invariant TakingApart(s)
        decreases |state.reliable|
      {
        BufferApart(state, links);
        var reliablebuffer := links.reliableHead;
        links := links.(reliableHead := links.reliableNext[reliablebuffer]);
        heap, links := heap - {reliablebuffer}, links.(reliableNext := links.reliableNext - {reliablebuffer});
        state := WithoutBuffer(state);
      }
    }

    method DeleteClientPackets(ghost s: State)
      requires TakingApart(s) && links.reliableHead == 0
      modifies `heap, `links, `state
      ensures TakingApart(s) && links.reliableHead == 0 && links.clientHead == 0
    {
      hide Apart, Release, Dropped, Step, Enabled, KindOf;
      while links.clientHead != 0
        invariant TakingApart(s) && links.reliableHead == 0
        decreases |state.client|
      {
        ClientApart(state, links);
        var netpacket := links.clientHead;
        links := links.(clientHead := links.clientNext[netpacket]);
        DropReference(netpacket);
        state := Step(state, ClientFree);
      }
    }

    method DeleteInternalPackets(ghost s: State)
      requires TakingApart(s) && links.reliableHead == 0 && links.clientHead == 0
      modifies `heap, `links, `state
      ensures TakingApart(s) && links.reliableHead == 0 && links.clientHead == 0 && links.internalHead == 0
    {
      hide Apart, Release, Dropped, Step, Enabled, KindOf;
      while links.internalHead != 0
        invariant TakingApart(s) && links.reliableHead == 0 && links.clientHead == 0
        decreases |state.internal|
      {
        InternalApart(state, links);
        var netpacket := links.internalHead;
        links := links.(internalHead := links.internalNext[netpacket]);
        DropReference(netpacket);
        state := Step(state, InternalFree);
      }
    }

    /** NetQW_Delete, once the network thread is gone. */
    method Delete()
      requires Valid() && Free(View()) && arriving == None && handling == None
      modifies `heap, `links, `state
      ensures heap.Keys == old(View()).lost + set a | a in old(View()).sendq
      ensures heap == map[] <==> old(View()).sendq == [] && old(View()).lost == {}
    {
      ghost var s := state;
      TakenApart(state, links);
      hide Apart;
      DeleteBuffers(s);
      DeleteClientPackets(s);
      DeleteInternalPackets(s);
      NothingLeft(state, links);
    }
  }
}
