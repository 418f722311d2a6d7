/** The blocks struct NetQW allocates and the four linked lists that own them, as a value. Every region under
    the mutex is one step. The network thread frees acknowledged buffers without the mutex
    (src/netqw.c:476-484); there each statement that another thread could come in between is a step. */
module PacketListsSpec {
  import opened Wire
  import opened LinkedList

  type Data = seq<byte>

  /** struct NetPacket, struct ReliableBuffer and struct SendPacket, without their next pointers. */
  datatype Block = Received(data: Data, delayed: bool, usecount: nat) | Reliable(data: Data) | Queued(data: Data)

  /** Where the network thread stands in freeing a bundle: how many heads it has still to take, and the one it
      has taken off the list and not yet freed. */
  datatype Freeing = NotFreeing | Freeing(left: nat, taken: Option<nat>)

  /** `heap` holds what malloc has given out and free not taken back. `arriving` is the packet the network
      thread has received and not yet published; `handling` the one it has unlinked and not yet dropped.
      `reliable` lists the buffers not yet freed; `tail` is where reliablebuffertail points. `lost` are
      buffers that no list leads to. */
  datatype State = State(heap: map<nat, Block>, client: seq<nat>, internal: seq<nat>,
                         reliable: seq<nat>, sendq: seq<nat>, arriving: Option<nat>, handling: Option<nat>,
                         freeing: Freeing, tail: nat, lost: set<nat>)

  function Init(): State {
    State(map[], [], [], [], [], None, None, NotFreeing, 0, {})
  }

  datatype Event =
    | Arrive(at: nat, data: Data, delayed: bool)   // NetQW_Thread_DoReceive up to the lock
    | Publish                                      // ... under the lock
    | Unlink                                       // the network thread handles and unlinks its head
    | Drop                                         // ... and drops its reference under the lock
    | ClientFree                                   // NetQW_FreePacket
    | InternalFree                                 // NetQW_Delete on the internal list
    | Append(at: nat, data: Data)                  // NetQW_AppendReliableBuffer
    | StartFreeing(n: nat)                         // the first n buffers have been acknowledged
    | TakeHead                                     // the network thread takes the head off the list
    | FreeTaken                                    // ... and frees it
    | ResetTail                                    // ... and in the end clears the tail of an empty list
    | QueueSend(at: nat, data: Data)               // NetQW_Thread_QueuePacket
    | SendQueued                                   // the network thread sends its queued head

  /** The network thread is not busy freeing. */
  predicate Free(s: State) {
    s.freeing == NotFreeing
  }

  predicate Fresh(s: State, at: nat) {
    at != 0 && at !in s.heap
  }

  /** The guard under which the program takes the step; malloc gives out a block that is not in use. */
  predicate Enabled(s: State, e: Event) {
    match e
    case Arrive(at, _, _) => Fresh(s, at) && s.arriving == None && s.handling == None && Free(s)
    case Publish => s.arriving != None && Free(s)
    case Unlink => s.internal != [] && s.arriving == None && s.handling == None && Free(s)
    case Drop => s.handling != None && Free(s)
    case ClientFree => s.client != []
    case InternalFree => s.internal != [] && Free(s)
    case Append(at, _) => Fresh(s, at)
    case StartFreeing(n) => 0 < n <= |s.reliable| && Free(s)
    case TakeHead => s.freeing.Freeing? && s.freeing.taken == None && 0 < s.freeing.left <= |s.reliable|
    case FreeTaken => s.freeing.Freeing? && s.freeing.taken != None && s.reliable != []
    case ResetTail => s.freeing == Freeing(0, None)
    case QueueSend(at, _) => Fresh(s, at) && Free(s)
    case SendQueued => s.sendq != [] && Free(s)
  }

  /** The network thread has taken the last buffer of the list and not yet cleared the tail. */
  predicate Closing(s: State) {
    match s.freeing
    case NotFreeing => false
    case Freeing(left, taken) => if taken == None then left == 0 && s.reliable == [] else |s.reliable| == 1
  }

  /** One reference fewer; the last one frees. */
  function Release(heap: map<nat, Block>, a: nat): map<nat, Block> {
    if a !in heap || !heap[a].Received? then heap
    else if heap[a].usecount <= 1 then heap - {a}
    else heap[a := heap[a].(usecount := heap[a].usecount - 1)]
  }

  function Step(s: State, e: Event): State
    requires Enabled(s, e)
  {
    match e
    case Arrive(at, data, delayed) =>
      s.(heap := s.heap[at := Received(data, delayed, if delayed then 2 else 1)],
         internal := if delayed then s.internal + [at] else s.internal, arriving := Some(at))
    case Publish => s.(client := s.client + [s.arriving.value], arriving := None)
    case Unlink => s.(internal := s.internal[1..], handling := Some(s.internal[0]))
    case Drop => s.(heap := Release(s.heap, s.handling.value), handling := None)
    case ClientFree => s.(heap := Release(s.heap, s.client[0]), client := s.client[1..])
    case InternalFree => s.(heap := Release(s.heap, s.internal[0]), internal := s.internal[1..])
    case Append(at, data) =>
      var t := s.(heap := s.heap[at := Reliable(data)], tail := at);
      if Closing(s) then t.(lost := s.lost + {at}) else t.(reliable := s.reliable + [at])
    case StartFreeing(n) => s.(freeing := Freeing(n, None))
    case TakeHead => s.(freeing := Freeing(s.freeing.left - 1, Some(s.reliable[0])))
    case FreeTaken =>
      s.(heap := s.heap - {s.freeing.taken.value}, reliable := s.reliable[1..], freeing := s.freeing.(taken := None))
    case ResetTail => s.(freeing := NotFreeing, tail := if s.reliable == [] then 0 else s.tail)
    case QueueSend(at, data) => s.(heap := s.heap[at := Queued(data)], sendq := s.sendq + [at])
    case SendQueued => s.(heap := s.heap - {s.sendq[0]}, sendq := s.sendq[1..])
  }

  // ---- Ownership ----

  function One(b: bool): nat {
    if b then 1 else 0
  }

  /** How many hold packet `a`. */
  function Owners(s: State, a: nat): nat {
    One(a in s.client) + One(a in s.internal) + One(s.arriving == Some(a)) + One(s.handling == Some(a))
  }

  ghost predicate Lists(s: State) {
    && NoDup(s.client) && NoDup(s.internal) && NoDup(s.reliable) && NoDup(s.sendq)
    && (s.arriving != None ==> s.arriving.value !in s.client)
    && (s.handling != None ==> s.handling.value !in s.internal)
  }

  /** Who may own the block at `a`. */
  predicate Owned(s: State, a: nat) {
    if a !in s.heap then Owners(s, a) == 0 && a !in s.reliable && a !in s.lost && a !in s.sendq
    else match s.heap[a]
      case Received(_, _, n) => n == Owners(s, a) && n > 0 && a !in s.reliable && a !in s.lost && a !in s.sendq
      case Reliable(_) => Owners(s, a) == 0 && (a in s.reliable) != (a in s.lost) && a !in s.sendq
      case Queued(_) => Owners(s, a) == 0 && a !in s.reliable && a !in s.lost && a in s.sendq
  }

  /** The bundle being freed is the front of the list. */
  predicate Taking(s: State) {
    match s.freeing
    case NotFreeing => true
    case Freeing(left, taken) =>
      left + One(taken != None) <= |s.reliable| && (taken != None ==> s.reliable != [] && taken.value == s.reliable[0])
  }

  ghost predicate Core(s: State) {
    Lists(s) && Taking(s) && 0 !in s.heap && forall a: nat :: Owned(s, a)
  }

  /** The tail points to the last buffer, except while the list is closing: then it points to the buffer taken
      last, freed or not, or to a lost one. */
  predicate TailRight(s: State) {
    if !Closing(s) then s.tail == Last(s.reliable)
    else s.tail != 0 && (s.tail in s.lost || if s.freeing.taken == None then s.tail !in s.heap
                                              else s.tail == s.freeing.taken.value)
  }

  ghost predicate Inv(s: State) {
    Core(s) && TailRight(s)
  }

  lemma InitIsGood()
    ensures Inv(Init())
  {
  }

  /** What a release does to one block. */
  lemma ReleaseAt(heap: map<nat, Block>, a: nat, b: nat)
    requires a in heap && heap[a].Received?
    ensures var h := Release(heap, a);
            if a != b then (b in h <==> b in heap) && (b in heap ==> h[b] == heap[b])
            else if heap[a].usecount <= 1 then a !in h
            else a in h && h[a] == heap[a].(usecount := heap[a].usecount - 1)
  {
  }

  lemma StepKeepsLists(s: State, e: Event)
    requires Core(s) && Enabled(s, e)
    ensures Lists(Step(s, e)) && Taking(Step(s, e)) && 0 !in Step(s, e).heap
  {
    match e {
      case Arrive(at, _, _) => assert Owned(s, at); MoreNoDup(s.internal, at);
      case Publish => MoreNoDup(s.client, s.arriving.value);
      case Unlink => TailNoDup(s.internal);
      case Drop =>
      case ClientFree => TailNoDup(s.client);
      case InternalFree => TailNoDup(s.internal);
      case Append(at, _) => assert Owned(s, at); MoreNoDup(s.reliable, at);
      case StartFreeing(_) =>
      case TakeHead =>
      case FreeTaken => TailNoDup(s.reliable);
      case ResetTail =>
      case QueueSend(at, _) => assert Owned(s, at); MoreNoDup(s.sendq, at);
      case SendQueued => TailNoDup(s.sendq);
    }
  }

  /** The blocks a step reads or writes through a pointer. */
  function Touched(s: State, e: Event): set<nat>
    requires Enabled(s, e)
  {
    match e
    case Arrive(_, _, delayed) => if delayed then Behind(Last(s.internal)) else {}
    case Publish => {s.arriving.value} + Behind(Last(s.client))
    case Unlink => {s.internal[0]}
    case Drop => {s.handling.value}
    case ClientFree => {s.client[0]}
    case InternalFree => {s.internal[0]}
    case Append(_, _) => Behind(s.tail)
    case StartFreeing(_) => {}
    case TakeHead => {s.reliable[0]}
    case FreeTaken => {s.freeing.taken.value}
    case ResetTail => {}
    case QueueSend(_, _) => Behind(Last(s.sendq))
    case SendQueued => {s.sendq[0]}
  }

  /** The block whose next pointer an append writes. */
  function Behind(tail: nat): set<nat> {
    if tail == 0 then {} else {tail}
  }

  /** What is allocated while the step runs. */
  function Allocated(s: State, e: Event): set<nat> {
    s.heap.Keys + if e.Arrive? || e.Append? || e.QueueSend? then {e.at} else {}
  }

  /** The one step that touches freed memory: the first append after the last buffer of the list has been freed
      and before the tail is cleared. */
  predicate Dangling(s: State, e: Event) {
    && e.Append? && Closing(s) && s.freeing.taken == None
    && s.tail !in s.lost && s.tail != e.at
  }

  /** A step touches a block that is not allocated if and only if it is that append. What a step releases is
      held. */
  lemma NothingElseDangles(s: State, e: Event)
    requires Inv(s) && Enabled(s, e)
    ensures Touched(s, e) <= Allocated(s, e) <==> !Dangling(s, e)
    ensures e in {Drop, ClientFree, InternalFree} ==>
              forall a | a in Touched(s, e) :: a in s.heap && s.heap[a].Received? && s.heap[a].usecount > 0
  {
    forall a | a in Touched(s, e) && !e.Append?
      ensures a in s.heap && (e in {Drop, ClientFree, InternalFree} ==> s.heap[a].Received? && s.heap[a].usecount > 0)
    {
      assert Owned(s, a);
    }
    if e.Append? {
      assert Owned(s, s.tail);
    }
  }

  // ---- Every step keeps the counts ----

  lemma ReleaseOwned(s: State, t: State, a: nat, b: nat)
    requires Owned(s, a) && Owned(s, b) && Owners(s, a) > 0
    requires t.heap == Release(s.heap, a) && t.reliable == s.reliable && t.sendq == s.sendq && t.lost == s.lost
    requires Owners(t, b) == Owners(s, b) - One(a == b)
    ensures Owned(t, b)
  {
    hide Owners, Release;
    ReleaseAt(s.heap, a, b);
  }

  lemma DropOwned(s: State, a: nat)
    requires Core(s) && Enabled(s, Drop)
    ensures Owned(Step(s, Drop), a)
  {
    var h := s.handling.value;
    assert Owned(s, h) && Owned(s, a);
    ReleaseOwned(s, Step(s, Drop), h, a);
  }

  lemma ClientFreeOwned(s: State, a: nat)
    requires Core(s) && Enabled(s, ClientFree)
    ensures Owned(Step(s, ClientFree), a)
  {
    var h := s.client[0];
    assert Owned(s, h) && Owned(s, a);
    TailNoDup(s.client);
    ReleaseOwned(s, Step(s, ClientFree), h, a);
  }

  lemma InternalFreeOwned(s: State, a: nat)
    requires Core(s) && Enabled(s, InternalFree)
    ensures Owned(Step(s, InternalFree), a)
  {
    var h := s.internal[0];
    assert Owned(s, h) && Owned(s, a);
    TailNoDup(s.internal);
    ReleaseOwned(s, Step(s, InternalFree), h, a);
  }

  /** A packet that moves between its holders keeps its count. */
  lemma MoveOwned(s: State, e: Event, a: nat)
    requires Core(s) && Enabled(s, e) && e in {Publish, Unlink}
    ensures Owned(Step(s, e), a)
  {
    assert Owned(s, a);
    if e == Publish {
      MoreNoDup(s.client, s.arriving.value);
    } else {
      TailNoDup(s.internal);
    }
  }

  lemma NewOwned(s: State, e: Event, a: nat)
    requires Core(s) && Enabled(s, e) && (e.Arrive? || e.Append? || e.QueueSend?)
    ensures Owned(Step(s, e), a)
  {
    assert Owned(s, a) && Owned(s, e.at);
    hide Closing;
    if e.Arrive? && e.delayed {
      MoreNoDup(s.internal, e.at);
    } else if e.Append? {
      MoreNoDup(s.reliable, e.at);
    } else if e.QueueSend? {
      MoreNoDup(s.sendq, e.at);
    }
  }

  lemma SoleOwned(s: State, e: Event, a: nat)
    requires Core(s) && Enabled(s, e) && e in {FreeTaken, SendQueued}
    ensures Owned(Step(s, e), a)
  {
    var q := if e == FreeTaken then s.reliable else s.sendq;
    assert Owned(s, a) && Owned(s, q[0]);
    TailNoDup(q);
  }

  lemma CoreKept(s: State, e: Event)
    requires Core(s) && Enabled(s, e)
    ensures Core(Step(s, e))
  {
    StepKeepsLists(s, e);
    if e.StartFreeing? || e.TakeHead? || e.ResetTail? {
      forall a: nat ensures Owned(Step(s, e), a) {
        assert Owned(s, a);
      }
    } else {
      hide Owned, Lists, Taking;
      forall a: nat ensures Owned(Step(s, e), a) {
        match e {
          case Drop => DropOwned(s, a);
          case ClientFree => ClientFreeOwned(s, a);
          case InternalFree => InternalFreeOwned(s, a);
          case Publish | Unlink => MoveOwned(s, e, a);
          case FreeTaken | SendQueued => SoleOwned(s, e, a);
          case _ => NewOwned(s, e, a);
        }
      }
    }
  }

  lemma TailKept(s: State, e: Event)
    requires Inv(s) && Enabled(s, e)
    ensures TailRight(Step(s, e))
  {
    match e {
      case ClientFree => assert Owned(s, s.client[0]) && Owned(s, s.tail);
      case InternalFree => assert Owned(s, s.internal[0]) && Owned(s, s.tail);
      case Drop => assert Owned(s, s.handling.value) && Owned(s, s.tail);
      case FreeTaken => assert Owned(s, s.tail) && Owned(s, s.freeing.taken.value);
      case _ =>
    }
  }

  lemma StepKeeps(s: State, e: Event)
    requires Inv(s) && Enabled(s, e)
    ensures Inv(Step(s, e))
  {
    hide Core, TailRight;
    CoreKept(s, e);
    TailKept(s, e);
  }

  // ---- Order ----

  /** A state with what arrived, what the client has taken, what was delayed, what has left the internal list;
      what was appended, what of it joined the list, what was freed, and how many were lost; what was queued
      for sending and what has gone out. */
  datatype Log = Log(s: State, received: seq<Data>, taken: seq<Data>, delayed: seq<Data>, handled: seq<Data>,
                     appended: seq<Data>, kept: seq<Data>, freed: seq<Data>, dropped: nat,
                     queued: seq<Data>, gone: seq<Data>)

  function DataAt(heap: map<nat, Block>, a: nat): Data {
    if a in heap then heap[a].data else []
  }

  function Datas(heap: map<nat, Block>, q: seq<nat>): (r: seq<Data>)
    ensures |r| == |q|
  {
    seq(|q|, i requires 0 <= i < |q| => DataAt(heap, q[i]))
  }

  function Held(heap: map<nat, Block>, o: Option<nat>): seq<Data> {
    match o
    case None => []
    case Some(a) => [DataAt(heap, a)]
  }

  function Advance(l: Log, e: Event): Log
    requires Enabled(l.s, e)
  {
    var t := Step(l.s, e);
    match e
    case Arrive(_, data, delayed) =>
      l.(s := t, received := l.received + [data], delayed := if delayed then l.delayed + [data] else l.delayed)
    case Unlink | InternalFree => l.(s := t, handled := l.handled + [DataAt(l.s.heap, l.s.internal[0])])
    case ClientFree => l.(s := t, taken := l.taken + [DataAt(l.s.heap, l.s.client[0])])
    case Append(_, data) =>
      if Closing(l.s) then l.(s := t, appended := l.appended + [data], dropped := l.dropped + 1)
      else l.(s := t, appended := l.appended + [data], kept := l.kept + [data])
    case FreeTaken => l.(s := t, freed := l.freed + [DataAt(l.s.heap, l.s.freeing.taken.value)])
    case QueueSend(_, data) => l.(s := t, queued := l.queued + [data])
    case SendQueued => l.(s := t, gone := l.gone + [DataAt(l.s.heap, l.s.sendq[0])])
    case _ => l.(s := t)
  }

  /** Somebody holds the block at `a`. */
  predicate InUse(s: State, a: nat) {
    Owners(s, a) > 0 || a in s.reliable || a in s.sendq
  }

  /** A step leaves the data of a block that is still in use afterwards alone. */
  lemma DataKept(s: State, e: Event, a: nat)
    requires Core(s) && Enabled(s, e) && a in s.heap && InUse(Step(s, e), a)
    ensures DataAt(Step(s, e).heap, a) == DataAt(s.heap, a)
  {
    CoreKept(s, e);
    assert Owned(Step(s, e), a);
  }

  /** What is left of a list after the step was there before and is still in use. */
  lemma RestKept(s: State, e: Event, q: seq<nat>)
    requires Core(s) && Enabled(s, e)
    requires forall a | a in q :: InUse(s, a) && InUse(Step(s, e), a)
    ensures Datas(Step(s, e).heap, q) == Datas(s.heap, q)
  {
    hide Core, InUse, Enabled, Step, DataAt;
    forall i | 0 <= i < |q|
      ensures DataAt(Step(s, e).heap, q[i]) == DataAt(s.heap, q[i])
    {
      UsedIsLive(s, q[i]);
      DataKept(s, e, q[i]);
    }
  }

  lemma UsedIsLive(s: State, a: nat)
    requires Core(s) && InUse(s, a)
    ensures a in s.heap
  {
    assert Owned(s, a);
  }

  lemma HeldKept(s: State, e: Event, o: Option<nat>)
    requires Core(s) && Enabled(s, e)
    requires o != None ==> Owners(s, o.value) > 0 && Owners(Step(s, e), o.value) > 0
    ensures Held(Step(s, e).heap, o) == Held(s.heap, o)
  {
    if o != None {
      UsedIsLive(s, o.value);
      DataKept(s, e, o.value);
    }
  }

  lemma DatasOfTail(heap: map<nat, Block>, q: seq<nat>)
    requires q != []
    ensures Datas(heap, q) == [DataAt(heap, q[0])] + Datas(heap, q[1..])
  {
  }

  lemma DatasOfMore(heap: map<nat, Block>, q: seq<nat>, a: nat)
    ensures Datas(heap, q + [a]) == Datas(heap, q) + [DataAt(heap, a)]
  {
  }

  ghost predicate ClientOrdered(l: Log) {
    l.received == l.taken + Datas(l.s.heap, l.s.client) + Held(l.s.heap, l.s.arriving)
  }

  lemma ClientStays(l: Log, e: Event)
    requires Core(l.s) && ClientOrdered(l) && Enabled(l.s, e)
    requires !e.Arrive? && e != Publish && e != ClientFree
    ensures ClientOrdered(Advance(l, e))
  {
    hide Core, Release, Datas, Held, Closing;
    RestKept(l.s, e, l.s.client);
    HeldKept(l.s, e, l.s.arriving);
  }

  lemma ClientMoves(l: Log, e: Event)
    requires Core(l.s) && ClientOrdered(l) && Enabled(l.s, e)
    requires e.Arrive? || e == Publish || e == ClientFree
    ensures ClientOrdered(Advance(l, e))
  {
    var (s, t) := (l.s, Step(l.s, e));
    if e == Publish {
      DatasOfMore(s.heap, s.client, s.arriving.value);
    } else if e == ClientFree {
      TailNoDup(s.client);
      DatasOfTail(s.heap, s.client);
      hide Core, Release, Datas, Held;
      RestKept(s, e, s.client[1..]);
      HeldKept(s, e, s.arriving);
    } else {
      hide Core, Release, Datas;
      RestKept(s, e, s.client);
    }
  }

  ghost predicate InternalOrdered(l: Log) {
    l.delayed == l.handled + Datas(l.s.heap, l.s.internal)
  }

  lemma InternalKeeps(l: Log, e: Event)
    requires Core(l.s) && InternalOrdered(l) && Enabled(l.s, e)
    ensures InternalOrdered(Advance(l, e))
  {
    var (s, t) := (l.s, Step(l.s, e));
    if e == Unlink || e == InternalFree {
      TailNoDup(s.internal);
      DatasOfTail(s.heap, s.internal);
      hide Core, Release, Datas;
      RestKept(s, e, s.internal[1..]);
    } else {
      hide Core, Release, Datas, Closing;
      RestKept(s, e, s.internal);
      if e.Arrive? && e.delayed {
        DatasOfMore(t.heap, s.internal, e.at);
      }
    }
  }

  /** What joined the list has been freed or is still there, in order; the rest of what was appended is lost. */
  ghost predicate BuffersOrdered(l: Log) {
    && l.freed + Datas(l.s.heap, l.s.reliable) == l.kept
    && |l.kept| + l.dropped == |l.appended| && (l.dropped == 0 ==> l.kept == l.appended)
    && (l.dropped == 0 <==> l.s.lost == {})
  }

  lemma BuffersKeep(l: Log, e: Event)
    requires Core(l.s) && BuffersOrdered(l) && Enabled(l.s, e)
    ensures BuffersOrdered(Advance(l, e))
  {
    var (s, t) := (l.s, Step(l.s, e));
    if e == FreeTaken {
      TailNoDup(s.reliable);
      DatasOfTail(s.heap, s.reliable);
      hide Core, Datas;
      RestKept(s, e, s.reliable[1..]);
    } else {
      hide Core, Release, Datas, Closing;
      RestKept(s, e, s.reliable);
      if e.Append? {
        assert e.at in s.lost + {e.at};
        if !Closing(s) {
          DatasOfMore(t.heap, s.reliable, e.at);
        }
      }
    }
  }

  ghost predicate SendOrdered(l: Log) {
    l.queued == l.gone + Datas(l.s.heap, l.s.sendq)
  }

  lemma SendKeeps(l: Log, e: Event)
    requires Core(l.s) && SendOrdered(l) && Enabled(l.s, e)
    ensures SendOrdered(Advance(l, e))
  {
    var (s, t) := (l.s, Step(l.s, e));
    if e == SendQueued {
      TailNoDup(s.sendq);
      DatasOfTail(s.heap, s.sendq);
      hide Core, Datas;
      RestKept(s, e, s.sendq[1..]);
    } else {
      hide Core, Release, Datas, Closing;
      RestKept(s, e, s.sendq);
      if e.QueueSend? {
        DatasOfMore(t.heap, s.sendq, e.at);
      }
    }
  }

  ghost predicate Good(l: Log) {
    Inv(l.s) && ClientOrdered(l) && InternalOrdered(l) && BuffersOrdered(l) && SendOrdered(l)
  }

  lemma AdvanceKeeps(l: Log, e: Event)
    requires Good(l) && Enabled(l.s, e)
    ensures Good(Advance(l, e))
  {
    StepKeeps(l.s, e);
    hide Core, TailRight, ClientOrdered, InternalOrdered, BuffersOrdered, SendOrdered, Closing;
    if e.Arrive? || e == Publish || e == ClientFree {
      ClientMoves(l, e);
    } else {
      ClientStays(l, e);
    }
    InternalKeeps(l, e);
    BuffersKeep(l, e);
    SendKeeps(l, e);
  }

  // ---- Runs ----

  function Start(): Log {
    Log(Init(), [], [], [], [], [], [], [], 0, [], [])
  }

  ghost predicate Runs(l: Log, es: seq<Event>, out: Log)
    decreases |es|
  {
    if es == [] then out == l
    else Enabled(l.s, es[0]) && Runs(Advance(l, es[0]), es[1..], out)
  }

  /** No append of the run falls between the moment the network thread takes the last buffer of the list and
      the moment it clears the tail. */
  ghost predicate AppendsOutside(l: Log, es: seq<Event>)
    decreases |es|
  {
    if es == [] || !Enabled(l.s, es[0]) then true
    else !(es[0].Append? && Closing(l.s)) && AppendsOutside(Advance(l, es[0]), es[1..])
  }

  lemma {:induction false} RunKeeps(l: Log, es: seq<Event>, out: Log)
    requires Good(l) && Runs(l, es, out)
    ensures Good(out)
    ensures l.dropped <= out.dropped && (out.dropped == l.dropped <==> AppendsOutside(l, es))
    decreases |es|
  {
    hide Good, Enabled, Step, Closing;
    if es != [] {
      AdvanceKeeps(l, es[0]);
      RunKeeps(Advance(l, es[0]), es[1..], out);
    }
  }

  lemma StartIsGood()
    ensures Good(Start())
  {
    InitIsGood();
  }

  /** Over every interleaving of the two threads: the count of a packet is the number of its holders, both
      packet lists and the send queue are first in, first out, and no step touches a block that has been freed,
      except the one append that NothingElseDangles describes. */
  lemma CountsAndOrder(es: seq<Event>, out: Log, next: Event)
    requires Runs(Start(), es, out)
    ensures forall a | a in out.s.heap && out.s.heap[a].Received? :: out.s.heap[a].usecount == Owners(out.s, a) > 0
    ensures out.received == out.taken + Datas(out.s.heap, out.s.client) + Held(out.s.heap, out.s.arriving)
    ensures out.delayed == out.handled + Datas(out.s.heap, out.s.internal)
    ensures out.queued == out.gone + Datas(out.s.heap, out.s.sendq)
    ensures Enabled(out.s, next) ==> (Touched(out.s, next) <= Allocated(out.s, next) <==> !Dangling(out.s, next))
  {
    hide Owners, Enabled, Step, Datas, Held, Closing;
    StartIsGood();
    RunKeeps(Start(), es, out);
    forall a | a in out.s.heap && out.s.heap[a].Received?
      ensures out.s.heap[a].usecount == Owners(out.s, a) > 0
    {
      assert Owned(out.s, a);
    }
    hide Dangling, Touched, Allocated;
    if Enabled(out.s, next) {
      NothingElseDangles(out.s, next);
    }
  }

  /** Over every interleaving: freed plus queued buffers are all those appended, in order, if and only if no
      append falls while the list is closing. What joined the list is never lost or reordered. */
  lemma BuffersKept(es: seq<Event>, out: Log)
    requires Runs(Start(), es, out)
    ensures out.freed + Datas(out.s.heap, out.s.reliable) == out.appended <==> AppendsOutside(Start(), es)
    ensures out.freed + Datas(out.s.heap, out.s.reliable) == out.kept
    ensures out.s.lost == {} <==> AppendsOutside(Start(), es)
  {
    hide Runs, AppendsOutside, Datas;
    StartIsGood();
    RunKeeps(Start(), es, out);
  }

  /** Another buffer waits behind the bundle. */
  predicate Protected(s: State) {
    match s.freeing
    case NotFreeing => true
    case Freeing(left, taken) => left + One(taken != None) < |s.reliable|
  }

  /** Then the list does not close, whatever happens meanwhile: a bundle that is not the whole queue is freed
      safely. */
  lemma ProtectedStays(s: State, e: Event)
    requires Core(s) && Enabled(s, e) && Protected(s) && (e.StartFreeing? ==> e.n < |s.reliable|)
    ensures !Closing(s) && Protected(Step(s, e))
  {
  }

  /** The smallest run that goes wrong: one buffer, freed, and another appended before the tail is cleared. The
      append writes through the freed buffer, and its own buffer is in no list afterwards. */
  function Unlucky(a: Data, b: Data): seq<Event> {
    [Append(1, a), StartFreeing(1), TakeHead, FreeTaken, Append(2, b), ResetTail]
  }

  lemma {:induction false} RunThrough(logs: seq<Log>, es: seq<Event>)
    requires |logs| == |es| + 1
    requires forall i | 0 <= i < |es| :: Enabled(logs[i].s, es[i]) && logs[i + 1] == Advance(logs[i], es[i])
    ensures Runs(logs[0], es, logs[|es|])
    decreases |es|
  {
    hide Advance, Enabled;
    if es != [] {
      RunThrough(logs[1..], es[1..]);
    }
  }

  function WithBuffer(a: Data): Log {
    Log(Init().(heap := map[1 := Reliable(a)], reliable := [1], tail := 1), [], [], [], [], [a], [a], [], 0, [], [])
  }

  /** The buffer has been freed, and the tail still points to it. */
  function WithStaleTail(a: Data): Log {
    Log(Init().(freeing := Freeing(0, None), tail := 1), [], [], [], [], [a], [a], [a], 0, [], [])
  }

  lemma BufferAppended(a: Data)
    ensures Enabled(Init(), Append(1, a)) && Advance(Start(), Append(1, a)) == WithBuffer(a)
  {
  }

  lemma BufferFreed(a: Data)
    ensures Runs(WithBuffer(a), [StartFreeing(1), TakeHead, FreeTaken], WithStaleTail(a))
  {
    var es := [StartFreeing(1), TakeHead, FreeTaken];
    var l1 := WithBuffer(a);
    var l2 := l1.(s := l1.s.(freeing := Freeing(1, None)));
    var l3 := l1.(s := l1.s.(freeing := Freeing(0, Some(1))));
    assert l1.s.heap - {1} == map[];
    assert Advance(l3, FreeTaken) == WithStaleTail(a);
    RunThrough([l1, l2, l3, WithStaleTail(a)], es);
  }

  lemma {:induction false} RunsOn(l: Log, es: seq<Event>, m: Log, more: seq<Event>, out: Log)
    requires Runs(l, es, m) && Runs(m, more, out)
    ensures Runs(l, es + more, out)
    decreases |es|
  {
    hide Advance, Enabled;
    if es == [] {
      assert es + more == more;
    } else {
      assert (es + more)[1..] == es[1..] + more;
      RunsOn(Advance(l, es[0]), es[1..], m, more, out);
    }
  }

  /** Appending then touches the freed buffer, and clearing the tail cuts the new one off. */
  lemma BufferLost(a: Data, b: Data) returns (out: Log)
    ensures var (s, e) := (WithStaleTail(a).s, Append(2, b)); Enabled(s, e) && !(Touched(s, e) <= Allocated(s, e))
    ensures Runs(WithStaleTail(a), [Append(2, b), ResetTail], out)
    ensures out.appended == [a, b] && out.freed == [a] && out.s.reliable == [] && out.s.lost == {2}
    ensures out.s.heap.Keys == {2} && out.s.tail == 0
  {
    var before := WithStaleTail(a);
    assert 1 in Touched(before.s, Append(2, b)) && 1 !in Allocated(before.s, Append(2, b));
    var after := Advance(before, Append(2, b));
    out := Advance(after, ResetTail);
    RunThrough([before, after, out], [Append(2, b), ResetTail]);
  }

  lemma UnluckyLosesABuffer(a: Data, b: Data) returns (before: Log, out: Log)
    ensures Runs(Start(), Unlucky(a, b)[..4], before) && Runs(Start(), Unlucky(a, b), out)
    ensures var e := Append(2, b); Enabled(before.s, e) && !(Touched(before.s, e) <= Allocated(before.s, e))
    ensures out.appended == [a, b] && out.freed == [a] && out.s.reliable == [] && out.s.lost == {2}
    ensures out.s.heap.Keys == {2} && out.s.tail == 0
  {
    before := WithStaleTail(a);
    BufferAppended(a);
    RunThrough([Start(), WithBuffer(a)], [Append(1, a)]);
    BufferFreed(a);
    out := BufferLost(a, b);
    hide Runs, Enabled, Touched, Allocated, WithStaleTail, WithBuffer, Start;
    RunsOn(Start(), [Append(1, a)], WithBuffer(a), [StartFreeing(1), TakeHead, FreeTaken], before);
    assert [Append(1, a)] + [StartFreeing(1), TakeHead, FreeTaken] == Unlucky(a, b)[..4];
    RunsOn(Start(), Unlucky(a, b)[..4], before, [Append(2, b), ResetTail], out);
    assert Unlucky(a, b)[..4] + [Append(2, b), ResetTail] == Unlucky(a, b);
  }

  lemma OnlyTheSendQueue(s: State)
    requires Core(s) && s.client == [] && s.internal == [] && s.reliable == []
    requires s.arriving == None && s.handling == None
    ensures s.heap.Keys == s.lost + set a | a in s.sendq
    ensures s.heap == map[] <==> s.sendq == [] && s.lost == {}
  {
    forall a: nat ensures a in s.heap <==> a in s.lost || a in s.sendq {
      assert Owned(s, a);
    }
    if s.sendq != [] {
      assert s.sendq[0] in s.heap;
    }
  }

  /** Once the three lists NetQW_Delete goes through are empty, nothing is left allocated but lost buffers and
      the packets still queued for sending, which it does not free: every block has been freed exactly once if
      and only if that queue is empty and no append fell while the list was closing. */
  lemma DeleteFreesAllButTheSendQueue(es: seq<Event>, out: Log)
    requires Runs(Start(), es, out)
    requires out.s.client == [] && out.s.internal == [] && out.s.reliable == []
    requires out.s.arriving == None && out.s.handling == None
    ensures out.s.heap.Keys == out.s.lost + set a | a in out.s.sendq
    ensures out.s.heap == map[] <==> out.s.sendq == [] && AppendsOutside(Start(), es)
  {
    hide Advance, Enabled, AppendsOutside, Runs;
    StartIsGood();
    RunKeeps(Start(), es, out);
    BuffersKept(es, out);
    OnlyTheSendQueue(out.s);
  }
}
