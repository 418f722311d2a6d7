/** The netqw client talking to a net channel server over a network that loses, duplicates and
    reorders datagrams. The server keeps the reply convention of QuakeWorld: it sends only while its
    own sequence number has not passed the newest one it acknowledges. The client thread appends buffers at any
    time, also while the network thread frees a bundle without holding the mutex. */
module NetqwProtocol {
  import opened Wire
  import opened NetchanSpec
  import opened ReliableDirection
  import opened MovePart
  import N = NetqwSpec

  /** `appended`: the client's buffers in order; `kept`: those that joined its queue; `lost`: the others; `freed`:
      those it has freed. `serverGot`: the reliable payloads the server took. `serverSent`, `clientGot`: the
      other direction. */
  datatype System = System(
    client: N.QwClient, server: Chan,
    appended: seq<seq<byte>>, kept: seq<seq<byte>>, lost: seq<seq<byte>>, freed: seq<seq<byte>>,
    serverGot: seq<Message>, toServer: set<Packet>,
    serverSent: seq<Message>, clientGot: seq<Message>, toClient: set<Packet>)

  /** `early` and `late` are what the client thread appends while the packet is being handled. */
  datatype Event =
    | Append(buffer: seq<byte>)
    | Send(moves: Moves)
    | Receive(reply: Packet, early: seq<seq<byte>>, late: seq<seq<byte>>)
    | ServerWrite(data: seq<byte>)
    | ServerAdvance(seqNo: nat)
    | ServerTransmit(data: seq<byte>)
    | ServerProcess(packet: Packet)

  ghost predicate Initial(s: System) {
    N.Initial(s.client) && s == System(s.client, Setup(Server), [], [], [], [], [], {}, [], [], {})
  }

  function AppendAll(s: System, buffers: seq<seq<byte>>): System {
    s.(client := N.AppendAll(s.client, buffers), appended := s.appended + buffers, kept := s.kept + buffers)
  }

  function LoseAll(s: System, buffers: seq<seq<byte>>): System {
    s.(appended := s.appended + buffers, lost := s.lost + buffers)
  }

  predicate Takes(s: System, q: Packet) {
    q in s.toClient && N.Accepts(s.client, q.head)
  }

  function Handled(s: System, q: Packet): System
    requires s.client.buffersSent <= |s.client.queue|
  {
    if !Takes(s, q) then s
    else s.(client := N.Handle(s.client, q.head),
            freed := s.freed + s.client.queue[..N.Freed(s.client, q.head)],
            clientGot := GotAfter(s.client.lastIn, q, s.clientGot))
  }

  /** Handling the packet takes every buffer off the queue. */
  predicate Closes(s: System, q: Packet) {
    Takes(s, q) && N.Closes(s.client, q.head)
  }

  function DoReceive(s: System, q: Packet, early: seq<seq<byte>>, late: seq<seq<byte>>): System
    requires s.client.buffersSent <= |s.client.queue|
  {
    var s1 := AppendAll(s, early);
    if Closes(s1, q) then LoseAll(Handled(s1, q), late) else AppendAll(Handled(s1, q), late)
  }

  /** It is what the client does around the packet. */
  lemma ReceiveIsAround(s: System, q: Packet, early: seq<seq<byte>>, late: seq<seq<byte>>)
    requires s.client.buffersSent <= |s.client.queue| && Takes(s, q)
    ensures var t := DoReceive(s, q, early, late);
            && t.client == N.HandleAround(s.client, q.head, early, late)
            && t.lost == s.lost + N.LostAround(s.client, q.head, early, late)
  {
    assert s.lost + [] == s.lost;
  }

  function DoTransmit(s: System, data: seq<byte>): System {
    s.(server := Transmit(s.server), serverSent := SentAfter(s.server, s.serverSent),
       toClient := if CanTransmit(s.server) then s.toClient + {PacketOf(s.server, data)} else s.toClient)
  }

  /** The reply convention. */
  predicate MayReply(server: Chan) {
    server.outSeq <= server.inSeq
  }

  /** `strict` says whether the server keeps the convention. */
  function Next(s: System, e: Event, strict: bool): System
    requires s.client.buffersSent <= |s.client.queue|
  {
    match e
    case Append(b) => AppendAll(s, [b])
    case Send(m) =>
      s.(client := N.Send(s.client, Bytes(m)), toServer := s.toServer + {N.PacketOf(s.client, Bytes(m))})
    case Receive(q, early, late) => DoReceive(s, q, early, late)
    case ServerWrite(d) => s.(server := Write(s.server, d))
    case ServerAdvance(n) =>
      if s.server.outSeq <= n <= s.server.inSeq then s.(server := s.server.(outSeq := n)) else s
    case ServerTransmit(d) => if strict && !MayReply(s.server) then s else DoTransmit(s, d)
    case ServerProcess(p) =>
      if p !in s.toServer || s.server.aborted then s
      else s.(server := Process(s.server, p.head), serverGot := GotAfter(s.server.inSeq, p, s.serverGot))
  }

  lemma NextWellFormed(s: System, e: Event, strict: bool)
    requires s.client.buffersSent <= |s.client.queue|
    ensures Next(s, e, strict).client.buffersSent <= |Next(s, e, strict).client.queue|
  {
    hide Bytes;
  }

  function Run(s: System, events: seq<Event>, strict: bool): (t: System)
    requires s.client.buffersSent <= |s.client.queue|
    decreases |events|
    ensures t.client.buffersSent <= |t.client.queue|
  {
    if events == [] then s
    else
      NextWellFormed(s, events[0], strict);
      Run(Next(s, events[0], strict), events[1..], strict)
  }

  /** An append falls after the last buffer of the queue has been taken and before the tail is cleared. */
  predicate Late(s: System, e: Event) {
    e.Receive? && e.late != [] && Closes(AppendAll(s, e.early), e.reply)
  }

  /** No event of the run is of that kind. */
  ghost predicate NoneLate(s: System, events: seq<Event>, strict: bool)
    requires s.client.buffersSent <= |s.client.queue|
    decreases |events|
  {
    events == []
    || (NextWellFormed(s, events[0], strict);
        !Late(s, events[0]) && NoneLate(Next(s, events[0], strict), events[1..], strict))
  }

  // ---- The client's bundles on their way to the server ----

  /** The server's bit tells whether it has the outstanding bundle; its stream is the freed buffers,
      then that bundle if it has it. */
  ghost predicate Streams(s: System) {
    var c := s.client;
    && c.buffersSent <= |c.queue|
    && s.freed + c.queue == s.kept
    && (c.buffersSent == 0 ==> s.server.inRel == c.sentXor)
    && Flatten(s.serverGot) == Flatten(s.freed)
         + (if c.buffersSent > 0 && s.server.inRel == c.sentXor then Flatten(c.queue[..c.buffersSent]) else [])
  }

  ghost predicate Bundles(s: System) {
    var c := s.client;
    && c.buffersSent <= |c.queue|
    && s.server.inSeq < c.current && (c.buffersSent > 0 ==> c.reliableSeq < c.current)
    && (forall p :: p in s.toServer ==> p.head.seqNo < c.current)
    && (forall p :: p in s.toServer && p.head.hasReliable && Live(p, s.server.inSeq) ==>
          && c.buffersSent > 0 && p.head.seqNo == c.reliableSeq && s.server.inRel != c.sentXor
          && p.reliable == Flatten(c.queue[..c.buffersSent]))
  }

  /** A reply never outruns what it acknowledges, so one numbered at or past the bundle was sent
      after the server had passed the bundle, and its bit is final. */
  ghost predicate Replies(s: System) {
    && s.server.outSeq <= s.server.inSeq + 1
    && forall q :: q in s.toClient ==>
      && q.head.seqNo <= q.head.ack <= s.server.inSeq
      && (s.client.buffersSent > 0 && q.head.ack >= s.client.reliableSeq ==> q.head.ackBit == s.server.inRel)
  }

  ghost predicate ServerToClient(s: System) {
    Inv(s.server, s.client.lastIn, s.client.ackXor, s.client.current, s.toClient, s.toServer,
        s.serverSent, s.clientGot)
  }

  ghost predicate ClientToServer(s: System) {
    Streams(s) && Bundles(s) && Replies(s)
  }

  ghost predicate SystemInv(s: System) {
    s.client.buffersSent <= |s.client.queue| && ClientToServer(s) && ServerToClient(s)
  }

  lemma InitialInv(s: System)
    requires Initial(s)
    ensures SystemInv(s)
  {
  }

  lemma AppendKeeps(s: System, bs: seq<seq<byte>>)
    requires ClientToServer(s)
    ensures ClientToServer(AppendAll(s, bs))
  {
    var c := s.client;
    assert (c.queue + bs)[..c.buffersSent] == c.queue[..c.buffersSent];
    assert s.freed + (c.queue + bs) == s.freed + c.queue + bs;
  }

  lemma SendKeeps(s: System, m: Moves)
    requires ClientToServer(s)
    ensures ClientToServer(Next(s, Send(m), true))
  {
    hide Bytes;
  }

  /** The reply that settles an outstanding bundle tells the truth about it. */
  lemma DecisionIsRight(s: System, q: Packet)
    requires ClientToServer(s) && q in s.toClient && N.Decides(s.client, q.head)
    ensures q.head.ackBit == s.server.inRel
    ensures forall p :: p in s.toServer && p.head.hasReliable ==> !Live(p, s.server.inSeq)
  {
  }

  /** Given a truthful reply, freeing or keeping the bundle keeps both streams in step. */
  lemma HandleKeepsStreams(s: System, q: Packet)
    requires Streams(s) && (N.Decides(s.client, q.head) ==> q.head.ackBit == s.server.inRel)
    ensures Streams(Handled(s, q))
  {
    var (c, t) := (s.client, Handled(s, q));
    var n := if t == s then 0 else N.Freed(c, q.head);
    FlattenConcat(s.freed, c.queue[..n]);
    assert c.queue[..0] == [] && c.queue[0..] == c.queue && s.freed + [] == s.freed;
    assert s.freed + c.queue[..n] + c.queue[n..] == s.freed + c.queue;
  }

  lemma HandleKeeps(s: System, q: Packet)
    requires ClientToServer(s)
    ensures ClientToServer(Handled(s, q))
  {
    if q in s.toClient {
      if N.Decides(s.client, q.head) {
        DecisionIsRight(s, q);
      }
      HandleKeepsStreams(s, q);
    }
  }

  lemma LoseKeeps(s: System, bs: seq<seq<byte>>)
    requires ClientToServer(s)
    ensures ClientToServer(LoseAll(s, bs))
  {
  }

  lemma ReceiveKeeps(s: System, q: Packet, early: seq<seq<byte>>, late: seq<seq<byte>>)
    requires ClientToServer(s)
    ensures ClientToServer(DoReceive(s, q, early, late))
  {
    hide ClientToServer;
    StreamsWellFormed(s);
    var s1 := AppendAll(s, early);
    AppendKeeps(s, early);
    HandleKeeps(s1, q);
    AppendKeeps(Handled(s1, q), late);
    LoseKeeps(Handled(s1, q), late);
  }

  lemma StreamsWellFormed(s: System)
    requires ClientToServer(s)
    ensures s.client.buffersSent <= |s.client.queue|
  {
  }

  lemma ServerProcessKeeps(s: System, p: Packet)
    requires ClientToServer(s)
    ensures ClientToServer(Next(s, ServerProcess(p), true))
  {
    if p in s.toServer && !s.server.aborted && Live(p, s.server.inSeq) && p.head.hasReliable {
      assert (s.serverGot + [p.reliable])[..|s.serverGot|] == s.serverGot;
    }
  }

  lemma ServerOutputKeeps(s: System, e: Event)
    requires ClientToServer(s) && (e.ServerWrite? || e.ServerAdvance? || e.ServerTransmit?)
    ensures ClientToServer(Next(s, e, true))
  {
  }

  lemma ClientToServerKeeps(s: System, e: Event)
    requires ClientToServer(s)
    ensures ClientToServer(Next(s, e, true))
  {
    match e
    case Append(b) => AppendKeeps(s, [b]);
    case Send(m) => SendKeeps(s, m);
    case Receive(q, early, late) => ReceiveKeeps(s, q, early, late);
    case ServerProcess(p) => ServerProcessKeeps(s, p);
    case _ => ServerOutputKeeps(s, e);
  }

  /** The client end of the server's channel: a receiver like any other. */
  lemma ClientEndKeeps(s: System, e: Event)
    requires ServerToClient(s) && s.client.buffersSent <= |s.client.queue|
    requires e.Append? || e.Send? || e.Receive?
    ensures ServerToClient(Next(s, e, true))
  {
    hide Inv, Bytes;
    var c := s.client;
    match e
    case Append(b) =>
    case Send(m) =>
      ReceiverSends(s.server, N.PacketOf(c, Bytes(m)), c.lastIn, c.ackXor, c.current, s.toClient, s.toServer,
                    s.serverSent, s.clientGot);
    case Receive(q, early, late) =>
      if Takes(s, q) {
        ReceiverAccepts(s.server, q, c.lastIn, c.ackXor, c.current, s.toClient, s.toServer, s.serverSent, s.clientGot);
      }
  }

  lemma ServerEndKeeps(s: System, e: Event)
    requires ServerToClient(s) && s.client.buffersSent <= |s.client.queue|
    requires !e.Append? && !e.Send? && !e.Receive?
    ensures ServerToClient(Next(s, e, true))
  {
    var c := s.client;
    match e
    case ServerWrite(d) =>
      SenderWrites(s.server, d, c.lastIn, c.ackXor, c.current, s.toClient, s.toServer, s.serverSent, s.clientGot);
    case ServerAdvance(n) =>
      if s.server.outSeq <= n {
        SenderSkips(s.server, n, c.lastIn, c.ackXor, c.current, s.toClient, s.toServer, s.serverSent, s.clientGot);
      }
    case ServerTransmit(d) =>
      if MayReply(s.server) {
        SenderTransmits(s.server, d, c.lastIn, c.ackXor, c.current, s.toClient, s.toServer, s.serverSent, s.clientGot);
      }
    case ServerProcess(p) =>
      if p in s.toServer && !s.server.aborted {
        SenderHears(s.server, p, c.lastIn, c.ackXor, c.current, s.toClient, s.toServer, s.serverSent, s.clientGot);
      }
  }

  lemma NextKeeps(s: System, e: Event)
    requires SystemInv(s)
    ensures SystemInv(Next(s, e, true))
  {
    ClientToServerKeeps(s, e);
    if e.Append? || e.Send? || e.Receive? {
      ClientEndKeeps(s, e);
    } else {
      ServerEndKeeps(s, e);
    }
  }

  lemma {:induction false} RunKeeps(s: System, events: seq<Event>)
    requires SystemInv(s)
    ensures SystemInv(Run(s, events, true))
    decreases |events|
  {
    if events != [] {
      NextKeeps(s, events[0]);
      RunKeeps(Next(s, events[0], true), events[1..]);
    }
  }

  /** Safety of the client's reliable stream: the buffers that joined the queue are freed or still there, in
      order, and the server has had exactly the freed buffers, plus at most the outstanding bundle. */
  ghost predicate StreamSafe(s: System) {
    && s.freed + s.client.queue == s.kept
    && (Flatten(s.serverGot) == Flatten(s.freed)
        || (0 < s.client.buffersSent <= |s.client.queue|
            && Flatten(s.serverGot) == Flatten(s.freed + s.client.queue[..s.client.buffersSent])))
  }

  lemma StreamsAreSafe(s: System)
    requires Streams(s)
    ensures StreamSafe(s) && Flatten(s.serverGot) <= Flatten(s.kept)
  {
    var sent := s.client.queue[..s.client.buffersSent];
    var rest := s.client.queue[s.client.buffersSent..];
    assert sent + rest == s.client.queue && s.freed + (sent + rest) == s.freed + sent + rest;
    FlattenConcat(s.freed, sent);
    hide Flatten;
    FlattenPrefix(s.freed + sent, s.kept);
    FlattenPrefix(s.freed, s.kept);
  }

  /** Where the buffers went that were appended. */
  predicate Accounted(s: System) {
    |s.kept| + |s.lost| == |s.appended| && (s.lost == [] ==> s.kept == s.appended)
  }

  lemma {:induction false} RunAccounts(s: System, events: seq<Event>, strict: bool)
    requires s.client.buffersSent <= |s.client.queue| && Accounted(s)
    ensures var t := Run(s, events, strict);
            && Accounted(t) && |s.lost| <= |t.lost|
            && (|t.lost| == |s.lost| <==> NoneLate(s, events, strict))
    decreases |events|
  {
    if events != [] {
      NextWellFormed(s, events[0], strict);
      NextAccounts(s, events[0], strict);
      hide Accounted, Late, Next;
      RunAccounts(Next(s, events[0], strict), events[1..], strict);
    }
  }

  lemma NextAccounts(s: System, e: Event, strict: bool)
    requires s.client.buffersSent <= |s.client.queue| && Accounted(s)
    ensures var t := Next(s, e, strict);
            && Accounted(t) && |s.lost| <= |t.lost| && (|t.lost| == |s.lost| <==> !Late(s, e))
  {
    hide N.Handle, N.Closes, N.Freed, Bytes, Transmit, Process, Write;
  }

  /** Over every run against a server that keeps the convention: the server is given the client's buffers once
      each and in order; and freed plus queued buffers are all those appended if and only if no append fell
      after the network thread had taken the last buffer of its queue and before it cleared the tail. */
  lemma BuffersDeliveredInOrderOnce(init: System, events: seq<Event>)
    requires Initial(init)
    ensures StreamSafe(Run(init, events, true))
    ensures var s := Run(init, events, true);
            && Flatten(s.serverGot) <= Flatten(s.kept)
            && (s.freed + s.client.queue == s.appended <==> NoneLate(init, events, true))
  {
    InitialInv(init);
    RunKeeps(init, events);
    RunAccounts(init, events, true);
    hide Streams, Run, Initial, NoneLate;
    StreamsAreSafe(Run(init, events, true));
  }

  /** The other direction: the server's reliable messages reach the client once each, in order. */
  lemma ServerMessagesInOrderOnce(init: System, events: seq<Event>)
    requires Initial(init)
    ensures var s := Run(init, events, true);
            && s.clientGot <= s.serverSent && |s.serverSent| <= |s.clientGot| + 1
            && (s.server.unacked == [] ==> s.clientGot == s.serverSent)
  {
    InitialInv(init);
    RunKeeps(init, events);
  }

  // ---- Progress ----

  predicate ServerReady(server: Chan) {
    server.side.Server? && !server.aborted && !server.overflowed
    && |server.message| <= MAX_MSGLEN && |server.unacked| <= MAX_MSGLEN
  }

  /** The client sends, the server takes it and moves its sequence number up to the one it answers. */
  function Outward(s: System, moves: Moves): (t: System)
    requires s.client.buffersSent <= |s.client.queue|
    ensures t.client.buffersSent <= |t.client.queue|
  {
    var s1 := Next(s, Send(moves), true);
    var s2 := Next(s1, ServerProcess(N.PacketOf(s.client, Bytes(moves))), true);
    Next(s2, ServerAdvance(s2.server.inSeq), true)
  }

  /** The server replies and the client takes that reply. */
  function Homeward(s: System, data: seq<byte>): System
    requires s.client.buffersSent <= |s.client.queue|
  {
    Next(Next(s, ServerTransmit(data), true), Receive(PacketOf(s.server, data), [], []), true)
  }

  /** One loss-free round. */
  function Round(s: System, moves: Moves, data: seq<byte>): System
    requires s.client.buffersSent <= |s.client.queue|
  {
    Homeward(Outward(s, moves), data)
  }

  lemma OutwardKeeps(s: System, moves: Moves)
    requires SystemInv(s)
    ensures SystemInv(Outward(s, moves))
  {
    var p := N.PacketOf(s.client, Bytes(moves));
    var s1 := Next(s, Send(moves), true);
    NextKeeps(s, Send(moves));
    NextKeeps(s1, ServerProcess(p));
    var s2 := Next(s1, ServerProcess(p), true);
    NextKeeps(s2, ServerAdvance(s2.server.inSeq));
  }

  lemma OutwardArrives(s: System, moves: Moves)
    requires s.client.buffersSent <= |s.client.queue| && ServerReady(s.server)
    requires s.server.inSeq < s.client.current && s.server.outSeq <= s.server.inSeq + 1
    ensures var (t, c) := (Outward(s, moves), N.Send(s.client, Bytes(moves)));
            && ServerReady(t.server) && t.client == c && t.freed == s.freed && t.kept == s.kept
            && t.server.outSeq == t.server.inSeq == s.client.current
            && t.server.inRel == (if N.Bundle(s.client, Bytes(moves)) > 0 then !s.server.inRel else s.server.inRel)
  {
  }

  lemma ReceiveAlone(s: System, q: Packet)
    requires s.client.buffersSent <= |s.client.queue|
    ensures DoReceive(s, q, [], []) == Handled(s, q)
  {
    assert AppendAll(s, []) == s by {
      assert s.client.queue + [] == s.client.queue && s.appended + [] == s.appended && s.kept + [] == s.kept;
    }
    var t := Handled(s, q);
    assert t.client.queue + [] == t.client.queue && t.appended + [] == t.appended && t.kept + [] == t.kept;
    assert t.lost + [] == t.lost;
  }

  /** The reply, on its way. */
  lemma ReplySent(s: System, data: seq<byte>)
    requires SystemInv(s) && ServerReady(s.server)
    requires s.server.outSeq == s.server.inSeq == s.client.current - 1 > 0
    ensures var (q, m) := (PacketOf(s.server, data), Next(s, ServerTransmit(data), true));
            && SystemInv(m) && ServerReady(m.server) && q in m.toClient && N.Accepts(m.client, q.head)
            && m.client == s.client && m.freed == s.freed && m.kept == s.kept
            && q.head.seqNo == s.client.current - 1 && q.head.ackBit == s.server.inRel
  {
    NextKeeps(s, ServerTransmit(data));
    hide ClientToServer, ServerToClient;
    assert MayReply(s.server) && CanTransmit(s.server);
  }

  lemma HomewardSettles(s: System, data: seq<byte>)
    requires SystemInv(s) && ServerReady(s.server)
    requires s.server.outSeq == s.server.inSeq == s.client.current - 1 > 0
    ensures var t := Homeward(s, data);
            && SystemInv(t) && ServerReady(t.server) && t.client.buffersSent == 0 && t.kept == s.kept
            && t.freed == s.freed + (if s.server.inRel == s.client.sentXor
                                     then s.client.queue[..s.client.buffersSent] else [])
  {
    ReplySent(s, data);
    var (q, m) := (PacketOf(s.server, data), Next(s, ServerTransmit(data), true));
    NextKeeps(m, Receive(q, [], []));
    ReceiveAlone(m, q);
    assert s.client.queue[..0] == [];
  }

  /** A round settles the outstanding bundle, and frees a bundle sent in it. */
  lemma RoundSettles(s: System, moves: Moves, data: seq<byte>)
    requires SystemInv(s) && ServerReady(s.server)
    ensures var t := Round(s, moves, data);
            && SystemInv(t) && ServerReady(t.server) && t.kept == s.kept && t.client.buffersSent == 0
            && (s.client.buffersSent == 0 ==> t.freed == s.freed + s.client.queue[..N.Bundle(s.client, Bytes(moves))])
            && (s.client.buffersSent > 0 ==>
                  t.freed == s.freed + (if s.server.inRel == s.client.sentXor
                                        then s.client.queue[..s.client.buffersSent] else []))
  {
    OutwardKeeps(s, moves);
    OutwardArrives(s, moves);
    HomewardSettles(Outward(s, moves), data);
    assert s.client.queue[..0] == [];
  }

  /** A longer part of the same whole begins with the part's next element. */
  lemma FreedPart(whole: seq<seq<byte>>, a: seq<seq<byte>>, rest: seq<seq<byte>>, b: seq<seq<byte>>)
    requires a + rest == whole && rest != [] && a <= b <= whole && |b| > |a|
    ensures a + [rest[0]] <= b
  {
    assert whole[|a|] == rest[0];
  }

  /** From any reachable state two rounds deliver and free at least the first queued buffer,
      provided it fits in a packet at all. */
  lemma TwoRoundsFreeTheHead(init: System, events: seq<Event>,
                             m1: Moves, d1: seq<byte>, m2: Moves, d2: seq<byte>)
    requires Initial(init)
    requires var s := Run(init, events, true);
             && ServerReady(s.server) && s.client.queue != []
             && N.HEADER + |Bytes(m1)| + |s.client.queue[0]| < N.LIMIT
             && N.HEADER + |Bytes(m2)| + |s.client.queue[0]| < N.LIMIT
    ensures var s := Run(init, events, true);
            var t := Round(s, m1, d1);
            t.client.buffersSent <= |t.client.queue| &&
            s.freed + [s.client.queue[0]] <= Round(t, m2, d2).freed
  {
    InitialInv(init);
    RunKeeps(init, events);
    TwoRounds(Run(init, events, true), m1, d1, m2, d2);
  }

  lemma TwoRounds(s: System, m1: Moves, d1: seq<byte>, m2: Moves, d2: seq<byte>)
    requires SystemInv(s) && ServerReady(s.server) && s.client.queue != []
    requires N.HEADER + |Bytes(m1)| + |s.client.queue[0]| < N.LIMIT
    requires N.HEADER + |Bytes(m2)| + |s.client.queue[0]| < N.LIMIT
    ensures var t := Round(s, m1, d1);
            t.client.buffersSent <= |t.client.queue| && s.freed + [s.client.queue[0]] <= Round(t, m2, d2).freed
  {
    RoundSettles(s, m1, d1);
    var t := Round(s, m1, d1);
    RoundSettles(t, m2, d2);
    var u := Round(t, m2, d2);
    if t.freed == s.freed {
      assert t.client.queue == s.client.queue by {
        assert s.kept[|s.freed|..] == s.client.queue && t.kept[|t.freed|..] == t.client.queue;
      }
      assert N.Bundle(t.client, Bytes(m2)) > 0;
    }
    FreedPart(s.kept, s.freed, s.client.queue, u.freed);
  }

  // ---- Progress of the server's messages ----

  /** The client's packet tells the server what the client has: nothing is outstanding afterwards if it has
      everything, and what is missing is known to be missing if the client has heard a packet after it. */
  lemma OutwardTells(s: System, moves: Moves)
    requires SystemInv(s) && ServerReady(s.server)
    ensures var t := Outward(s, moves);
            && t.serverSent == s.serverSent && t.clientGot == s.clientGot && t.server.lastRel == s.server.lastRel
            && t.client.lastIn == s.client.lastIn && t.server.outSeq == t.server.inSeq == s.client.current
            && (s.clientGot == s.serverSent <==> t.server.unacked == [])
            && (s.clientGot != s.serverSent && s.client.lastIn > s.server.lastRel ==> MustResend(t.server))
  {
    OutwardArrives(s, moves);
    hide Bytes, Streams, Bundles, Replies, Forward;
    var p := N.PacketOf(s.client, Bytes(moves));
    var t := Outward(s, moves);
    OutwardKeeps(s, moves);
    assert t.server == Process(s.server, p.head).(outSeq := p.head.seqNo) by { ServerTakes(s, moves); }
  }

  lemma ServerTakes(s: System, moves: Moves)
    requires SystemInv(s) && ServerReady(s.server)
    ensures var (t, p) := (Outward(s, moves), N.PacketOf(s.client, Bytes(moves)));
            && t.server == Process(s.server, p.head).(outSeq := p.head.seqNo) && p.head.seqNo > s.server.inSeq
            && t.serverSent == s.serverSent && t.clientGot == s.clientGot && t.client.lastIn == s.client.lastIn
  {
    hide Bytes, Inv, Streams;
  }

  /** The reply brings the message along if the server sends one. */
  lemma HomewardBrings(s: System, data: seq<byte>)
    requires SystemInv(s) && ServerReady(s.server)
    requires s.server.outSeq == s.server.inSeq == s.client.current - 1 > 0
    ensures var t := Homeward(s, data);
            && t.client.lastIn == s.server.outSeq && s.serverSent <= t.serverSent
            && (SendsReliable(s.server) ==> t.clientGot == t.serverSent)
            && (!SendsReliable(s.server) ==> t.clientGot == s.clientGot && t.serverSent == s.serverSent
                                             && t.server.lastRel == s.server.lastRel)
  {
    ReplySent(s, data);
    var (q, m) := (PacketOf(s.server, data), Next(s, ServerTransmit(data), true));
    ReceiveAlone(m, q);
    hide Streams, Bundles, Replies, Backward;
    assert m.clientGot == s.clientGot;
    assert Live(q, m.client.lastIn);
  }

  lemma RoundBrings(s: System, moves: Moves, data: seq<byte>)
    requires SystemInv(s) && ServerReady(s.server)
    ensures var t := Round(s, moves, data);
            && SystemInv(t) && ServerReady(t.server) && s.serverSent <= t.serverSent
            && t.client.lastIn == s.client.current == t.client.current - 1
            && t.client.buffersSent <= |t.client.queue|
            && (s.clientGot == s.serverSent || s.client.lastIn > s.server.lastRel ==> t.clientGot == t.serverSent)
            && (t.clientGot == t.serverSent || t.server.lastRel == s.server.lastRel)
  {
    hide Bytes, SystemInv, Outward, Homeward, ServerReady, MustResend, MustCommit, N.Send;
    NumbersInOrder(s);
    RoundSettles(s, moves, data);
    OutwardKeeps(s, moves);
    OutwardArrives(s, moves);
    OutwardTells(s, moves);
    ClientCounts(s.client, Bytes(moves));
    HomewardBrings(Outward(s, moves), data);
    HomewardCounts(Outward(s, moves), data);
  }

  lemma ClientCounts(c: N.QwClient, moves: seq<byte>)
    ensures N.Send(c, moves).current == c.current + 1
  {
  }

  lemma HomewardCounts(s: System, data: seq<byte>)
    requires s.client.buffersSent <= |s.client.queue|
    ensures Homeward(s, data).client.current == s.client.current
  {
    hide PacketOf, Transmit, N.Accepts, N.Freed;
  }

  lemma ThreeRoundsBring(s: System, m: seq<Moves>, d: seq<seq<byte>>)
    requires SystemInv(s) && ServerReady(s.server) && |m| == |d| == 3 && s.client.buffersSent <= |s.client.queue|
    ensures var t1 := Round(s, m[0], d[0]);
            && t1.client.buffersSent <= |t1.client.queue|
            && var t2 := Round(t1, m[1], d[1]);
            && t2.client.buffersSent <= |t2.client.queue|
            && var t := Round(t2, m[2], d[2]);
            s.serverSent <= t.clientGot == t.serverSent
  {
    hide *;
    NumbersInOrder(s);
    RoundBrings(s, m[0], d[0]);
    var t1 := Round(s, m[0], d[0]);
    RoundBrings(t1, m[1], d[1]);
    var t2 := Round(t1, m[1], d[1]);
    RoundBrings(t2, m[2], d[2]);
  }

  /** From any reachable state three rounds bring the client everything the server has committed, whatever was lost
      before. */
  lemma ServerMessagesGetThrough(init: System, events: seq<Event>, m: seq<Moves>, d: seq<seq<byte>>)
    requires Initial(init) && |m| == |d| == 3
    requires ServerReady(Run(init, events, true).server)
    ensures var s := Run(init, events, true);
            var t1 := Round(s, m[0], d[0]);
            && t1.client.buffersSent <= |t1.client.queue|
            && var t2 := Round(t1, m[1], d[1]);
            && t2.client.buffersSent <= |t2.client.queue|
            && var t := Round(t2, m[2], d[2]);
            s.serverSent <= t.clientGot == t.serverSent
  {
    hide Run, Round, SystemInv, ServerReady;
    InitialInv(init);
    RunKeeps(init, events);
    ThreeRoundsBring(Run(init, events, true), m, d);
  }

  lemma NumbersInOrder(s: System)
    requires SystemInv(s)
    ensures s.server.lastRel <= s.server.outSeq <= s.server.inSeq + 1 <= s.client.current
    ensures s.client.buffersSent <= |s.client.queue|
  {
  }

  /** Whether the head of an idle queue goes out with a packet depends on the packet's moves only. */
  lemma HeadGoesExactly(s: System, m: Moves)
    requires s.client.buffersSent == 0 && s.client.queue != []
    ensures Next(s, Send(m), true).client.buffersSent > 0
            <==> N.HEADER + |Bytes(m)| + |s.client.queue[0]| < N.LIMIT
  {
    hide Bytes;
  }

  /** The two ends of the scale: a buffer goes out with every packet the client can write if and only if it has
      at most 1379 bytes, and with none if and only if it has 1431 or more. */
  lemma WhichHeadsGo(head: seq<byte>)
    ensures (forall m: Moves :: N.HEADER + |Bytes(m)| + |head| < N.LIMIT) <==> |head| <= 1379
    ensures (forall m: Moves :: N.HEADER + |Bytes(m)| + |head| >= N.LIMIT) <==> |head| >= 1431
  {
    StillIsShortest();
    BusyIsLongest();
    hide Bytes;
    var still: Moves := STILL;
    var busy: Moves := BUSY;
    assert |Bytes(still)| == 9 && |Bytes(busy)| == 60;
  }

  /** From any reachable state: a head of at most 1379 bytes is always delivered and freed within two rounds. */
  lemma SmallHeadsGetThrough(init: System, events: seq<Event>, m1: Moves, d1: seq<byte>, m2: Moves, d2: seq<byte>)
    requires Initial(init)
    requires var s := Run(init, events, true);
             ServerReady(s.server) && s.client.queue != [] && |s.client.queue[0]| <= 1379
    ensures var s := Run(init, events, true);
            var t := Round(s, m1, d1);
            t.client.buffersSent <= |t.client.queue| &&
            s.freed + [s.client.queue[0]] <= Round(t, m2, d2).freed
  {
    TwoRoundsFreeTheHead(init, events, m1, d1, m2, d2);
  }

  /** Every packet of the run is too full for a buffer of `size` bytes. */
  predicate AllTooFull(events: seq<Event>, size: nat) {
    forall i | 0 <= i < |events| :: events[i].Send? ==> N.HEADER + |Bytes(events[i].moves)| + size >= N.LIMIT
  }

  /** Over every run: as long as no packet leaves room for the head of an idle queue, nothing is sent or freed.
      The first packet that does takes it along (HeadGoesExactly). */
  lemma {:induction false} HeadBlocks(s: System, events: seq<Event>, strict: bool)
    requires s.client.buffersSent == 0 && s.client.queue != [] && AllTooFull(events, |s.client.queue[0]|)
    ensures var t := Run(s, events, strict);
            t.freed == s.freed && t.client.buffersSent == 0 && s.client.queue <= t.client.queue
    decreases |events|
  {
    hide Bytes;
    if events != [] {
      var t := Next(s, events[0], strict);
      BlockedStep(s, events[0], strict);
      assert forall i | 0 <= i < |events| - 1 :: events[1..][i] == events[i + 1];
      HeadBlocks(t, events[1..], strict);
    }
  }

  lemma BlockedStep(s: System, e: Event, strict: bool)
    requires s.client.buffersSent == 0 && s.client.queue != []
    requires e.Send? ==> N.HEADER + |Bytes(e.moves)| + |s.client.queue[0]| >= N.LIMIT
    ensures var t := Next(s, e, strict);
            t.freed == s.freed && t.client.buffersSent == 0 && s.client.queue <= t.client.queue
  {
    hide Bytes;
    assert s.freed + s.client.queue[..0] == s.freed;
    if e.Receive? {
      var s1 := AppendAll(s, e.early);
      assert s1.freed + s1.client.queue[..0] == s1.freed;
    }
  }

  /** A buffer of 1431 bytes or more at the head of an idle queue blocks it for ever. */
  lemma OversizedHeadBlocks(s: System, events: seq<Event>, strict: bool)
    requires s.client.buffersSent == 0 && s.client.queue != [] && |s.client.queue[0]| >= 1431
    ensures var t := Run(s, events, strict);
            t.freed == s.freed && t.client.buffersSent == 0 && s.client.queue <= t.client.queue
  {
    hide Bytes;
    HeadBlocks(s, events, strict);
  }

  /** The convention is needed: two unsolicited server packets make the client take a bundle that is
      still on its way for lost, and the server then gets it twice. */
  lemma WithoutConventionDuplicates(init: System)
    requires Initial(init)
    ensures exists events :: var s := Run(init, events, false);
              Flatten(s.serverGot) == [7, 7] && s.appended == [[7]] && !StreamSafe(s)
  {
    hide Run, Bytes;
    var p1 := Packet(Header(1, true, 0, false), [7], Bytes(STILL));
    var e1, s5 := ClientMisled(init, p1);
    var e2, s8 := ServerTakesBoth(s5, p1);
    RunConcat(init, e1, e2, false);
    var one: seq<Message> := [[7]];
    FlattenOne([7]);
    FlattenConcat(one, one);
    assert Flatten(s8.serverGot) == [7, 7] by { assert one + one == s8.serverGot; }
    assert s8.client.queue[..1] == one && s8.freed + one == one;
    assert Run(init, e1 + e2, false) == s8;
  }

  /** The last three: the client sends the buffer again and the server takes both packets. */
  lemma ServerTakesBoth(s5: System, p1: Packet) returns (events: seq<Event>, s8: System)
    requires p1 == Packet(Header(1, true, 0, false), [7], Bytes(STILL))
    requires s5 == System(N.QwClient(2, 1, 0, 1, false, false, [[7]]), Setup(Server).(outSeq := 2),
                          [[7]], [[7]], [], [], [], {p1}, [], [], s5.toClient)
    ensures Run(s5, events, false) == s8
    ensures s8.client == N.QwClient(3, 1, 1, 2, true, false, [[7]]) && s8.appended == [[7]] && s8.freed == []
    ensures s8.serverGot == [[7], [7]]
  {
    hide Bytes;
    var p2 := Packet(Header(2, true, 1, false), [7], Bytes(STILL));
    events := [Send(STILL), ServerProcess(p1), ServerProcess(p2)];
    var s6 := s5.(client := N.QwClient(3, 1, 1, 2, true, false, [[7]]), toServer := {p1, p2});
    var s7 := s6.(server := Process(s6.server, p1.head), serverGot := [[7]]);
    s8 := s7.(server := Process(s7.server, p2.head), serverGot := [[7], [7]]);
    SendAll(s5, s6, p2);
    assert s7 == Next(s6, events[1], false);
    assert s8 == Next(s7, events[2], false);
    RunThrough([s5, s6, s7, s8], events, false);
  }

  /** The first five steps: the bundle is on its way, and an unsolicited packet says it is missing. */
  lemma ClientMisled(init: System, p1: Packet) returns (events: seq<Event>, s5: System)
    requires Initial(init) && p1 == Packet(Header(1, true, 0, false), [7], Bytes(STILL))
    ensures Run(init, events, false) == s5
    ensures s5 == System(N.QwClient(2, 1, 0, 1, false, false, [[7]]), Setup(Server).(outSeq := 2),
                         [[7]], [[7]], [], [], [], {p1}, [], [], s5.toClient)
  {
    hide Bytes, N.Fit;
    var r0 := Packet(Header(0, false, 0, false), [], []);
    var r1 := Packet(Header(1, false, 0, false), [], []);
    events := [Append([7]), Send(STILL), ServerTransmit([]), ServerTransmit([]), Receive(r1, [], [])];
    var q := [[7]];
    var s1 := init.(client := init.client.(queue := q), appended := q, kept := q);
    var s2 := s1.(client := N.QwClient(2, 0, 1, 1, true, false, q), toServer := {p1});
    var s3 := s2.(server := s2.server.(outSeq := 1), toClient := {r0});
    var s4 := s3.(server := s2.server.(outSeq := 2), toClient := {r0, r1});
    s5 := s4.(client := N.QwClient(2, 1, 0, 1, false, false, q));
    assert s1 == Next(init, events[0], false);
    SendAll(s1, s2, p1);
    assert s3 == Next(s2, events[2], false);
    assert s4 == Next(s3, events[3], false);
    ReceiveAlone(s4, r1);
    assert s5 == Handled(s4, r1) by { assert s4.freed + s4.client.queue[..0] == s4.freed; }
    RunThrough([init, s1, s2, s3, s4, s5], events, false);
  }

  lemma {:induction false} RunConcat(s: System, a: seq<Event>, b: seq<Event>, strict: bool)
    requires s.client.buffersSent <= |s.client.queue|
    ensures Run(s, a + b, strict) == Run(Run(s, a, strict), b, strict)
    decreases |a|
  {
    if a == [] {
      assert a + b == b;
    } else {
      assert (a + b)[1..] == a[1..] + b;
      NextWellFormed(s, a[0], strict);
      hide Next;
      RunConcat(Next(s, a[0], strict), a[1..], b, strict);
    }
  }

  /** A send that bundles the whole queue of one buffer. */
  lemma SendAll(s: System, t: System, p: Packet)
    requires s.client.queue == [[7]] && s.client.buffersSent == 0
    requires p == Packet(Header(s.client.current, true, s.client.lastIn, s.client.ackXor), [7], Bytes(STILL))
    requires t == s.(client := s.client.(current := s.client.current + 1, buffersSent := 1,
                                         reliableSeq := s.client.current, sentXor := !s.client.sentXor),
                     toServer := s.toServer + {p})
    ensures t == Next(s, Send(STILL), false)
  {
    StillIsShortest();
    hide Bytes, Flatten;
    OneFits();
    assert s.client.queue[..1] == [[7]];
    FlattenOne([7]);
  }

  lemma OneFits()
    ensures N.Fit([[7]], 19) == 1
  {
  }

  /** A run given by its intermediate states. */
  lemma {:induction false} RunThrough(states: seq<System>, events: seq<Event>, strict: bool)
    requires |states| == |events| + 1
    requires forall i | 0 <= i < |states| :: states[i].client.buffersSent <= |states[i].client.queue|
    requires forall i | 0 <= i < |events| :: states[i + 1] == Next(states[i], events[i], strict)
    ensures Run(states[0], events, strict) == states[|events|]
    decreases |events|
  {
    if events != [] {
      RunThrough(states[1..], events[1..], strict);
    }
  }
}
