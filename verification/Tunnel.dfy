/**
 Two network peers that carry TCP connections over one message channel
 (tunshell-client/src/shell/network.rs), as functions on values and as a step system over every run.

 A connection number stands for one socket on each side. The last fields of a peer are history: what
 was read from and written to the sockets. Writing to a socket is taken to succeed.
 */
module Tunnel {
  import opened Wrappers
  import opened SeqNumber
  import opened ShellProto
  import M = Messages

  datatype Peer = Peer(
    first: u32,                                  // the role's first number: 1 for the client, 2 for the server
    pending: set<u32>,                           // accepted here, not yet connected there
    pendingWrites: map<u32, seq<seq<byte>>>,
    connections: set<u32>,                       // sockets that can be written to
    readers: multiset<u32>,                      // reads in progress
    nextId: nat,
    // history
    issued: nat,                                 // how many numbers were given out
    known: set<u32>,                            // numbers that ever had a socket here
    read: map<u32, seq<byte>>,
    written: map<u32, seq<byte>>)

  datatype Tunnel = Tunnel(client: Peer, server: Peer, toServer: seq<NetworkMessage>, toClient: seq<NetworkMessage>)

  datatype Action =
    | Accept(host: string, port: M.u16)       // a listener accepts a connection
    | Handle(error: Option<string>)         // a message arrives; how connecting goes, if it asks for that
    | ReadSocket(id: u32, payload: seq<byte>)
    | ReadEnd(id: u32)                      // end of file or an error
    | Other(message: NetworkMessage)        // a notice, or the UDP side, which shares the channel

  // A peer gives out at most this many numbers, so that they do not wrap.
  const MAX_IDS := 0x7FFF_FFFE

  function Log(m: map<u32, seq<byte>>, id: u32): seq<byte> { if id in m then m[id] else [] }

  function Queue(m: map<u32, seq<seq<byte>>>, id: u32): seq<seq<byte>> { if id in m then m[id] else [] }

  function Concat(ws: seq<seq<byte>>): seq<byte> {
    if ws == [] then [] else Concat(ws[..|ws| - 1]) + ws[|ws| - 1]
  }

  function NewPeer(first: u32): Peer {
    Peer(first, {}, map[], {}, multiset{}, first, 0, {}, map[], map[])
  }

  /** The next number that is not in use. */
  function FirstFree(next: nat, busy: set<u32>): nat
    decreases |busy|
  {
    if next >= TWO32 || next !in busy then next
    else
      var id: u32 := next;
      assert |busy - {id}| < |busy|;
      FirstFree(next + 2, busy - {id})
  }

  function Append(m: map<u32, seq<byte>>, id: u32, bytes: seq<byte>): map<u32, seq<byte>> {
    m[id := Log(m, id) + bytes]
  }

  function Activate(p: Peer, id: u32): Peer {
    p.(connections := p.connections + {id},
       written := Append(p.written, id, Concat(Queue(p.pendingWrites, id))),
       pendingWrites := p.pendingWrites - {id},
       readers := p.readers + multiset{id},
       known := p.known + {id})
  }

  function Issued(p: Peer, id: u32): Peer {
    p.(pending := p.pending + {id}, nextId := id + 2, issued := p.issued + 1, known := p.known + {id})
  }

  function DoAccept(p: Peer, host: string, port: M.u16): (Peer, seq<NetworkMessage>)
    requires FirstFree(p.nextId, p.pending + p.connections) < TWO32
  {
    var id: u32 := FirstFree(p.nextId, p.pending + p.connections);
    (Issued(p, id), [TcpConnect(id, host, port)])
  }

  function Deliver(p: Peer, id: u32, payload: seq<byte>, notice: string): (Peer, seq<NetworkMessage>) {
    if id in p.connections then (p.(written := Append(p.written, id, payload)), [])
    else if id in p.pending then
      (p.(pendingWrites := p.pendingWrites[id := Queue(p.pendingWrites, id) + [payload]]), [])
    else (p, [Notice(notice)])
  }

  function Dropped(p: Peer, id: u32): Peer {
    p.(pending := p.pending - {id}, pendingWrites := p.pendingWrites - {id}, connections := p.connections - {id})
  }

  /** What a message does; error is how connecting goes, and notice the text of a notice. */
  function DoHandle(p: Peer, m: NetworkMessage, error: Option<string>, notice: string): (Peer, seq<NetworkMessage>) {
    match m
    case TcpConnect(id, _, _) =>
      if error.None? then (Activate(p, id), [TcpConnectResult(id, None)]) else (p, [TcpConnectResult(id, error)])
    case TcpConnectResult(id, err) =>
      if id !in p.pending then (p, []) else
      var p' := p.(pending := p.pending - {id});
      if err.None? then (Activate(p', id), [])
      else (p'.(pendingWrites := p.pendingWrites - {id}), [Notice(notice)])
    case TcpSend(id, payload) => Deliver(p, id, payload, notice)
    case TcpRecv(id, payload) => Deliver(p, id, payload, notice)
    case TcpClose(id) =>
      (Dropped(p, id), [])
    case _ => (p, [])
  }

  function DoRead(p: Peer, id: u32, payload: seq<byte>): (Peer, seq<NetworkMessage>) {
    (p.(read := Append(p.read, id, payload)), [TcpSend(id, payload)])
  }

  function DoReadEnd(p: Peer, id: u32): (Peer, seq<NetworkMessage>) {
    (p.(readers := p.readers - multiset{id}, connections := p.connections - {id}), [TcpClose(id)])
  }

  predicate CanAct(p: Peer, inbound: seq<NetworkMessage>, act: Action) {
    match act
    case Accept(_, _) => p.issued < MAX_IDS && FirstFree(p.nextId, p.pending + p.connections) < TWO32
    case Handle(_) => inbound != []
    case ReadSocket(id, payload) => id in p.readers && payload != []
    case ReadEnd(id) => id in p.readers
    case Other(m) => m.Notice? || m.UdpSend?
  }

  function Act(p: Peer, inbound: seq<NetworkMessage>, act: Action): (Peer, seq<NetworkMessage>)
    requires CanAct(p, inbound, act)
  {
    match act
    case Accept(host, port) => DoAccept(p, host, port)
    case Handle(error) => DoHandle(p, inbound[0], error, "")
    case ReadSocket(id, payload) => DoRead(p, id, payload)
    case ReadEnd(id) => DoReadEnd(p, id)
    case Other(m) => (p, [m])
  }

  function Rest(inbound: seq<NetworkMessage>, act: Action): seq<NetworkMessage>
    requires act.Handle? ==> inbound != []
  {
    if act.Handle? then inbound[1..] else inbound
  }

  function Moved(s: Tunnel, byClient: bool, act: Action): Tunnel
    requires if byClient then CanAct(s.client, s.toClient, act) else CanAct(s.server, s.toServer, act)
  {
    if byClient then
      var (p, out) := Act(s.client, s.toClient, act);
      s.(client := p, toServer := s.toServer + out, toClient := Rest(s.toClient, act))
    else
      var (p, out) := Act(s.server, s.toServer, act);
      s.(server := p, toClient := s.toClient + out, toServer := Rest(s.toServer, act))
  }

  ghost predicate Reaches(s: Tunnel, steps: seq<(bool, Action)>, s': Tunnel)
    decreases steps
  {
    if steps == [] then s' == s else
    var (byClient, act) := steps[0];
    && (if byClient then CanAct(s.client, s.toClient, act) else CanAct(s.server, s.toServer, act))
    && Reaches(Moved(s, byClient, act), steps[1..], s')
  }

  const START := Tunnel(NewPeer(1), NewPeer(2), [], [])

  ghost predicate Reachable(s: Tunnel) {
    exists steps :: Reaches(START, steps, s)
  }

  // Messages on their way

  predicate Carries(m: NetworkMessage) { m.TcpSend? || m.TcpRecv? }

  function FlightOf(m: NetworkMessage, id: u32): seq<byte> {
    if Carries(m) && m.id == id then m.data else []
  }

  /** The payload bytes of a connection that are on their way. */
  function Flight(ms: seq<NetworkMessage>, id: u32): seq<byte> {
    if ms == [] then [] else FlightOf(ms[0], id) + Flight(ms[1..], id)
  }

  predicate Asks(m: NetworkMessage, id: u32) { m.TcpConnect? && m.id == id }

  /** How many messages on their way ask to open the connection. */
  function Requests(ms: seq<NetworkMessage>, id: u32): nat {
    if ms == [] then 0 else (if Asks(ms[0], id) then 1 else 0) + Requests(ms[1..], id)
  }

  lemma {:induction false} FlightSplits(a: seq<NetworkMessage>, b: seq<NetworkMessage>, id: u32)
    ensures Flight(a + b, id) == Flight(a, id) + Flight(b, id)
    decreases a
  {
    if a == [] {
      assert a + b == b;
    } else {
      hide FlightOf;
      assert (a + b)[1..] == a[1..] + b;
      FlightSplits(a[1..], b, id);
      AppendAssociates(FlightOf(a[0], id), Flight(a[1..], id), Flight(b, id));
    }
  }

  lemma {:induction false} RequestsSplit(a: seq<NetworkMessage>, b: seq<NetworkMessage>, id: u32)
    ensures Requests(a + b, id) == Requests(a, id) + Requests(b, id)
    decreases a
  {
    if a == [] {
      assert a + b == b;
    } else {
      hide Asks;
      assert (a + b)[1..] == a[1..] + b;
      RequestsSplit(a[1..], b, id);
    }
  }

  /** One message more on its way. */
  lemma SentOne(ms: seq<NetworkMessage>, m: NetworkMessage, id: u32)
    ensures Flight(ms + [m], id) == Flight(ms, id) + FlightOf(m, id)
    ensures Requests(ms + [m], id) == Requests(ms, id) + if Asks(m, id) then 1 else 0
  {
    FlightSplits(ms, [m], id);
    RequestsSplit(ms, [m], id);
    assert Flight([m], id) == FlightOf(m, id) + Flight([], id);
    assert Requests([m], id) == (if Asks(m, id) then 1 else 0) + Requests([], id);
  }

  // The invariant, of peer p with its peer q; qp is on its way to p, pq to q

  predicate Live(p: Peer, id: u32) { id in p.pending || id in p.connections }

  /** Numbers: given out in steps of two, so those of the two peers never meet. */
  ghost predicate IdsOk(p: Peer, q: Peer) {
    && (p.first == 1 || p.first == 2) && p.first + q.first == 3
    && p.issued <= MAX_IDS && p.nextId == p.first + 2 * p.issued
    && forall id :: id in p.known ==> if id % 2 == p.first % 2 then id < p.nextId else id < q.nextId
  }

  ghost predicate PlacesOk(p: Peer) {
    && p.pending <= p.known && p.connections <= p.known && p.pending !! p.connections
    && p.pendingWrites.Keys <= p.pending
    && (forall id :: id in p.pending ==> id % 2 == p.first % 2)
    && forall id :: id in p.readers ==> p.readers[id] == 1 && id in p.known && id !in p.pending
  }

  /** Who reads, and who may yet be told that the connection is up, has a counterpart. */
  ghost predicate CounterpartOk(p: Peer, q: Peer, qp: seq<NetworkMessage>, pq: seq<NetworkMessage>) {
    && (forall id :: id in p.readers ==> id in q.known)
    && (forall m :: m in qp && m.TcpConnectResult? && m.error.None? ==> m.id in q.known)
    && (forall id: u32 :: Requests(pq, id) <= 1)
    && (forall id: u32 :: Requests(pq, id) > 0 ==> id in p.known && id !in q.known && id % 2 == p.first % 2)
  }

  /** Bytes read at q and written at p. */
  ghost predicate ConnectionOk(p: Peer, q: Peer, qp: seq<NetworkMessage>, id: u32) {
    && Log(p.written, id) <= Log(q.read, id)
    && (Live(p, id) ==>
          Log(p.written, id) + Concat(Queue(p.pendingWrites, id)) + Flight(qp, id) == Log(q.read, id))
    && (id !in p.known ==> Log(q.read, id) == [] && Flight(qp, id) == [])
  }

  ghost predicate BytesOk(p: Peer, q: Peer, qp: seq<NetworkMessage>) {
    forall id: u32 :: ConnectionOk(p, q, qp, id)
  }

  ghost predicate SideInv(p: Peer, q: Peer, qp: seq<NetworkMessage>, pq: seq<NetworkMessage>) {
    IdsOk(p, q) && PlacesOk(p) && CounterpartOk(p, q, qp, pq) && BytesOk(p, q, qp)
  }

  ghost predicate PairInv(p: Peer, q: Peer, qp: seq<NetworkMessage>, pq: seq<NetworkMessage>) {
    SideInv(p, q, qp, pq) && SideInv(q, p, pq, qp)
  }

  // What each action keeps

  /** The number given out next was never used on either side. */
  lemma NextIsFresh(p: Peer, q: Peer)
    requires IdsOk(p, q) && IdsOk(q, p) && PlacesOk(p) && p.issued < MAX_IDS
    ensures p.nextId < TWO32 && p.nextId !in p.known && p.nextId !in q.known && p.nextId % 2 == p.first % 2
    ensures FirstFree(p.nextId, p.pending + p.connections) == p.nextId
  {
  }

  /** Peer p has sent out, with no payload in it. */
  lemma QuietBytes(p: Peer, p': Peer, q: Peer, pq: seq<NetworkMessage>, m: NetworkMessage)
    requires BytesOk(q, p, pq) && p'.read == p.read && !Carries(m)
    ensures BytesOk(q, p', pq + [m])
  {
    forall id: u32 ensures ConnectionOk(q, p', pq + [m], id) {
      assert ConnectionOk(q, p, pq, id);
      SentOne(pq, m, id);
      hide Flight, Concat, Queue, Log;
      assert Flight(pq, id) + [] == Flight(pq, id);
    }
  }

  lemma SameReads(p: Peer, p': Peer, q: Peer, pq: seq<NetworkMessage>)
    requires BytesOk(q, p, pq) && p'.read == p.read
    ensures BytesOk(q, p', pq)
  {
    hide Flight, Concat, Queue, Log;
    forall id: u32 ensures ConnectionOk(q, p', pq, id) {
      assert ConnectionOk(q, p, pq, id);
    }
  }

  lemma AcceptBytes(p: Peer, q: Peer, qp: seq<NetworkMessage>, id0: u32)
    requires BytesOk(p, q, qp) && PlacesOk(p) && id0 !in p.known
    ensures BytesOk(Issued(p, id0), q, qp)
  {
    forall id: u32 ensures ConnectionOk(Issued(p, id0), q, qp, id) {
      assert ConnectionOk(p, q, qp, id);
      NoQueue(p, id0);
      hide Flight, Concat;
    }
  }

  lemma AcceptOk(p: Peer, q: Peer, qp: seq<NetworkMessage>, pq: seq<NetworkMessage>, host: string, port: M.u16)
    requires PairInv(p, q, qp, pq) && CanAct(p, qp, Accept(host, port))
    ensures var (p', out) := DoAccept(p, host, port); PairInv(p', q, qp, pq + out)
  {
    NextIsFresh(p, q);
    var id0: u32 := p.nextId;
    var (p', out) := DoAccept(p, host, port);
    var m := TcpConnect(id0, host, port);
    QuietBytes(p, p', q, pq, m);
    AcceptBytes(p, q, qp, id0);
    forall id: u32 ensures Requests(pq + [m], id) == Requests(pq, id) + if id == id0 then 1 else 0 {
      SentOne(pq, m, id);
    }
    hide BytesOk, Requests, FirstFree;
    assert out == [m];
  }

  lemma FrontTaken(ms: seq<NetworkMessage>, id: u32)
    requires ms != []
    ensures Flight(ms, id) == FlightOf(ms[0], id) + Flight(ms[1..], id)
    ensures Requests(ms, id) == (if Asks(ms[0], id) then 1 else 0) + Requests(ms[1..], id)
    ensures !Carries(ms[0]) ==> Flight(ms, id) == Flight(ms[1..], id)
  {
    assert [] + Flight(ms[1..], id) == Flight(ms[1..], id);
  }

  lemma NoQueue(p: Peer, id: u32)
    requires PlacesOk(p) && id !in p.pending
    ensures Concat(Queue(p.pendingWrites, id)) == []
  {
  }

  /** The peer is asked to connect: its counterpart has accepted, and it has not connected before. */
  lemma ConnectedBytes(p: Peer, q: Peer, qp: seq<NetworkMessage>, id0: u32)
    requires BytesOk(p, q, qp) && PlacesOk(p) && qp != [] && Asks(qp[0], id0) && id0 !in p.known
    ensures BytesOk(Activate(p, id0), q, qp[1..])
  {
    NoQueue(p, id0);
    forall id: u32 ensures ConnectionOk(Activate(p, id0), q, qp[1..], id) {
      assert ConnectionOk(p, q, qp, id);
      FrontTaken(qp, id);
      hide Flight, Concat;
      NoQueue(p.(pendingWrites := p.pendingWrites - {id0}), id0);
    }
  }

  /** How answering changes the requests on their way. */
  lemma Counts(qp: seq<NetworkMessage>, pq: seq<NetworkMessage>, m: NetworkMessage)
    requires qp != [] && !m.TcpConnect?
    ensures forall id: u32 :: Requests(pq + [m], id) == Requests(pq, id)
    ensures forall id: u32 :: Requests(qp[1..], id) == Requests(qp, id) - if Asks(qp[0], id) then 1 else 0
  {
    forall id: u32
      ensures Requests(pq + [m], id) == Requests(pq, id)
      ensures Requests(qp[1..], id) == Requests(qp, id) - if Asks(qp[0], id) then 1 else 0
    {
      SentOne(pq, m, id);
      FrontTaken(qp, id);
    }
  }

  lemma ConnectHere(p: Peer, q: Peer, qp: seq<NetworkMessage>, pq: seq<NetworkMessage>, id0: u32)
    requires PairInv(p, q, qp, pq) && qp != [] && Asks(qp[0], id0)
    ensures SideInv(Activate(p, id0), q, qp[1..], pq + [TcpConnectResult(id0, None)])
  {
    FrontTaken(qp, id0);
    ConnectedBytes(p, q, qp, id0);
    Counts(qp, pq, TcpConnectResult(id0, None));
    hide BytesOk, Requests, Append, Queue, Concat;
  }

  lemma ConnectThere(p: Peer, q: Peer, qp: seq<NetworkMessage>, pq: seq<NetworkMessage>, id0: u32)
    requires PairInv(p, q, qp, pq) && qp != [] && Asks(qp[0], id0)
    ensures SideInv(q, Activate(p, id0), pq + [TcpConnectResult(id0, None)], qp[1..])
  {
    var m := TcpConnectResult(id0, None);
    QuietBytes(p, Activate(p, id0), q, pq, m);
    hide BytesOk, PlacesOk, Append, Queue, Concat, Requests;
    Counts(qp, pq, m);
  }

  lemma ConnectOk(p: Peer, q: Peer, qp: seq<NetworkMessage>, pq: seq<NetworkMessage>, id0: u32)
    requires PairInv(p, q, qp, pq) && qp != [] && Asks(qp[0], id0)
    ensures PairInv(Activate(p, id0), q, qp[1..], pq + [TcpConnectResult(id0, None)])
  {
    ConnectHere(p, q, qp, pq, id0);
    ConnectThere(p, q, qp, pq, id0);
    hide SideInv;
  }

  /** Connecting failed, or the message concerns nothing here. */
  lemma RefuseOk(p: Peer, q: Peer, qp: seq<NetworkMessage>, pq: seq<NetworkMessage>, m: NetworkMessage)
    requires PairInv(p, q, qp, pq) && qp != [] && !Carries(qp[0])
    requires !Carries(m) && !m.TcpConnect? && (m.TcpConnectResult? ==> m.error.Some?)
    ensures PairInv(p, q, qp[1..], pq + [m]) && PairInv(p, q, qp[1..], pq)
  {
    QuietBytes(p, p, q, pq, m);
    TakenBytes(p, q, qp);
    Counts(qp, pq, m);
    hide BytesOk, Requests, IdsOk, PlacesOk;
  }

  /** A message without payload arrives and changes nothing. */
  lemma TakenBytes(p: Peer, q: Peer, qp: seq<NetworkMessage>)
    requires BytesOk(p, q, qp) && qp != [] && !Carries(qp[0])
    ensures BytesOk(p, q, qp[1..])
  {
    forall id: u32 ensures ConnectionOk(p, q, qp[1..], id) {
      assert ConnectionOk(p, q, qp, id);
      FrontTaken(qp, id);
      hide Flight, Concat;
    }
  }

  lemma AnsweredConnection(p: Peer, q: Peer, qp: seq<NetworkMessage>, id0: u32, id: u32)
    requires ConnectionOk(p, q, qp, id) && PlacesOk(p) && qp != [] && !Carries(qp[0]) && id0 in p.pending
    ensures ConnectionOk(Activate(p.(pending := p.pending - {id0}), id0), q, qp[1..], id)
  {
    var p' := Activate(p.(pending := p.pending - {id0}), id0);
    FrontTaken(qp, id);
    assert id == id0 ==> Concat(Queue(p'.pendingWrites, id)) == [];
    hide Flight, Concat;
    assert Log(p'.written, id) + [] == Log(p'.written, id);
  }

  /** The counterpart has connected: what was queued is written, and reading starts. */
  lemma AnsweredBytes(p: Peer, q: Peer, qp: seq<NetworkMessage>, id0: u32)
    requires BytesOk(p, q, qp) && PlacesOk(p) && qp != [] && !Carries(qp[0]) && id0 in p.pending
    ensures BytesOk(Activate(p.(pending := p.pending - {id0}), id0), q, qp[1..])
  {
    forall id: u32 ensures ConnectionOk(Activate(p.(pending := p.pending - {id0}), id0), q, qp[1..], id) {
      hide ConnectionOk, PlacesOk, Activate;
      AnsweredConnection(p, q, qp, id0, id);
    }
  }

  lemma AnsweredOk(p: Peer, q: Peer, qp: seq<NetworkMessage>, pq: seq<NetworkMessage>, id0: u32)
    requires PairInv(p, q, qp, pq) && qp != [] && qp[0] == TcpConnectResult(id0, None) && id0 in p.pending
    ensures PairInv(Activate(p.(pending := p.pending - {id0}), id0), q, qp[1..], pq)
  {
    AnsweredBytes(p, q, qp, id0);
    SameReads(p, Activate(p.(pending := p.pending - {id0}), id0), q, pq);
    Counts(qp, pq, Notice(""));
    assert qp[0] in qp;
    hide Requests, BytesOk, Queue, Concat, Append;
  }

  /** The connection is given up here, pending or not. */
  lemma DroppedBytes(p: Peer, p': Peer, q: Peer, qp: seq<NetworkMessage>, id0: u32)
    requires BytesOk(p, q, qp) && p'.written == p.written && p'.known == p.known
    requires p'.pending <= p.pending && p'.connections <= p.connections && !Live(p', id0)
    requires forall id :: id != id0 ==>
               Live(p', id) == Live(p, id) && Queue(p'.pendingWrites, id) == Queue(p.pendingWrites, id)
    ensures BytesOk(p', q, qp)
  {
    forall id: u32 ensures ConnectionOk(p', q, qp, id) {
      assert ConnectionOk(p, q, qp, id);
      hide Flight, Concat, Queue;
    }
  }

  lemma DroppedOk(p: Peer, q: Peer, qp: seq<NetworkMessage>, pq: seq<NetworkMessage>, id0: u32)
    requires PairInv(p, q, qp, pq)
    ensures PairInv(Dropped(p, id0), q, qp, pq)
  {
    var p' := Dropped(p, id0);
    DroppedBytes(p, p', q, qp, id0);
    SameReads(p, p', q, pq);
    hide Requests, BytesOk;
  }

  lemma ConcatGrows(ws: seq<seq<byte>>, w: seq<byte>)
    ensures Concat(ws + [w]) == Concat(ws) + w
  {
    assert (ws + [w])[..|ws|] == ws;
  }

  /** Bytes arrive: they are written, or queued while the connection is pending, or dropped. */
  lemma DeliveredBytes(p: Peer, q: Peer, qp: seq<NetworkMessage>, id0: u32, payload: seq<byte>)
    requires BytesOk(p, q, qp) && PlacesOk(p) && qp != [] && Carries(qp[0]) && qp[0].id == id0 && qp[0].data == payload
    ensures BytesOk(Deliver(p, id0, payload, "").0, q, qp[1..])
  {
    var p' := Deliver(p, id0, payload, "").0;
    forall id: u32 ensures ConnectionOk(p', q, qp[1..], id) {
      assert ConnectionOk(p, q, qp, id);
      FrontTaken(qp, id);
      if id == id0 {
        ArrivedBytes(p, q, qp, id0, payload);
      } else {
        hide Flight, Concat;
        assert [] + Flight(qp[1..], id) == Flight(qp[1..], id);
      }
    }
  }

  lemma ArrivedBytes(p: Peer, q: Peer, qp: seq<NetworkMessage>, id: u32, payload: seq<byte>)
    requires ConnectionOk(p, q, qp, id) && PlacesOk(p) && qp != [] && Flight(qp, id) == payload + Flight(qp[1..], id)
    ensures ConnectionOk(Deliver(p, id, payload, "").0, q, qp[1..], id)
  {
    var written, queue, rest := Log(p.written, id), Queue(p.pendingWrites, id), Flight(qp[1..], id);
    ConcatGrows(queue, payload);
    if id !in p.pending {
      NoQueue(p, id);
    }
    hide Flight, Concat;
    AppendAssociates(written, payload, rest);
    AppendAssociates(written + Concat(queue), payload, rest);
    AppendAssociates(written, Concat(queue), payload);
    assert written + [] == written && written + payload + [] == written + payload;
  }

  /** Delivering touches only what is written and queued, and sends a notice at most. */
  lemma DeliverKeeps(p: Peer, id: u32, payload: seq<byte>)
    ensures var (p', out) := Deliver(p, id, payload, "");
            && p' == p.(written := p'.written, pendingWrites := p'.pendingWrites)
            && p'.pendingWrites.Keys <= p.pendingWrites.Keys + p.pending
            && (out == [] || out == [Notice("")])
  {
    hide Append, Queue;
  }

  lemma DeliverSide(p: Peer, q: Peer, qp: seq<NetworkMessage>, pq: seq<NetworkMessage>, out: seq<NetworkMessage>)
    requires CounterpartOk(p, q, qp, pq) && CounterpartOk(q, p, pq, qp) && qp != [] && Carries(qp[0])
    requires out == [] || out == [Notice("")]
    ensures CounterpartOk(p, q, qp[1..], pq + out) && CounterpartOk(q, p, pq + out, qp[1..])
  {
    Counts(qp, pq, Notice(""));
    hide Requests;
    assert pq + [] == pq;
  }

  lemma DeliverOk(p: Peer, q: Peer, qp: seq<NetworkMessage>, pq: seq<NetworkMessage>, id0: u32, payload: seq<byte>)
    requires PairInv(p, q, qp, pq) && qp != [] && Carries(qp[0]) && qp[0].id == id0 && qp[0].data == payload
    ensures var (p', out) := Deliver(p, id0, payload, ""); PairInv(p', q, qp[1..], pq + out)
  {
    var (p', out) := Deliver(p, id0, payload, "");
    hide BytesOk, Queue, Append, CounterpartOk, Deliver;
    DeliverKeeps(p, id0, payload);
    DeliveredBytes(p, q, qp, id0, payload);
    QuietBytes(p, p', q, pq, Notice(""));
    SameReads(p, p', q, pq);
    DeliverSide(p, q, qp, pq, out);
    assert pq + [] == pq;
    CounterpartKept(p, p', q, qp[1..], pq + out);
  }

  lemma CounterpartKept(p: Peer, p': Peer, q: Peer, qp: seq<NetworkMessage>, pq: seq<NetworkMessage>)
    requires CounterpartOk(p, q, qp, pq) && CounterpartOk(q, p, pq, qp)
    requires p'.readers == p.readers && p'.known == p.known && p'.first == p.first
    ensures CounterpartOk(p', q, qp, pq) && CounterpartOk(q, p', pq, qp)
  {
    hide Requests;
  }

  lemma ReadConnection(p: Peer, q: Peer, pq: seq<NetworkMessage>, id: u32, id0: u32, payload: seq<byte>)
    requires ConnectionOk(q, p, pq, id) && id0 in q.known
    ensures ConnectionOk(q, DoRead(p, id0, payload).0, pq + [TcpSend(id0, payload)], id)
  {
    SentOne(pq, TcpSend(id0, payload), id);
    hide Flight, Concat, Queue;
    var held := Log(q.written, id) + Concat(Queue(q.pendingWrites, id));
    AppendAssociates(held, Flight(pq, id), payload);
    assert Flight(pq, id) + [] == Flight(pq, id);
  }

  lemma ReadBytes(p: Peer, q: Peer, pq: seq<NetworkMessage>, id0: u32, payload: seq<byte>)
    requires BytesOk(q, p, pq) && id0 in q.known
    ensures BytesOk(q, DoRead(p, id0, payload).0, pq + [TcpSend(id0, payload)])
  {
    forall id: u32 ensures ConnectionOk(q, DoRead(p, id0, payload).0, pq + [TcpSend(id0, payload)], id) {
      hide ConnectionOk;
      ReadConnection(p, q, pq, id, id0, payload);
    }
  }

  lemma ReadOk(p: Peer, q: Peer, qp: seq<NetworkMessage>, pq: seq<NetworkMessage>, id0: u32, payload: seq<byte>)
    requires PairInv(p, q, qp, pq) && id0 in p.readers
    ensures var (p', out) := DoRead(p, id0, payload); PairInv(p', q, qp, pq + out)
  {
    var (p', out) := DoRead(p, id0, payload);
    var m := TcpSend(id0, payload);
    ReadBytes(p, q, pq, id0, payload);
    forall id: u32
      ensures ConnectionOk(p', q, qp, id)
      ensures Requests(pq + [m], id) == Requests(pq, id)
    {
      assert ConnectionOk(p, q, qp, id);
      SentOne(pq, m, id);
    }
    hide ConnectionOk, Requests, Append;
    assert out == [m];
  }

  lemma ReadEndOk(p: Peer, q: Peer, qp: seq<NetworkMessage>, pq: seq<NetworkMessage>, id0: u32)
    requires PairInv(p, q, qp, pq)
    ensures var (p', out) := DoReadEnd(p, id0); PairInv(p', q, qp, pq + out)
  {
    var (p', out) := DoReadEnd(p, id0);
    var m := TcpClose(id0);
    QuietBytes(p, p', q, pq, m);
    forall id: u32
      ensures ConnectionOk(p', q, qp, id)
      ensures Requests(pq + [m], id) == Requests(pq, id)
    {
      assert ConnectionOk(p, q, qp, id);
      SentOne(pq, m, id);
    }
    hide ConnectionOk, Requests;
    assert out == [m];
  }

  lemma OtherOk(p: Peer, q: Peer, qp: seq<NetworkMessage>, pq: seq<NetworkMessage>, m: NetworkMessage)
    requires PairInv(p, q, qp, pq) && (m.Notice? || m.UdpSend?)
    ensures PairInv(p, q, qp, pq + [m])
  {
    QuietBytes(p, p, q, pq, m);
    forall id: u32 ensures Requests(pq + [m], id) == Requests(pq, id) {
      SentOne(pq, m, id);
    }
    hide BytesOk, Requests, IdsOk, PlacesOk;
  }

  lemma HandleResult(p: Peer, q: Peer, qp: seq<NetworkMessage>, pq: seq<NetworkMessage>)
    requires PairInv(p, q, qp, pq) && qp != [] && qp[0].TcpConnectResult?
    ensures var (p', out) := DoHandle(p, qp[0], None, ""); PairInv(p', q, qp[1..], pq + out)
  {
    var id0 := qp[0].id;
    RefuseOk(p, q, qp, pq, Notice(""));
    if id0 in p.pending && qp[0].error.None? {
      AnsweredOk(p, q, qp, pq, id0);
    } else if id0 in p.pending {
      assert p.connections - {id0} == p.connections;
      hide PairInv;
      DroppedOk(p, q, qp[1..], pq + [Notice("")], id0);
    }
    assert pq + [] == pq;
  }

  lemma HandleOk(p: Peer, q: Peer, qp: seq<NetworkMessage>, pq: seq<NetworkMessage>, error: Option<string>)
    requires PairInv(p, q, qp, pq) && qp != []
    ensures var (p', out) := DoHandle(p, qp[0], error, ""); PairInv(p', q, qp[1..], pq + out)
  {
    hide PairInv, Activate, Deliver;
    assert pq + [] == pq;
    match qp[0]
    case TcpConnect(id, _, _) =>
      if error.None? { ConnectOk(p, q, qp, pq, id); } else { RefuseOk(p, q, qp, pq, TcpConnectResult(id, error)); }
    case TcpConnectResult(_, _) => HandleResult(p, q, qp, pq);
    case TcpSend(id, payload) => DeliverOk(p, q, qp, pq, id, payload);
    case TcpRecv(id, payload) => DeliverOk(p, q, qp, pq, id, payload);
    case TcpClose(id) =>
      RefuseOk(p, q, qp, pq, Notice(""));
      DroppedOk(p, q, qp[1..], pq, id);
    case _ => RefuseOk(p, q, qp, pq, Notice(""));
  }

  lemma ActOk(p: Peer, q: Peer, qp: seq<NetworkMessage>, pq: seq<NetworkMessage>, act: Action)
    requires PairInv(p, q, qp, pq) && CanAct(p, qp, act)
    ensures var (p', out) := Act(p, qp, act); PairInv(p', q, Rest(qp, act), pq + out)
  {
    hide PairInv, DoHandle, DoAccept, DoRead, DoReadEnd, FirstFree;
    match act
    case Accept(host, port) => AcceptOk(p, q, qp, pq, host, port);
    case Handle(error) => HandleOk(p, q, qp, pq, error);
    case ReadSocket(id, payload) => ReadOk(p, q, qp, pq, id, payload);
    case ReadEnd(id) => ReadEndOk(p, q, qp, pq, id);
    case Other(m) => OtherOk(p, q, qp, pq, m);
  }

  ghost predicate Inv(s: Tunnel) {
    s.client.first == 1 && PairInv(s.client, s.server, s.toClient, s.toServer)
  }

  lemma FirstKept(p: Peer, inbound: seq<NetworkMessage>, act: Action)
    requires CanAct(p, inbound, act)
    ensures Act(p, inbound, act).0.first == p.first
  {
  }

  lemma MoveOk(s: Tunnel, byClient: bool, act: Action)
    requires Inv(s) && if byClient then CanAct(s.client, s.toClient, act) else CanAct(s.server, s.toServer, act)
    ensures Inv(Moved(s, byClient, act))
  {
    if byClient {
      FirstKept(s.client, s.toClient, act);
      hide SideInv, Act, CanAct;
      ActOk(s.client, s.server, s.toClient, s.toServer, act);
    } else {
      hide SideInv, Act, CanAct;
      ActOk(s.server, s.client, s.toServer, s.toClient, act);
    }
  }

  lemma {:induction false} ReachesOk(s: Tunnel, steps: seq<(bool, Action)>, s': Tunnel)
    requires Inv(s) && Reaches(s, steps, s')
    ensures Inv(s')
    decreases steps
  {
    hide Inv, Moved, CanAct;
    if steps != [] {
      MoveOk(s, steps[0].0, steps[0].1);
      ReachesOk(Moved(s, steps[0].0, steps[0].1), steps[1..], s');
    }
  }

  lemma ReachableOk(s: Tunnel)
    requires Reachable(s)
    ensures Inv(s)
  {
    hide Reaches, Inv;
    var steps :| Reaches(START, steps, s);
    StartOk();
    ReachesOk(START, steps, s);
  }

  lemma StartBytes(p: Peer, q: Peer)
    requires p.written == map[] && q.read == map[] && p.pendingWrites == map[]
    ensures BytesOk(p, q, [])
  {
    assert Concat([]) == [];
    forall id: u32 ensures ConnectionOk(p, q, [], id) {
      assert Log(p.written, id) == [] && Log(q.read, id) == [] && Queue(p.pendingWrites, id) == [];
      assert Flight([], id) == [];
      hide Concat, Log, Queue, Flight;
    }
  }

  lemma StartSide(a: u32, b: u32)
    requires (a == 1 && b == 2) || (a == 2 && b == 1)
    ensures SideInv(NewPeer(a), NewPeer(b), [], [])
  {
    StartBytes(NewPeer(a), NewPeer(b));
    StartIds(a, b);
    StartPlaces(a);
    StartCounterpart(a, b);
    hide BytesOk, IdsOk, PlacesOk, CounterpartOk;
  }

  lemma StartIds(a: u32, b: u32)
    requires (a == 1 && b == 2) || (a == 2 && b == 1)
    ensures IdsOk(NewPeer(a), NewPeer(b))
  {
  }

  lemma StartPlaces(a: u32)
    ensures PlacesOk(NewPeer(a))
  {
  }

  lemma StartCounterpart(a: u32, b: u32)
    ensures CounterpartOk(NewPeer(a), NewPeer(b), [], [])
  {
  }

  lemma StartOk()
    ensures Inv(START)
  {
    StartSide(1, 2);
    StartSide(2, 1);
    hide SideInv;
  }

  // The theorems

  /** What was written to a connection's socket on one side is, in order, a prefix of what was read from
      its socket on the other. While the connection is open there, what is queued and what is on its way
      make up the rest. */
  lemma TunnelIsFifo(s: Tunnel, id: u32)
    requires Reachable(s)
    ensures Log(s.server.written, id) <= Log(s.client.read, id)
    ensures Log(s.client.written, id) <= Log(s.server.read, id)
    ensures Live(s.server, id) ==>
              Log(s.server.written, id) + Concat(Queue(s.server.pendingWrites, id)) + Flight(s.toServer, id)
              == Log(s.client.read, id)
    ensures Live(s.client, id) ==>
              Log(s.client.written, id) + Concat(Queue(s.client.pendingWrites, id)) + Flight(s.toClient, id)
              == Log(s.server.read, id)
  {
    ReachableOk(s);
    assert ConnectionOk(s.server, s.client, s.toServer, id) && ConnectionOk(s.client, s.server, s.toClient, id);
  }

  /** The client gives out odd numbers and the server even ones, and no number twice. */
  lemma NumbersAreFresh(s: Tunnel)
    requires Reachable(s)
    ensures s.client.issued < MAX_IDS ==>
              var id := FirstFree(s.client.nextId, s.client.pending + s.client.connections);
              id < TWO32 && id % 2 == 1 && id !in s.client.known && id !in s.server.known
    ensures s.server.issued < MAX_IDS ==>
              var id := FirstFree(s.server.nextId, s.server.pending + s.server.connections);
              id < TWO32 && id % 2 == 0 && id !in s.client.known && id !in s.server.known
  {
    ReachableOk(s);
    if s.client.issued < MAX_IDS {
      NextIsFresh(s.client, s.server);
    }
    if s.server.issued < MAX_IDS {
      NextIsFresh(s.server, s.client);
    }
  }

  /** A number has at most one socket on each side: a connection is opened only under a number that had
      none, and is read by one reader. */
  lemma OneSocket(s: Tunnel, id: u32)
    requires Reachable(s)
    ensures s.client.readers[id] <= 1 && s.server.readers[id] <= 1
    ensures s.toServer != [] && Asks(s.toServer[0], id) ==> id !in s.server.known && id in s.client.known
    ensures s.toClient != [] && Asks(s.toClient[0], id) ==> id !in s.client.known && id in s.server.known
  {
    ReachableOk(s);
    if s.toServer != [] { FrontTaken(s.toServer, id); }
    if s.toClient != [] { FrontTaken(s.toClient, id); }
  }
}
