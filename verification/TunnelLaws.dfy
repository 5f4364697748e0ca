/**
 How connections of `Tunnel` open and close (tunshell-client/src/shell/network.rs): what each message
 does to each number, and over every run that a closed connection stays closed and that a close
 reaches the other side.
 */
module TunnelLaws {
  import opened Wrappers
  import opened SeqNumber
  import opened ShellProto
  import opened Tunnel

  /** Nothing is different for the number, whatever happened to others. */
  ghost predicate Same(p: Peer, p': Peer, id: u32) {
    && (id in p'.pending <==> id in p.pending) && (id in p'.connections <==> id in p.connections)
    && p'.readers[id] == p.readers[id] && (id in p'.known <==> id in p.known)
    && (id in p'.pendingWrites <==> id in p.pendingWrites) && Queue(p'.pendingWrites, id) == Queue(p.pendingWrites, id)
    && Log(p'.written, id) == Log(p.written, id) && Log(p'.read, id) == Log(p.read, id)
  }

  /** The socket is written to and read, with nothing left in its queue. */
  ghost predicate Open(p: Peer, p': Peer, id: u32) {
    && id in p'.connections && id !in p'.pendingWrites && id in p'.known
    && p'.readers[id] == p.readers[id] + 1
    && Log(p'.written, id) == Log(p.written, id) + Concat(Queue(p.pendingWrites, id))
  }

  lemma ActivateExact(p: Peer, id: u32)
    ensures Open(p, Activate(p, id), id) && Activate(p, id).pending == p.pending
    ensures forall other: u32 :: other != id ==> Same(p, Activate(p, id), other)
  {
    hide Concat;
  }

  lemma SameSelf(p: Peer)
    ensures forall id: u32 :: Same(p, p, id)
  {
  }

  /** Asking to connect opens the connection, or only answers with the error. */
  lemma ConnectExact(p: Peer, id: u32, host: string, port: M.u16, error: Option<string>)
    ensures var (p', out) := DoHandle(p, TcpConnect(id, host, port), error, "");
            && out == [TcpConnectResult(id, error)] && (if error.None? then Open(p, p', id) else p' == p)
            && forall other: u32 :: other != id ==> Same(p, p', other)
  {
    ActivateExact(p, id);
    SameSelf(p);
    hide Activate, Open, Same;
  }

  /** The answer opens a pending connection, or gives it up with a notice; for any other it means nothing. */
  lemma ResultExact(p: Peer, id: u32, err: Option<string>, error: Option<string>, notice: string)
    ensures var (p', out) := DoHandle(p, TcpConnectResult(id, err), error, notice);
            && id !in p'.pending && out == (if id in p.pending && err.Some? then [Notice(notice)] else [])
            && (id in p.pending && err.None? ==> Open(p, p', id))
            && (id in p.pending && err.Some? ==> id !in p'.pendingWrites && p'.written == p.written)
            && (!(id in p.pending && err.None?) ==>
                  p'.connections == p.connections && p'.readers == p.readers && p'.known == p.known)
            && (id !in p.pending ==> p' == p)
            && forall other: u32 :: other != id ==> Same(p, p', other)
  {
    var p0 := p.(pending := p.pending - {id});
    ActivateExact(p0, id);
    hide Activate, Concat;
    forall other: u32 | other != id
      ensures Same(p, p0, other) && Same(p, p0.(pendingWrites := p0.pendingWrites - {id}), other)
      ensures id in p.pending && err.None? ==> Same(p, Activate(p0, id), other)
    {
      assert Same(p0, Activate(p0, id), other);
    }
  }

  /** The next free number of the peer's own kind: all of that kind before it are in use. */
  lemma {:induction false} FirstFreeExact(next: nat, busy: set<u32>)
    ensures var n := FirstFree(next, busy);
            && next <= n && (n - next) % 2 == 0 && (n < TWO32 ==> n !in busy)
            && forall k: u32 :: next <= k < n && (k - next) % 2 == 0 ==> k in busy
    decreases |busy|
  {
    if next < TWO32 && next in busy {
      var id: u32 := next;
      assert |busy - {id}| < |busy|;
      FirstFreeExact(next + 2, busy - {id});
      forall k: u32 | next <= k < FirstFree(next, busy) && (k - next) % 2 == 0 ensures k in busy {
        if k != next {
          assert (k - (next + 2)) % 2 == 0;
          assert k in busy - {id};
        }
      }
    }
  }

  /** Accepting makes a free number pending and asks the other side to connect where the listener says. */
  lemma AcceptExact(p: Peer, host: string, port: M.u16)
    requires FirstFree(p.nextId, p.pending + p.connections) < TWO32
    ensures var (p', out) := DoAccept(p, host, port);
            var id: u32 := FirstFree(p.nextId, p.pending + p.connections);
            && out == [TcpConnect(id, host, port)] && !Live(p, id) && id in p'.pending && id in p'.known
            && p'.connections == p.connections && p'.pendingWrites == p.pendingWrites && p'.readers == p.readers
            && p'.written == p.written && p'.read == p.read && p'.nextId == id + 2
            && forall other: u32 :: other != id ==> Same(p, p', other)
  {
    FirstFreeExact(p.nextId, p.pending + p.connections);
    hide FirstFree;
  }

  /** A payload is written to an open connection, queued for a pending one, and otherwise reported. */
  lemma PayloadExact(p: Peer, id: u32, payload: seq<byte>, error: Option<string>, notice: string)
    ensures var step := DoHandle(p, TcpSend(id, payload), error, notice);
            var (p', out) := step;
            && step == DoHandle(p, TcpRecv(id, payload), error, notice)
            && p'.pending == p.pending && p'.connections == p.connections && p'.readers == p.readers
            && p'.known == p.known && p'.read == p.read
            && out == (if Live(p, id) then [] else [Notice(notice)])
            && Log(p'.written, id) == Log(p.written, id) + (if id in p.connections then payload else [])
            && Queue(p'.pendingWrites, id) ==
               Queue(p.pendingWrites, id) + (if id in p.pending && id !in p.connections then [payload] else [])
            && forall other: u32 :: other != id ==> Same(p, p', other)
  {
  }

  /** A close leaves nothing of the connection but its reader, and touches no other. */
  lemma CloseExact(p: Peer, id: u32, error: Option<string>, notice: string)
    ensures var (p', out) := DoHandle(p, TcpClose(id), error, notice);
            && out == [] && id !in p'.pending && id !in p'.pendingWrites && id !in p'.connections
            && p'.readers == p.readers && p'.known == p.known && p'.written == p.written && p'.read == p.read
            && forall other: u32 :: other != id ==> Same(p, p', other)
  {
  }

  /** A read that ends sends one close and stops writing; one that gives bytes sends just them. */
  lemma ReadExact(p: Peer, id: u32, payload: seq<byte>)
    requires id in p.readers && payload != []
    ensures var (p', out) := Act(p, [], ReadEnd(id));
            && out == [TcpClose(id)] && id !in p'.connections && p'.readers[id] == p.readers[id] - 1
            && p'.pending == p.pending && p'.written == p.written && p'.read == p.read
            && forall other: u32 :: other != id ==> Same(p, p', other)
    ensures var (p', out) := Act(p, [], ReadSocket(id, payload));
            && out == [TcpSend(id, payload)] && Log(p'.read, id) == Log(p.read, id) + payload
            && p' == p.(read := p'.read) && forall other: u32 :: other != id ==> Same(p, p', other)
  {
  }

  // Messages of a kind on their way

  datatype Kind = Closing | Refusing

  predicate Is(m: NetworkMessage, kind: Kind, id: u32) {
    match kind
    case Closing => m == TcpClose(id)
    case Refusing => m.TcpConnectResult? && m.id == id && m.error.Some?
  }

  function Count(ms: seq<NetworkMessage>, kind: Kind, id: u32): nat {
    if ms == [] then 0 else (if Is(ms[0], kind, id) then 1 else 0) + Count(ms[1..], kind, id)
  }

  lemma {:induction false} CountGrows(ms: seq<NetworkMessage>, m: NetworkMessage, kind: Kind, id: u32)
    ensures Count(ms + [m], kind, id) == Count(ms, kind, id) + if Is(m, kind, id) then 1 else 0
    decreases ms
  {
    hide Is;
    if ms == [] {
      assert Count([m], kind, id) == (if Is(m, kind, id) then 1 else 0) + Count([], kind, id);
    } else {
      assert (ms + [m])[1..] == ms[1..] + [m];
      CountGrows(ms[1..], m, kind, id);
    }
  }

  // The life of one number, as peer p sees it; qp is on its way to p, pq to q

  /** Once the reader here is done, a close is on its way or the other side has closed as well. A close
      or a refusal is the last thing the other side hears of. */
  ghost predicate LifeOk(p: Peer, q: Peer, qp: seq<NetworkMessage>, pq: seq<NetworkMessage>, id: u32) {
    && Count(pq, Closing, id) + p.readers[id] <= 1
    && (Count(pq, Closing, id) > 0 ==> id in p.known && id in q.known && !Live(p, id))
    && (id in p.known && id !in p.pending && p.readers[id] == 0 ==> Count(pq, Closing, id) > 0 || !Live(q, id))
    && (Requests(pq, id) > 0 ==> id in p.pending)
    && (Count(pq, Refusing, id) > 0 ==> id in q.known && !Live(p, id) && Requests(qp, id) == 0)
  }

  ghost predicate BothOk(p: Peer, q: Peer, qp: seq<NetworkMessage>, pq: seq<NetworkMessage>, id: u32) {
    LifeOk(p, q, qp, pq, id) && LifeOk(q, p, pq, qp, id)
  }

  /** What is known of one number at p. */
  ghost predicate NumberOk(p: Peer, q: Peer, qp: seq<NetworkMessage>, pq: seq<NetworkMessage>, id: u32) {
    && p.readers[id] <= 1 && (p.readers[id] > 0 ==> id in p.known && id !in p.pending && id in q.known)
    && (Live(p, id) ==> id in p.known) && !(id in p.pending && id in p.connections)
    && Requests(pq, id) <= 1 && (Requests(pq, id) > 0 ==> id in p.known && id !in q.known)
    && (qp != [] && qp[0] == TcpConnectResult(id, None) ==> id in q.known)
  }

  lemma PairNumbers(p: Peer, q: Peer, qp: seq<NetworkMessage>, pq: seq<NetworkMessage>, id: u32)
    requires PairInv(p, q, qp, pq)
    ensures NumberOk(p, q, qp, pq, id) && NumberOk(q, p, pq, qp, id)
  {
    hide BytesOk, Requests, IdsOk;
    assert id in p.readers <==> p.readers[id] > 0;
    assert id in q.readers <==> q.readers[id] > 0;
  }

  /** How many of each kind there are when the first message is taken. */
  lemma Popped(qp: seq<NetworkMessage>, id: u32)
    requires qp != []
    ensures Requests(qp, id) == (if Asks(qp[0], id) then 1 else 0) + Requests(qp[1..], id)
    ensures Count(qp, Closing, id) == (if Is(qp[0], Closing, id) then 1 else 0) + Count(qp[1..], Closing, id)
    ensures Count(qp, Refusing, id) == (if Is(qp[0], Refusing, id) then 1 else 0) + Count(qp[1..], Refusing, id)
  {
  }

  lemma Pushed(pq: seq<NetworkMessage>, m: NetworkMessage, id: u32)
    ensures Requests(pq + [m], id) == Requests(pq, id) + if Asks(m, id) then 1 else 0
    ensures Count(pq + [m], Closing, id) == Count(pq, Closing, id) + if Is(m, Closing, id) then 1 else 0
    ensures Count(pq + [m], Refusing, id) == Count(pq, Refusing, id) + if Is(m, Refusing, id) then 1 else 0
  {
    SentOne(pq, m, id);
    CountGrows(pq, m, Closing, id);
    CountGrows(pq, m, Refusing, id);
  }

  lemma AcceptLife(p: Peer, q: Peer, qp: seq<NetworkMessage>, pq: seq<NetworkMessage>, host: string, port: M.u16,
                   id: u32)
    requires PairInv(p, q, qp, pq) && BothOk(p, q, qp, pq, id) && CanAct(p, qp, Accept(host, port))
    ensures var (p', out) := Act(p, qp, Accept(host, port)); BothOk(p', q, qp, pq + out, id)
  {
    PairNumbers(p, q, qp, pq, id);
    NextIsFresh(p, q);
    var id0: u32 := p.nextId;
    Pushed(pq, TcpConnect(id0, host, port), id);
    hide PairInv, FirstFree, Requests, Count;
    assert Act(p, qp, Accept(host, port)).1 == [TcpConnect(id0, host, port)];
  }

  lemma ConnectLife(p: Peer, q: Peer, qp: seq<NetworkMessage>, pq: seq<NetworkMessage>, error: Option<string>, id: u32)
    requires PairInv(p, q, qp, pq) && BothOk(p, q, qp, pq, id) && qp != [] && qp[0].TcpConnect?
    ensures var (p', out) := Act(p, qp, Handle(error)); BothOk(p', q, qp[1..], pq + out, id)
  {
    var m := qp[0];
    PairNumbers(p, q, qp, pq, id);
    Popped(qp, id);
    Pushed(pq, TcpConnectResult(m.id, error), id);
    ConnectExact(p, m.id, m.host, m.port, error);
    hide PairInv, Requests, Count, Activate, Append;
  }

  /** How many messages of each kind there are, as equal in both. */
  ghost predicate Alike(ms: seq<NetworkMessage>, ms': seq<NetworkMessage>, id: u32) {
    && Requests(ms', id) == Requests(ms, id) && Count(ms', Closing, id) == Count(ms, Closing, id)
    && Count(ms', Refusing, id) == Count(ms, Refusing, id)
  }

  lemma AlikeLife(p: Peer, p': Peer, q: Peer, qp: seq<NetworkMessage>, pq: seq<NetworkMessage>,
                  qp': seq<NetworkMessage>, pq': seq<NetworkMessage>, id: u32)
    requires BothOk(p, q, qp, pq, id) && Alike(qp, qp', id) && Alike(pq, pq', id)
    requires p'.readers[id] == p.readers[id] && (id in p'.known <==> id in p.known)
    requires (id in p'.pending <==> id in p.pending) && (id in p'.connections <==> id in p.connections)
    ensures BothOk(p', q, qp', pq', id)
  {
    hide Requests, Count;
  }

  lemma PayloadLife(p: Peer, q: Peer, qp: seq<NetworkMessage>, pq: seq<NetworkMessage>, error: Option<string>, id: u32)
    requires PairInv(p, q, qp, pq) && BothOk(p, q, qp, pq, id) && qp != [] && Carries(qp[0])
    ensures var (p', out) := Act(p, qp, Handle(error)); BothOk(p', q, qp[1..], pq + out, id)
  {
    var m := qp[0];
    var (p', out) := DoHandle(p, m, error, "");
    Popped(qp, id);
    Pushed(pq, Notice(""), id);
    PayloadExact(p, m.id, m.data, error, "");
    assert pq + [] == pq;
    hide PairInv, BothOk, Requests, Count, DoHandle, Same;
    AlikeLife(p, p', q, qp, pq, qp[1..], pq + out, id);
  }

  lemma AnsweredLife(p: Peer, p': Peer, q: Peer, qp: seq<NetworkMessage>, pq: seq<NetworkMessage>, id: u32)
    requires PairInv(p, q, qp, pq) && BothOk(p, q, qp, pq, id) && qp != [] && qp[0] == TcpConnectResult(id, None)
    requires id in p.pending && id !in p'.pending && Open(p, p', id)
    ensures BothOk(p', q, qp[1..], pq, id)
  {
    PairNumbers(p, q, qp, pq, id);
    Popped(qp, id);
    hide PairInv, Requests, Count;
  }

  lemma RefusedLife(p: Peer, p': Peer, q: Peer, qp: seq<NetworkMessage>, pq: seq<NetworkMessage>, id: u32)
    requires PairInv(p, q, qp, pq) && BothOk(p, q, qp, pq, id) && qp != [] && Is(qp[0], Refusing, id)
    requires id !in p'.pending && p'.connections == p.connections && p'.readers == p.readers && p'.known == p.known
    ensures BothOk(p', q, qp[1..], pq, id) && BothOk(p', q, qp[1..], pq + [Notice("")], id)
  {
    PairNumbers(p, q, qp, pq, id);
    Popped(qp, id);
    Pushed(pq, Notice(""), id);
    hide PairInv, Requests, Count;
  }

  lemma ResultLife(p: Peer, q: Peer, qp: seq<NetworkMessage>, pq: seq<NetworkMessage>, error: Option<string>, id: u32)
    requires PairInv(p, q, qp, pq) && BothOk(p, q, qp, pq, id) && qp != [] && qp[0].TcpConnectResult?
    ensures var (p', out) := Act(p, qp, Handle(error)); BothOk(p', q, qp[1..], pq + out, id)
  {
    var m := qp[0];
    var (p', out) := DoHandle(p, m, error, "");
    ResultExact(p, m.id, m.error, error, "");
    assert pq + [] == pq;
    hide PairInv, BothOk, Requests, Count, DoHandle, Open;
    if m.id == id && id in p.pending && m.error.None? {
      AnsweredLife(p, p', q, qp, pq, id);
    } else if m.id == id && m.error.Some? {
      RefusedLife(p, p', q, qp, pq, id);
    } else {
      SameSelf(p);
      Popped(qp, id);
      Pushed(pq, Notice(""), id);
      AlikeLife(p, p', q, qp, pq, qp[1..], pq + out, id);
    }
  }

  lemma CloseLife(p: Peer, q: Peer, qp: seq<NetworkMessage>, pq: seq<NetworkMessage>, error: Option<string>, id: u32)
    requires PairInv(p, q, qp, pq) && BothOk(p, q, qp, pq, id) && qp != [] && qp[0].TcpClose?
    ensures var (p', out) := Act(p, qp, Handle(error)); BothOk(p', q, qp[1..], pq + out, id)
  {
    var m := qp[0];
    PairNumbers(p, q, qp, pq, id);
    Popped(qp, id);
    CloseExact(p, m.id, error, "");
    assert pq + [] == pq;
    hide PairInv, Requests, Count, DoHandle;
  }

  lemma NothingLife(p: Peer, q: Peer, qp: seq<NetworkMessage>, pq: seq<NetworkMessage>, error: Option<string>, id: u32)
    requires BothOk(p, q, qp, pq, id) && qp != [] && (qp[0].Notice? || qp[0].UdpSend? || qp[0].UdpRecv?)
    ensures var (p', out) := Act(p, qp, Handle(error)); BothOk(p', q, qp[1..], pq + out, id)
  {
    Popped(qp, id);
    assert pq + [] == pq;
    hide Requests, Count;
  }

  lemma ReadEndLife(p: Peer, q: Peer, qp: seq<NetworkMessage>, pq: seq<NetworkMessage>, id0: u32, id: u32)
    requires PairInv(p, q, qp, pq) && BothOk(p, q, qp, pq, id) && id0 in p.readers
    ensures var (p', out) := Act(p, qp, ReadEnd(id0)); BothOk(p', q, qp, pq + out, id)
  {
    PairNumbers(p, q, qp, pq, id);
    Pushed(pq, TcpClose(id0), id);
    hide PairInv, Requests, Count;
  }

  lemma ReadLife(p: Peer, q: Peer, qp: seq<NetworkMessage>, pq: seq<NetworkMessage>, act: Action, id: u32)
    requires PairInv(p, q, qp, pq) && BothOk(p, q, qp, pq, id) && CanAct(p, qp, act)
    requires act.ReadSocket? || act.ReadEnd? || act.Other?
    ensures var (p', out) := Act(p, qp, act); BothOk(p', q, qp, pq + out, id)
  {
    hide PairInv, BothOk, Requests, Count;
    match act
    case ReadEnd(id0) => ReadEndLife(p, q, qp, pq, id0, id);
    case ReadSocket(id0, payload) =>
      Pushed(pq, TcpSend(id0, payload), id);
      AlikeLife(p, DoRead(p, id0, payload).0, q, qp, pq, qp, pq + [TcpSend(id0, payload)], id);
    case Other(m) =>
      Pushed(pq, m, id);
      AlikeLife(p, p, q, qp, pq, qp, pq + [m], id);
  }

  lemma HandleLife(p: Peer, q: Peer, qp: seq<NetworkMessage>, pq: seq<NetworkMessage>, error: Option<string>, id: u32)
    requires PairInv(p, q, qp, pq) && BothOk(p, q, qp, pq, id) && qp != []
    ensures var (p', out) := Act(p, qp, Handle(error)); BothOk(p', q, qp[1..], pq + out, id)
  {
    hide PairInv, BothOk, Act;
    match qp[0]
    case TcpConnect(_, _, _) => ConnectLife(p, q, qp, pq, error, id);
    case TcpConnectResult(_, _) => ResultLife(p, q, qp, pq, error, id);
    case TcpSend(_, _) => PayloadLife(p, q, qp, pq, error, id);
    case TcpRecv(_, _) => PayloadLife(p, q, qp, pq, error, id);
    case TcpClose(_) => CloseLife(p, q, qp, pq, error, id);
    case _ => NothingLife(p, q, qp, pq, error, id);
  }

  lemma ActLife(p: Peer, q: Peer, qp: seq<NetworkMessage>, pq: seq<NetworkMessage>, act: Action, id: u32)
    requires PairInv(p, q, qp, pq) && BothOk(p, q, qp, pq, id) && CanAct(p, qp, act)
    ensures var (p', out) := Act(p, qp, act); BothOk(p', q, Rest(qp, act), pq + out, id)
  {
    hide PairInv, BothOk, Act, FirstFree;
    match act
    case Accept(host, port) => AcceptLife(p, q, qp, pq, host, port, id);
    case Handle(error) => HandleLife(p, q, qp, pq, error, id);
    case _ => ReadLife(p, q, qp, pq, act, id);
  }

  ghost predicate Lives(s: Tunnel, id: u32) {
    BothOk(s.client, s.server, s.toClient, s.toServer, id)
  }

  lemma MoveLife(s: Tunnel, byClient: bool, act: Action, id: u32)
    requires Inv(s) && Lives(s, id)
    requires if byClient then CanAct(s.client, s.toClient, act) else CanAct(s.server, s.toServer, act)
    ensures Lives(Moved(s, byClient, act), id)
  {
    hide PairInv, LifeOk, Act, CanAct;
    if byClient {
      ActLife(s.client, s.server, s.toClient, s.toServer, act, id);
    } else {
      ActLife(s.server, s.client, s.toServer, s.toClient, act, id) by {
        assert PairInv(s.client, s.server, s.toClient, s.toServer);
        Swap(s.client, s.server, s.toClient, s.toServer);
      }
    }
  }

  lemma Swap(p: Peer, q: Peer, qp: seq<NetworkMessage>, pq: seq<NetworkMessage>)
    requires PairInv(p, q, qp, pq)
    ensures PairInv(q, p, pq, qp)
  {
  }

  lemma {:induction false} ReachesLife(s: Tunnel, steps: seq<(bool, Action)>, s': Tunnel, id: u32)
    requires Inv(s) && Lives(s, id) && Reaches(s, steps, s')
    ensures Inv(s') && Lives(s', id)
    decreases steps
  {
    hide Inv, Lives, Moved, CanAct;
    if steps != [] {
      MoveOk(s, steps[0].0, steps[0].1);
      MoveLife(s, steps[0].0, steps[0].1, id);
      ReachesLife(Moved(s, steps[0].0, steps[0].1), steps[1..], s', id);
    }
  }

  lemma StartLife(id: u32)
    ensures Lives(START, id)
  {
  }

  lemma ReachableLife(s: Tunnel, id: u32)
    requires Reachable(s)
    ensures Inv(s) && Lives(s, id)
  {
    hide Inv, Lives, Reaches;
    StartOk();
    StartLife(id);
    var steps :| Reaches(START, steps, s);
    ReachesLife(START, steps, s, id);
  }

  // The theorems

  /** A number that had a socket here and has none any more. */
  predicate Dead(p: Peer, id: u32) { id in p.known && !Live(p, id) }

  lemma HandleDead(p: Peer, q: Peer, qp: seq<NetworkMessage>, pq: seq<NetworkMessage>, error: Option<string>, id: u32)
    requires PairInv(p, q, qp, pq) && qp != [] && Dead(p, id)
    ensures var p' := Act(p, qp, Handle(error)).0; Dead(p', id) && Log(p'.written, id) == Log(p.written, id)
  {
    PairNumbers(q, p, pq, qp, id);
    Popped(qp, id);
    hide PairInv, Requests, Count;
    var m := qp[0];
    if m.TcpConnect? {
      ConnectExact(p, m.id, m.host, m.port, error);
      SameSelf(p);
    } else if m.TcpConnectResult? {
      ResultExact(p, m.id, m.error, error, "");
    } else if Carries(m) {
      PayloadExact(p, m.id, m.data, error, "");
    } else if m.TcpClose? {
      CloseExact(p, m.id, error, "");
    }
    hide DoHandle;
  }

  lemma DeadStays(p: Peer, q: Peer, qp: seq<NetworkMessage>, pq: seq<NetworkMessage>, act: Action, id: u32)
    requires PairInv(p, q, qp, pq) && CanAct(p, qp, act) && Dead(p, id)
    ensures var p' := Act(p, qp, act).0; Dead(p', id) && Log(p'.written, id) == Log(p.written, id)
  {
    if act.Handle? {
      hide PairInv, Act, Dead;
      HandleDead(p, q, qp, pq, act.error, id);
    } else {
      if act.Accept? {
        NextIsFresh(p, q);
      }
      hide PairInv, FirstFree;
    }
  }

  function Side(s: Tunnel, client: bool): Peer { if client then s.client else s.server }

  lemma MoveDead(s: Tunnel, byClient: bool, act: Action, client: bool, id: u32)
    requires Inv(s) && Dead(Side(s, client), id)
    requires if byClient then CanAct(s.client, s.toClient, act) else CanAct(s.server, s.toServer, act)
    ensures var p := Side(Moved(s, byClient, act), client);
            Dead(p, id) && Log(p.written, id) == Log(Side(s, client).written, id)
  {
    hide PairInv, Act, CanAct, Dead;
    if byClient && client {
      DeadStays(s.client, s.server, s.toClient, s.toServer, act, id);
    } else if !byClient && !client {
      Swap(s.client, s.server, s.toClient, s.toServer);
      DeadStays(s.server, s.client, s.toServer, s.toClient, act, id);
    }
  }

  /** A connection that is closed on a side stays closed there, and its socket is given nothing more,
      however the run goes on. */
  lemma {:induction false} ClosedForEver(s: Tunnel, steps: seq<(bool, Action)>, s': Tunnel, client: bool, id: u32)
    requires Inv(s) && Dead(Side(s, client), id) && Reaches(s, steps, s')
    ensures !Live(Side(s', client), id) && Dead(Side(s', client), id)
    ensures Log(Side(s', client).written, id) == Log(Side(s, client).written, id)
    decreases steps
  {
    hide Inv, Moved, CanAct, Dead, Side;
    if steps != [] {
      MoveOk(s, steps[0].0, steps[0].1);
      MoveDead(s, steps[0].0, steps[0].1, client, id);
      ClosedForEver(Moved(s, steps[0].0, steps[0].1), steps[1..], s', client, id);
    }
    assert Dead(Side(s', client), id) ==> !Live(Side(s', client), id) by { DeadIsDown(Side(s', client), id); }
  }

  lemma DeadIsDown(p: Peer, id: u32)
    ensures Dead(p, id) ==> !Live(p, id)
  {
  }

  /** In any run a close that is handled, or a read that ends, closes the connection on that side for ever. */
  lemma CloseIsFinal(s: Tunnel, byClient: bool, act: Action, id: u32, steps: seq<(bool, Action)>, s': Tunnel)
    requires Reachable(s)
    requires var (p, inbound) := if byClient then (s.client, s.toClient) else (s.server, s.toServer);
             CanAct(p, inbound, act) && (act == ReadEnd(id) || (act.Handle? && inbound[0] == TcpClose(id)))
    requires Reaches(Moved(s, byClient, act), steps, s')
    ensures !Live(Side(s', byClient), id)
    ensures Log(Side(s', byClient).written, id) == Log(Side(s, byClient).written, id)
  {
    ReachableLife(s, id);
    var s1 := Moved(s, byClient, act);
    MoveOk(s, byClient, act);
    var (p, p') := (Side(s, byClient), Side(s1, byClient));
    assert Dead(p', id) && Log(p'.written, id) == Log(p.written, id) by {
      if byClient {
        ClosingDies(s.client, s.server, s.toClient, s.toServer, act, id);
      } else {
        Swap(s.client, s.server, s.toClient, s.toServer);
        ClosingDies(s.server, s.client, s.toServer, s.toClient, act, id);
      }
    }
    hide Inv, Dead, Side, Lives;
    ClosedForEver(s1, steps, s', byClient, id);
    DeadIsDown(Side(s', byClient), id);
  }

  lemma ClosingDies(p: Peer, q: Peer, qp: seq<NetworkMessage>, pq: seq<NetworkMessage>, act: Action, id: u32)
    requires PairInv(p, q, qp, pq) && BothOk(p, q, qp, pq, id) && CanAct(p, qp, act)
    requires act == ReadEnd(id) || (act.Handle? && qp[0] == TcpClose(id))
    ensures var p' := Act(p, qp, act).0; Dead(p', id) && Log(p'.written, id) == Log(p.written, id)
  {
    PairNumbers(p, q, qp, pq, id);
    if act.Handle? { Popped(qp, id); }
    hide PairInv, Requests, Count;
  }

  /** Closing reaches the other side: once a side has read its socket of a number to the end, the other
      side has closed it too as soon as nothing is on its way there. Each side says so at most once. */
  lemma CloseReaches(s: Tunnel, id: u32)
    requires Reachable(s)
    ensures id in s.client.known && id !in s.client.pending && id !in s.client.readers && s.toServer == [] ==>
              !Live(s.server, id)
    ensures id in s.server.known && id !in s.server.pending && id !in s.server.readers && s.toClient == [] ==>
              !Live(s.client, id)
    ensures Count(s.toServer, Closing, id) + s.client.readers[id] <= 1
    ensures Count(s.toClient, Closing, id) + s.server.readers[id] <= 1
  {
    ReachableLife(s, id);
    hide Inv;
    assert id !in s.client.readers <==> s.client.readers[id] == 0;
    assert id !in s.server.readers <==> s.server.readers[id] == 0;
  }
}
