/**
 The theorems about every run of the two-party system of `UdpSystem`, stated on the program's own
 fields wherever they can be.
 */
module UdpRuns {
  import opened Wrappers
  import opened SeqNumber
  import opened Packet
  import opened Connection
  import opened Congestion
  import opened Stream
  import opened UdpSystem
  import opened UdpSafety

  /** A node as the handshake leaves it: the open packet is entry 0 of the log, the peer has taken
      it, and its acknowledgement has not arrived. */
  ghost predicate InitNode(n: Node, peer: Node) {
    && n.c.state == Connected
    && n.log == [[]] && n.closes == 0 && n.got == 1 && n.acked == 0
    && n.accepted == [] && n.drained == [] && n.tags == map[]
    && n.futures == [] && n.slot == Idle && n.taken == []
    && n.c.recvPackets == [] && n.c.reassembled == [] && n.c.sentPackets == map[] && n.c.events == []
    && WindowInRange(n.c.transitWindow)
    && MAX_PACKET_SIZE <= n.c.config.recvWindow <= MAX_RECV_WINDOW
    && n.c.peerAckNumber == Wrap(n.base)
    && n.c.sequenceNumber == Wrap(n.base + 1)
    && n.c.ackNumber == Wrap(peer.base + 1)
  }

  ghost predicate Init(s: System) {
    InitNode(s.a, s.b) && InitNode(s.b, s.a) && s.ab == {} && s.ba == {}
  }

  datatype Move = Move(byA: bool, act: Action)

  function Side(s: System, ofA: bool): Node {
    if ofA then s.a else s.b
  }

  predicate CanMove(s: System, m: Move) {
    if m.byA then Enabled(s.a, s.b, s.ba, m.act) else Enabled(s.b, s.a, s.ab, m.act)
  }

  function Moved(s: System, m: Move): System
    requires CanMove(s, m)
  {
    if m.byA then s.(a := Act(s.a, m.act), ab := Outbound(s.a, s.ab, m.act))
    else s.(b := Act(s.b, m.act), ba := Outbound(s.b, s.ba, m.act))
  }

  /** The state after the moves, if every one of them can be made in turn. */
  ghost predicate Reaches(s: System, moves: seq<Move>, s': System)
    decreases moves
  {
    if moves == [] then s' == s
    else CanMove(s, moves[0]) && Reaches(Moved(s, moves[0]), moves[1..], s')
  }

  ghost predicate Reachable(s: System) {
    exists s0, moves :: Init(s0) && Reaches(s0, moves, s)
  }

  ghost predicate Inv(s: System) {
    PairInv(s.a, s.b, s.ab, s.ba)
  }

  lemma InitLocal(n: Node, peer: Node)
    requires InitNode(n, peer) && peer.log == [[]] && peer.acked == 0
    ensures LocalInv(n, peer)
  {
    assert End(peer.base, peer.log, 1) == peer.base + 1 && End(n.base, n.log, 1) == n.base + 1;
    assert Bytes([[]], 0) == [] && Bytes([[]], 1) == [] + [];
    assert Receiving(peer.base, peer.log, 1, n.c, []);
    assert RecvWith(n, peer, []);
  }

  lemma MovePreserves(s: System, m: Move)
    requires Inv(s) && CanMove(s, m)
    ensures Inv(Moved(s, m))
  {
    hide LocalInv, NetInv, Act, Outbound;
    if m.byA {
      StepPreserves(s.a, s.b, s.ab, s.ba, m.act);
    } else {
      Swapped(s.a, s.b, s.ab, s.ba);
      StepPreserves(s.b, s.a, s.ba, s.ab, m.act);
    }
  }

  lemma Swapped(n: Node, peer: Node, out: set<Datagram>, inbound: set<Datagram>)
    requires PairInv(n, peer, out, inbound)
    ensures PairInv(peer, n, inbound, out)
  {
  }

  lemma {:induction false} RunPreserves(s: System, moves: seq<Move>, s': System)
    requires Inv(s) && Reaches(s, moves, s')
    ensures Inv(s')
    decreases moves
  {
    if moves != [] {
      MovePreserves(s, moves[0]);
      RunPreserves(Moved(s, moves[0]), moves[1..], s');
    }
  }

  lemma ReachableInv(s: System)
    requires Reachable(s)
    ensures Inv(s)
  {
    var s0, moves :| Init(s0) && Reaches(s0, moves, s);
    InitLocal(s0.a, s0.b);
    InitLocal(s0.b, s0.a);
    RunPreserves(s0, moves, s);
  }

  /** The network is asked for nothing in a run that uses fewer than about 2^31 sequence numbers: every
      datagram is recent, however late it arrives. */
  lemma RecentWhenShort(n: Node, peer: Node, d: Datagram)
    requires End(peer.base, peer.log, |peer.log|) - peer.base + n.c.config.recvWindow <= FAITHFUL
    requires End(n.base, n.log, |n.log|) - n.base <= FAITHFUL
    ensures RecentDatagram(n, peer, d)
  {
    hide Parse;
    if d.tag.entry < |peer.log| && n.got <= |peer.log| {
      EndBetween(peer.base, peer.log, n.got, |peer.log|);
      EndBetween(peer.base, peer.log, 0, d.tag.entry + 1);
    }
    if d.tag.acked <= |n.log| && n.acked <= |n.log| {
      EndBetween(n.base, n.log, n.acked, |n.log|);
      EndBetween(n.base, n.log, 0, d.tag.acked);
    }
  }

  // Safety

  /** Whatever the network does, the bytes handed to the reader and those waiting for it are a prefix
      of the bytes the peer accepted, and the acknowledgement number is the end of the last packet
      of that prefix. */
  lemma PrefixSafety(s: System)
    requires Reachable(s)
    ensures s.a.drained + s.a.c.reassembled <= s.b.accepted
    ensures s.b.drained + s.b.c.reassembled <= s.a.accepted
    ensures s.a.got <= |s.b.log| && s.a.drained + s.a.c.reassembled == Bytes(s.b.log, s.a.got)
            && s.a.c.ackNumber == Wrap(End(s.b.base, s.b.log, s.a.got)) && s.b.accepted == Bytes(s.b.log, |s.b.log|)
    ensures s.b.got <= |s.a.log| && s.b.drained + s.b.c.reassembled == Bytes(s.a.log, s.b.got)
            && s.b.c.ackNumber == Wrap(End(s.a.base, s.a.log, s.b.got)) && s.a.accepted == Bytes(s.a.log, |s.a.log|)
  {
    ReachableInv(s);
    GotBound(s.a, s.b);
    GotBound(s.b, s.a);
    BytesPrefix(s.b.log, s.a.got, |s.b.log|);
    BytesPrefix(s.a.log, s.b.got, |s.a.log|);
  }

  /** What a sender believes acknowledged has been taken, and what has been taken was created. */
  lemma TruthfulAcks(s: System)
    requires Reachable(s)
    ensures s.a.acked <= s.b.got <= |s.a.log|
    ensures s.a.c.peerAckNumber == Wrap(End(s.a.base, s.a.log, s.a.acked))
    ensures s.b.c.ackNumber == Wrap(End(s.a.base, s.a.log, s.b.got))
    ensures s.a.c.sequenceNumber == Wrap(End(s.a.base, s.a.log, |s.a.log|))
    ensures s.b.acked <= s.a.got <= |s.b.log|
    ensures s.b.c.peerAckNumber == Wrap(End(s.b.base, s.b.log, s.b.acked))
    ensures s.a.c.ackNumber == Wrap(End(s.b.base, s.b.log, s.a.got))
    ensures s.b.c.sequenceNumber == Wrap(End(s.b.base, s.b.log, |s.b.log|))
  {
    ReachableInv(s);
    GotBound(s.a, s.b);
    GotBound(s.b, s.a);
  }

  /** q carries an entry of n that peer has taken: its bytes are in place in peer's stream. */
  ghost predicate TakenEntry(n: Node, peer: Node, q: UdpPacket) {
    exists i :: 0 <= i < peer.got <= |n.log| && IsEntry(n.base, n.log, q, i)
                && Bytes(n.log, i) + q.payload <= peer.drained + peer.c.reassembled
  }

  /** Every packet that an acknowledgement clears from the resend map has all its bytes in the
      stream the peer has taken. */
  lemma ClearedWasTaken(s: System, d: Datagram, key: u32)
    requires Reachable(s) && d in s.ba && RecentDatagram(s.a, s.b, d)
    requires key in s.a.c.sentPackets && key !in DoReceive(s.a, d).c.sentPackets
    ensures TakenEntry(s.a, s.b, s.a.c.sentPackets[key])
  {
    ReachableInv(s);
    hide LocalInv, Parse, HandleRecv, TagOk, Wrap, Add, TakenEntry;
    assert TagOk(s.b, s.a, Parse(d.data).value, d.tag);
    ClearedNode(s.a, s.b, d, key);
  }

  lemma ClearedNode(n: Node, peer: Node, d: Datagram, key: u32)
    requires LocalInv(n, peer) && LocalInv(peer, n)
    requires Parse(d.data).Ok? && TagOk(peer, n, Parse(d.data).value, d.tag) && RecentDatagram(n, peer, d)
    requires key in n.c.sentPackets && key !in HandleRecv(n.c, d.data).0.sentPackets
    ensures TakenEntry(n, peer, n.c.sentPackets[key])
  {
    hide Wrap, Add, Parse, PartialCmp, HandleRecv, Receiving;
    var q := n.c.sentPackets[key];
    var p, i := Parse(d.data).value, n.tags[q].entry;
    ClearedByAck(n.c, d.data, key);
    assert TagOk(n, peer, q, n.tags[q]);
    GotBound(n, peer);
    GotBound(peer, n);
    UnackedIsKept(n, peer, p, d.tag, i);
    BytesPrefix(n.log, i + 1, peer.got);
    assert Bytes(n.log, i + 1) == Bytes(n.log, i) + q.payload;
  }

  /** Only an acknowledgement that moves forward clears a packet, and it clears what it reaches. */
  lemma ClearedByAck(c: Conn, data: seq<byte>, key: u32)
    requires key in c.sentPackets && key !in HandleRecv(c, data).0.sentPackets
    ensures Parse(data).Ok?
    ensures var p := Parse(data).value; Gt(p.ackNumber, c.peerAckNumber) && !Gt(key, p.ackNumber)
  {
    hide Wrap, Add, Parse, PartialCmp;
    if Parse(data).Ok? {
      var p := Parse(data).value;
      RecvProcessFrame(c, p);
      AckFrame(RecvProcessPacket(c, p).0, p);
    }
  }

  /** The number of an entry beyond a genuine acknowledgement compares as beyond it. */
  lemma UnackedIsKept(n: Node, peer: Node, p: UdpPacket, t: Tag, i: nat)
    requires SendInv(n) && RecvInv(peer, n) && TagOk(peer, n, p, t) && i < |n.log|
    requires End(n.base, n.log, n.acked) - FAITHFUL <= End(n.base, n.log, t.acked)
    requires Gt(p.ackNumber, n.c.peerAckNumber)
    ensures t.acked <= i ==> Gt(Wrap(End(n.base, n.log, i) + 1), p.ackNumber)
  {
    AckExact(n, peer, p, t);
    if t.acked <= i {
      EndBetween(n.base, n.log, t.acked, i);
      EndBetween(n.base, n.log, i + 1, |n.log|);
      EndWithin(n.base, n.log, i);
      EndBetween(n.base, n.log, n.acked, t.acked);
      CmpFaithful(End(n.base, n.log, i) + 1, End(n.base, n.log, t.acked));
    }
  }

  /** The span of sequence numbers not acknowledged, on the program's own fields. */
  function InFlight(c: Conn): u32 {
    Wrap(c.sequenceNumber - c.peerAckNumber)
  }

  /** The unacknowledged span of sequence numbers never exceeds 332352 + 557, and one more for each
      close packet; so the congestion gate decides on positions. */
  lemma InFlightBound(s: System)
    requires Reachable(s)
    ensures InFlight(s.a.c) <= 332352 + 557 + s.a.closes && InFlight(s.b.c) <= 332352 + 557 + s.b.closes
    ensures IsCongested(s.a.c) <==> InFlight(s.a.c) >= Min(s.a.c.peerWindow, s.a.c.transitWindow)
    ensures IsCongested(s.b.c) <==> InFlight(s.b.c) >= Min(s.b.c.peerWindow, s.b.c.transitWindow)
  {
    ReachableInv(s);
    hide IsCongested, InFlight;
    Span(s.a);
    Span(s.b);
  }

  lemma Span(n: Node)
    requires SendInv(n)
    ensures InFlight(n.c) == End(n.base, n.log, |n.log|) - End(n.base, n.log, n.acked)
    ensures InFlight(n.c) <= 332352 + 557 + n.closes
    ensures IsCongested(n.c) <==> InFlight(n.c) >= Min(n.c.peerWindow, n.c.transitWindow)
  {
    hide Wrap, Add;
    EndBetween(n.base, n.log, n.acked, |n.log|);
    WrapDifference(End(n.base, n.log, |n.log|), End(n.base, n.log, n.acked));
    GateExact(n);
  }

  lemma WrapDifference(p: nat, q: nat)
    requires q <= p < q + TWO32
    ensures Wrap(Wrap(p) - Wrap(q)) == p - q
  {
    var a, b := p / TWO32, q / TWO32;
    assert Wrap(p) - Wrap(q) == p - q - (a - b) * TWO32;
  }

  /** The assertions and divisions of the send path never fail. */
  lemma NoPanic(s: System)
    requires Reachable(s)
    ensures !SettlePanics(s.a) && !SettlePanics(s.b)
    ensures WindowInRange(s.a.c.transitWindow) && WindowInRange(s.b.c.transitWindow)
  {
    ReachableInv(s);
    NeverPanics(s.a, s.b);
    NeverPanics(s.b, s.a);
  }

  /** Every datagram in the network, however often resent, carries a valid checksum, the sequence
      number and payload of the entry it was created for, and a true acknowledgement. */
  lemma DatagramsAreGenuine(s: System, d: Datagram)
    requires Reachable(s) && d in s.ab
    ensures Parse(d.data).Ok? && s.b.got <= |s.a.log| && s.a.got <= |s.b.log|
    ensures var p := Parse(d.data).value;
            && ChecksumValid(s.a.c.config.hash, p)
            && (p.payload != [] ==> IsEntry(s.a.base, s.a.log, p, d.tag.entry))
            && d.tag.acked <= s.a.got
            && p.ackNumber == Wrap(End(s.b.base, s.b.log, d.tag.acked))
  {
    ReachableInv(s);
    assert TagOk(s.a, s.b, Parse(d.data).value, d.tag);
    GotBound(s.b, s.a);
  }

  // The receive buffer

  ghost predicate NoCrossing(n: Node) {
    forall i :: 0 <= i < |n.log| ==> !Crosses(n.base, n.log, i)
  }

  /** While no packet range passes 2^32, the receive buffer is sorted, its packets are disjoint and
      inside (ack + 1, ack + recv_window], and their spans together fit in the window. */
  lemma ReceiveBuffer(s: System)
    requires Reachable(s) && NoCrossing(s.b)
    ensures var ps, ack, end := s.a.c.recvPackets, s.a.c.ackNumber, Add(s.a.c.ackNumber, s.a.c.config.recvWindow);
            && (forall i, j :: 0 <= i < j < |ps| ==>
                  Lt(ps[i].sequenceNumber, ps[j].sequenceNumber) && !Overlaps(ps[i], ps[j]))
            && (forall j :: 0 <= j < |ps| ==> Gt(ps[j].sequenceNumber, Add(ack, 1)) && Le(EndSeq(ps[j]), end))
            && SumSpans(ps) <= s.a.c.config.recvWindow
            && !Wedged(s.a.c)
  {
    ReachableInv(s);
    var idx :| RecvWith(s.a, s.b, idx);
    BufferShape(s.b.base, s.b.log, s.a.got, s.a.c, idx);
  }

  /** The next data packet, when it arrives intact and fits in the window, moves the stream exactly
      when the receiver is not wedged. */
  lemma ProgressExact(s: System, d: Datagram)
    requires Reachable(s) && d in s.ba && RecentDatagram(s.a, s.b, d)
    requires Parse(d.data).Ok?
    requires var p := Parse(d.data).value; p.payload != [] && ChecksumValid(s.a.c.config.hash, p)
    requires d.tag.entry == s.a.got < |s.b.log|
    requires Fits(s.b.base, s.b.log, s.a.got, s.a.c.config.recvWindow, s.a.got)
    ensures s.a.got < DoReceive(s.a, d).got <==> !Wedged(s.a.c)
    ensures NoCrossing(s.b) ==> s.a.got < DoReceive(s.a, d).got
  {
    ReachableInv(s);
    hide Wrap, Add, Parse, TagOk, LocalInv, RecvProcessPacket, Fits, Wedged, TakenBy, NoCrossing;
    ProgressNode(s.a, s.b, Parse(d.data).value, d.tag);
  }

  lemma ProgressNode(n: Node, peer: Node, p: UdpPacket, t: Tag)
    requires LocalInv(n, peer) && LocalInv(peer, n) && TagOk(peer, n, p, t) && p.payload != []
    requires End(peer.base, peer.log, n.got) + n.c.config.recvWindow - FAITHFUL <= End(peer.base, peer.log, t.entry + 1)
    requires t.entry == n.got && Fits(peer.base, peer.log, n.got, n.c.config.recvWindow, n.got)
    ensures TakenBy(n.c, p) > 0 <==> !Wedged(n.c)
    ensures NoCrossing(peer) ==> !Wedged(n.c)
  {
    EntryRecent(n, peer, p, t);
    var idx :| RecvWith(n, peer, idx);
    WedgedExact(peer.base, peer.log, n.got, n.c, idx);
    hide Wrap, Add, RecvProcessPacket, TakenBy, Wedged;
    var _, _ := ReceiveRefines(peer.base, peer.log, n.got, n.c, idx, p, n.got, n.drained);
  }

  /** A wedged receiver stays wedged: after it, no run delivers another byte. */
  lemma WedgedForEver(s: System, moves: seq<Move>, s': System)
    requires Reachable(s) && Reaches(s, moves, s') && Wedged(s.a.c)
    ensures Wedged(s'.a.c) && s'.a.got == s.a.got
    ensures s'.a.drained + s'.a.c.reassembled == s.a.drained + s.a.c.reassembled
  {
    ReachableInv(s);
    WedgedRun(s, moves, s');
  }

  ghost predicate Stuck(n: Node, n': Node) {
    Wedged(n'.c) && n'.got == n.got && n'.drained + n'.c.reassembled == n.drained + n.c.reassembled
  }

  lemma {:induction false} WedgedRun(s: System, moves: seq<Move>, s': System)
    requires Inv(s) && Reaches(s, moves, s') && Wedged(s.a.c)
    ensures Stuck(s.a, s'.a)
    decreases moves
  {
    if moves != [] {
      MovePreserves(s, moves[0]);
      if moves[0].byA {
        WedgedStep(s, moves[0].act);
      }
      WedgedRun(Moved(s, moves[0]), moves[1..], s');
    }
  }

  lemma WedgedStep(s: System, act: Action)
    requires Inv(s) && CanMove(s, Move(true, act)) && Wedged(s.a.c)
    ensures Stuck(s.a, Act(s.a, act))
  {
    hide Wrap, Add, PartialCmp, Act, Stuck;
    match act
    case Receive(d) => WedgedReceive(s, d);
    case Read(len) => WedgedRead(s.a, len);
    case Write(_) => WedgedCreate(s.a, act);
    case Pull => WedgedCreate(s.a, act);
    case MakeUpdate => WedgedCreate(s.a, act);
    case KeepAlive => WedgedCreate(s.a, act);
    case _ => WedgedSend(s.a, act);
  }

  lemma WedgedCreate(n: Node, act: Action)
    requires CanAct(n, act) && Wedged(n.c) && (act.Write? || act.Pull? || act.MakeUpdate? || act.KeepAlive?)
    ensures Stuck(n, Act(n, act))
  {
    hide Wrap, Add, PartialCmp, RecvWindow, Create;
  }

  lemma WedgedSend(n: Node, act: Action)
    requires CanAct(n, act) && Wedged(n.c)
    requires act.Wait? || act.Release? || act.SocketSend? || act.Settle? || act.FireResend? || act.Reschedule?
             || act.Disconnect?
    ensures Stuck(n, Act(n, act))
  {
    hide Wrap, Add, PartialCmp, RecvWindow, IncreaseWindow, DecreaseWindow;
  }

  lemma WedgedRead(n: Node, len: nat)
    requires Wedged(n.c)
    ensures Stuck(n, Act(n, Read(len)))
  {
    hide Wrap, Add, PartialCmp, RecvWindow;
    var k := Min(|n.c.reassembled|, len);
    assert n.drained + n.c.reassembled[..k] + n.c.reassembled[k..] == n.drained + n.c.reassembled;
  }

  lemma WedgedReceive(s: System, d: Datagram)
    requires Inv(s) && d in s.ba && RecentDatagram(s.a, s.b, d) && Wedged(s.a.c)
    ensures Stuck(s.a, Act(s.a, Receive(d)))
  {
    hide Wrap, Add, PartialCmp, Parse;
    var n, p := s.a, Parse(d.data).value;
    assert TagOk(s.b, n, p, d.tag);
    var idx :| RecvWith(n, s.b, idx);
    RecvProcessFrame(n.c, p);
    AckFrame(RecvProcessPacket(n.c, p).0, p);
    if p.payload != [] {
      EntryRecent(n, s.b, p, d.tag);
      WedgedStays(s.b.base, s.b.log, n.got, n.c, idx, p, d.tag.entry);
    }
  }

  // How a receiver gets wedged

  function Before(hash: Hash): Conn {
    NewConn(Config(102400, 102400, 10, hash)).(state := Connected, ackNumber := 0xFFFF_FFFC)
  }

  function FirstPacket(hash: Hash): UdpPacket { Create(hash, Data, 0xFFFF_FFFD, 0, 0, [7]) }  // up to 0xFFFF_FFFE
  function SecondPacket(hash: Hash): UdpPacket { Create(hash, Data, 0xFFFF_FFFF, 0, 0, [8]) } // passes 2^32, up to 0
  function ThirdPacket(hash: Hash): UdpPacket { Create(hash, Data, 1, 0, 0, [9]) }

  lemma {:induction false} FirstOverlapNone(ps: seq<UdpPacket>, p: UdpPacket)
    requires forall o :: o in ps ==> !Overlaps(p, o)
    ensures FirstOverlap(ps, p) == None
  {
    if ps != [] {
      FirstOverlapNone(ps[1..], p);
    }
  }

  lemma PlacedFirst(ps: seq<UdpPacket>, p: UdpPacket)
    requires ps == [] || !Lt(ps[0].sequenceNumber, p.sequenceNumber)
    ensures Placed(ps, p) == [p] + ps
  {
  }

  lemma Accepted(c: Conn, p: UdpPacket, ps: seq<UdpPacket>, r: Reassembly)
    requires p.payload != [] && Gt(p.sequenceNumber, c.ackNumber)
    requires Le(EndSeq(p), Add(c.ackNumber, c.config.recvWindow))
    requires FirstOverlap(c.recvPackets, p) == None && Placed(c.recvPackets, p) == ps
    requires Reassemble(c.ackNumber, ps) == r
    ensures RecvProcessPacket(c, p).1 == Ok(r.advanced)
    ensures var c' := RecvProcessPacket(c, p).0;
            c'.config == c.config && c'.ackNumber == r.ack && c'.recvPackets == r.rest
            && c'.reassembled == c.reassembled + r.bytes
  {
  }

  /** The overlap test compares raw numbers, so a packet whose range passes 2^32 is buffered twice. */
  lemma DuplicateBuffered(hash: Hash, c: Conn)
    requires c.config == Before(hash).config && c.ackNumber == 0xFFFF_FFFC && c.reassembled == []
    requires c.recvPackets == [] || c.recvPackets == [SecondPacket(hash)]
    ensures var (c', r) := RecvProcessPacket(c, SecondPacket(hash));
            && r == Ok(0) && c'.config == c.config && c'.ackNumber == c.ackNumber && c'.reassembled == []
            && c'.recvPackets == [SecondPacket(hash)] + c.recvPackets
  {
    var p := SecondPacket(hash);
    assert EndSeq(p) == 0 && !Overlaps(p, p);
    FirstOverlapNone(c.recvPackets, p);
    PlacedFirst(c.recvPackets, p);
    Accepted(c, p, [p] + c.recvPackets, Reassembly(0xFFFF_FFFC, [], 0, [p] + c.recvPackets));
  }

  /** When the gap before it is filled, one copy is taken and the other stays at the front. */
  lemma GapFilled(hash: Hash, c: Conn)
    requires c.config == Before(hash).config && c.ackNumber == 0xFFFF_FFFC && c.reassembled == []
    requires c.recvPackets == [SecondPacket(hash), SecondPacket(hash)]
    ensures var (c', r) := RecvProcessPacket(c, FirstPacket(hash));
            && r == Ok(4) && c'.config == c.config && c'.ackNumber == 0 && c'.reassembled == [7, 8]
            && c'.recvPackets == [SecondPacket(hash)]
  {
    var p, q := FirstPacket(hash), SecondPacket(hash);
    assert EndSeq(p) == 0xFFFF_FFFE && EndSeq(q) == 0 && !Overlaps(p, q);
    FirstOverlapNone(c.recvPackets, p);
    PlacedFirst(c.recvPackets, p);
    var ps := [p] + c.recvPackets;
    assert Reassemble(0, [q]) == Reassembly(0, [], 0, [q]);
    assert c.recvPackets[1..] == [q] && [8] + [] == [8];
    assert Reassemble(0xFFFF_FFFE, c.recvPackets) == Reassembly(0, [8], 2, [q]);
    assert ps[1..] == c.recvPackets && [7] + [8] == [7, 8];
    assert Reassemble(0xFFFF_FFFC, ps) == Reassembly(0, [7, 8], 4, [q]);
    Accepted(c, p, ps, Reassembly(0, [7, 8], 4, [q]));
  }

  /** The next packet is accepted and never reassembled. */
  lemma NextIgnored(hash: Hash, c: Conn)
    requires c.config == Before(hash).config && c.ackNumber == 0 && c.recvPackets == [SecondPacket(hash)]
    ensures var (c', r) := RecvProcessPacket(c, ThirdPacket(hash));
            r == Ok(0) && c'.reassembled == c.reassembled && c'.ackNumber == 0
  {
    var q, p := SecondPacket(hash), ThirdPacket(hash);
    assert EndSeq(q) == 0 && EndSeq(p) == 2 && !Overlaps(p, q);
    FirstOverlapNone(c.recvPackets, p);
    PlacedLater(c.recvPackets, p);
    var ps := Placed(c.recvPackets, p);
    Accepted(c, p, ps, Reassembly(0, [], 0, ps));
  }

  /** A duplicate and a reordering wedge the receiver: the packet that passes 2^32 arrives twice,
      then the one before it, then the one after it, which is the next expected. */
  lemma WrapDuplicateWedges(hash: Hash)
    ensures var c1 := RecvProcessPacket(Before(hash), SecondPacket(hash)).0;
            var c2 := RecvProcessPacket(c1, SecondPacket(hash)).0;
            var c3 := RecvProcessPacket(c2, FirstPacket(hash)).0;
            var (c4, r4) := RecvProcessPacket(c3, ThirdPacket(hash));
            && c3.reassembled == [7, 8] && Wedged(c3)
            && ThirdPacket(hash).sequenceNumber == Add(c3.ackNumber, 1)
            && r4 == Ok(0) && c4.reassembled == c3.reassembled && c4.ackNumber == c3.ackNumber
  {
    hide RecvProcessPacket;
    var c1 := RecvProcessPacket(Before(hash), SecondPacket(hash)).0;
    var c2 := RecvProcessPacket(c1, SecondPacket(hash)).0;
    DuplicateBuffered(hash, Before(hash));
    DuplicateBuffered(hash, c1);
    assert c2.recvPackets == [SecondPacket(hash), SecondPacket(hash)];
    GapFilled(hash, c2);
    NextIgnored(hash, RecvProcessPacket(c2, FirstPacket(hash)).0);
  }
}
