/**
 What single steps do in every run of `UdpSystem`, on positions: an arriving datagram, a packet that
 asks for the window, a resend task, a task that waits.
 */
module UdpLaws {
  import opened Wrappers
  import opened SeqNumber
  import opened Packet
  import opened Connection
  import opened Congestion
  import opened ConnectionLaws
  import opened Stream
  import opened UdpSystem
  import opened UdpSafety
  import opened UdpRuns

  // Receiving

  ghost predicate Buffers(n: Node, peer: Node, e: nat) {
    exists q :: q in n.c.recvPackets && IsEntry(peer.base, peer.log, q, e)
  }

  /** The packet, of entry e if it carries bytes, has none, or is in the window and not buffered yet. A
      packet whose range passes 2^32 is wanted again even when it is. */
  ghost predicate Wanted(n: Node, peer: Node, p: UdpPacket, e: nat) {
    p.payload == [] ||
    (&& e < |peer.log| && n.got <= |peer.log| && Fits(peer.base, peer.log, n.got, n.c.config.recvWindow, e)
     && (Buffers(n, peer, e) ==> Crosses(peer.base, peer.log, e)))
  }

  lemma SameNumber(base: nat, log: Log, k: nat, limit: nat, i: nat, j: nat)
    requires 1 <= k <= |log| && k - 1 <= i < |log| && k - 1 <= j < |log|
    requires End(base, log, i + 1) <= limit && End(base, log, j + 1) <= limit
    requires limit < End(base, log, k - 1) + TWO32
    requires Wrap(End(base, log, i) + 1) == Wrap(End(base, log, j) + 1)
    ensures i == j
  {
    EndBetween(base, log, k - 1, i);
    EndBetween(base, log, k - 1, j);
    EndWithin(base, log, i);
    EndWithin(base, log, j);
    WrapInjective(End(base, log, i) + 1, End(base, log, j) + 1);
    if i < j {
      EndMonotone(base, log, i, j);
    } else if j < i {
      EndMonotone(base, log, j, i);
    }
  }

  lemma InBuffer(n: Node, peer: Node, idx: seq<nat>, e: nat)
    requires RecvWith(n, peer, idx) && e < |peer.log| && n.got <= |peer.log|
    requires Fits(peer.base, peer.log, n.got, n.c.config.recvWindow, e)
    ensures e in idx <==> Buffers(n, peer, e)
  {
    var base, log, k, ps := peer.base, peer.log, n.got, n.c.recvPackets;
    var limit := End(base, log, k) + n.c.config.recvWindow;
    EndWithin(base, log, k - 1);
    hide Wrap, Chain;
    forall j | 0 <= j < |ps|
      ensures |idx| == |ps| && IsEntry(base, log, ps[j], idx[j])
      ensures IsEntry(base, log, ps[j], e) ==> idx[j] == e
    {
      ChainMember(base, log, k - 1, limit, ps, idx, j);
      if IsEntry(base, log, ps[j], e) {
        SameNumber(base, log, k, limit, idx[j], e);
      }
    }
    if ps == [] {
      NoIndex(base, log, k - 1, limit, idx);
    }
    if e in idx {
      var j :| 0 <= j < |idx| && idx[j] == e;
      assert ps[j] in ps;
    }
    if Buffers(n, peer, e) {
      var q :| q in ps && IsEntry(base, log, q, e);
      var j :| 0 <= j < |ps| && ps[j] == q;
      assert idx[j] in idx;
    }
  }

  lemma NoIndex(base: nat, log: Log, lo: nat, limit: nat, idx: seq<nat>)
    requires Chain(base, log, lo, limit, [], idx)
    ensures idx == []
  {
  }

  lemma WantedIsTaken(n: Node, peer: Node, p: UdpPacket, t: Tag)
    requires LocalInv(n, peer) && LocalInv(peer, n) && TagOk(peer, n, p, t)
    requires p.payload != [] ==>
               End(peer.base, peer.log, n.got) + n.c.config.recvWindow - FAITHFUL
                 <= End(peer.base, peer.log, t.entry + 1)
    ensures Takes(n.c, p) <==> Wanted(n, peer, p, t.entry)
  {
    TakenPacket(n.c, p);
    if p.payload != [] {
      GotBound(n, peer);
      EntryRecent(n, peer, p, t);
      var idx :| RecvWith(n, peer, idx);
      AcceptExact(peer.base, peer.log, n.got, n.c, idx, p, t.entry);
      if Fits(peer.base, peer.log, n.got, n.c.config.recvWindow, t.entry) {
        InBuffer(n, peer, idx, t.entry);
      }
      hide RecvProcessPacket, Takes, Fits, Buffers, Crosses, Recent, Receiving;
    }
  }

  /** The sender after the acknowledgement of t and the window of p: on positions, and on the fields. */
  ghost predicate Acknowledged(n: Node, n': Node, p: UdpPacket, t: Tag) {
    && n'.acked == (if n.acked < t.acked then t.acked else n.acked)
    && n'.acked <= |n.log| && n'.c.peerAckNumber == Wrap(End(n.base, n.log, n'.acked))
    && n'.c.peerWindow == p.window
    && (forall key :: key in n'.c.sentPackets <==>
          key in n.c.sentPackets && (n.acked < t.acked ==> Gt(key, n'.c.peerAckNumber)))
    && (forall key :: key in n'.c.sentPackets ==> n'.c.sentPackets[key] == n.c.sentPackets[key])
  }

  lemma TakenOver(n: Node, peer: Node, n': Node, p: UdpPacket, t: Tag)
    requires SendInv(n) && RecvInv(peer, n) && TagOk(peer, n, p, t)
    requires End(n.base, n.log, n.acked) - FAITHFUL <= End(n.base, n.log, t.acked)
    requires SenderUpdated(n.c, n'.c, p)
    requires n'.acked == if n'.c.peerAckNumber == n.c.peerAckNumber then n.acked else t.acked
    ensures Acknowledged(n, n', p, t)
  {
    GotBound(peer, n);
    AckExact(n, peer, p, t);
    if n.acked < t.acked {
      AckDiffers(n, t.acked, peer.got);
    }
    hide Wrap, PartialCmp, RecvInv, Wakes;
  }

  lemma NotTaken(n: Node, d: Datagram)
    requires Genuine(n.c, d.data) && Parse(d.data).value.packetType == Data && !Takes(n.c, Parse(d.data).value)
    ensures DoReceive(n, d) == n
  {
    hide Parse;
    DataHandled(n.c, d.data);
    TakenPacket(n.c, Parse(d.data).value);
    hide HandleRecv, RecvProcessPacket, Takes;
  }

  lemma ReceiveData(n: Node, peer: Node, d: Datagram)
    requires LocalInv(n, peer) && LocalInv(peer, n) && RecentDatagram(n, peer, d)
    requires Genuine(n.c, d.data) && TagOk(peer, n, Parse(d.data).value, d.tag)
    requires Parse(d.data).value.packetType == Data
    ensures var p := Parse(d.data).value;
            if Wanted(n, peer, p, d.tag.entry) then Acknowledged(n, DoReceive(n, d), p, d.tag) else DoReceive(n, d) == n
  {
    hide Parse, HandleRecv, Takes, Wanted, Acknowledged, SenderUpdated, PartialCmp, Wrap;
    var p, t := Parse(d.data).value, d.tag;
    GotBound(n, peer);
    GotBound(peer, n);
    WantedIsTaken(n, peer, p, t);
    if Takes(n.c, p) {
      DataHandled(n.c, d.data);
      TakenOver(n, peer, DoReceive(n, d), p, t);
    } else {
      NotTaken(n, d);
    }
  }

  /** Two positions of unacknowledged entries have different representations. */
  lemma AckDiffers(n: Node, k: nat, got: nat)
    requires SendInv(n) && n.acked < k <= got <= |n.log|
    ensures Wrap(End(n.base, n.log, k)) != n.c.peerAckNumber
  {
    EndMonotone(n.base, n.log, n.acked, k);
    EndBetween(n.base, n.log, k, |n.log|);
    WrapInjective(End(n.base, n.log, k), End(n.base, n.log, n.acked));
  }

  /** What a recent datagram does to a peer in any run. A data packet that is empty or wanted moves the
      acknowledged position to the larger of the two, takes its window over, and clears exactly what it
      acknowledges; any other data packet does nothing; a close packet ends the connection. */
  lemma ReceivedExact(s: System, d: Datagram)
    requires Reachable(s) && d in s.ba && RecentDatagram(s.a, s.b, d)
    requires s.a.c.config.hash == s.b.c.config.hash // both ends compute the same checksum
    ensures Parse(d.data).Ok?
    ensures var n, n', p := s.a, DoReceive(s.a, d), Parse(d.data).value;
            if p.packetType != Data then
              n' == n.(c := n.c.(state := if n.c.state == Connected then Disconnected else n.c.state))
            else if Wanted(n, s.b, p, d.tag.entry) then Acknowledged(n, n', p, d.tag)
            else n' == n
  {
    ReachableInv(s);
    var p := Parse(d.data).value;
    assert TagOk(s.b, s.a, p, d.tag);
    OtherHandled(s.a.c, d.data);
    hide Parse, Wanted, Acknowledged, Wrap, LocalInv, HandleRecv;
    if p.packetType == Data {
      ReceiveData(s.a, s.b, d);
    }
  }

  // Sending

  /** A waiting packet is let through exactly when its entry ends less than a send window beyond the
      acknowledged position; until then it waits. */
  lemma ReleaseExact(s: System, at: nat, e: nat)
    requires Reachable(s) && at < |s.a.futures| && s.a.futures[at].packetType == Data
    requires IsEntry(s.a.base, s.a.log, s.a.futures[at], e) && s.a.acked <= |s.a.log|
    requires End(s.a.base, s.a.log, s.a.acked) + WINDOW_CAP - FAITHFUL <= End(s.a.base, s.a.log, e + 1)
    ensures var fits := End(s.a.base, s.a.log, e + 1) - End(s.a.base, s.a.log, s.a.acked) < SendWindow(s.a.c);
            && (s.a.slot.Idle? ==> (CanAct(s.a, Release(at)) <==> fits))
            && (CanAct(s.a, Wait(at)) <==> !fits)
  {
    SendOk(s);
    SendableExact(s.a, s.a.futures[at], e);
    hide SendInv, CanSend, IsEntry, End;
  }

  lemma SendableExact(n: Node, p: UdpPacket, e: nat)
    requires SendInv(n) && p.packetType == Data && IsEntry(n.base, n.log, p, e)
    requires End(n.base, n.log, n.acked) + WINDOW_CAP - FAITHFUL <= End(n.base, n.log, e + 1)
    ensures CanSend(n.c, p) <==> End(n.base, n.log, e + 1) - End(n.base, n.log, n.acked) < SendWindow(n.c)
  {
    var window := SendWindow(n.c);
    EntryEnd(n.base, n.log, p, e);
    EndBetween(n.base, n.log, e + 1, |n.log|);
    WrapAddSmall(End(n.base, n.log, n.acked), window);
    CmpFaithful(End(n.base, n.log, e + 1), End(n.base, n.log, n.acked) + window);
    hide PartialCmp, Wrap, IsEntry, End, ShortEntries, Bytes;
  }

  function SendWindow(c: Conn): u32 {
    if c.peerWindow < c.transitWindow then c.peerWindow else c.transitWindow
  }

  /** A write creates an entry, of at most 557 of its bytes, exactly when the connection is up and the
      unacknowledged span is below the send window. */
  lemma WriteGate(s: System, buff: seq<byte>)
    requires Reachable(s) && buff != [] && s.a.acked <= |s.a.log|
    ensures var n, n' := s.a, DoWrite(s.a, buff);
            if n.c.state == Connected
               && End(n.base, n.log, |n.log|) - End(n.base, n.log, n.acked) < SendWindow(n.c) then
              n'.log == n.log + [if |buff| < 557 then buff else buff[..557]]
            else n'.log == n.log
  {
    SendOk(s);
    WriteExact(s.a.c, buff);
    GateExact(s.a);
    GateIsWindow(s.a.c);
    hide PollWrite, IsCongested, Lt, WindowEnd, Wrap, SendInv, End, RecvWindow;
    assert buff[..|buff|] == buff;
  }

  lemma SendOk(s: System)
    requires Reachable(s)
    ensures SendInv(s.a)
  {
    hide SendInv;
    ReachableInv(s);
  }

  lemma GateIsWindow(c: Conn)
    ensures IsCongested(c) <==> !Lt(c.sequenceNumber, WindowEnd(c.peerAckNumber, c.peerWindow, c.transitWindow))
    ensures SendWindow(c) == Min(c.peerWindow, c.transitWindow)
  {
    hide PartialCmp, Wrap;
  }

  /** A resend task fires only on the first entry not known to be acknowledged. */
  lemma FiresFirst(s: System, key: u32, e: nat)
    requires Reachable(s) && key in s.a.c.sentPackets && IsEntry(s.a.base, s.a.log, s.a.c.sentPackets[key], e)
    requires s.a.acked <= e
    ensures CanAct(s.a, FireResend(key)) <==> s.a.c.state == Connected && e == s.a.acked
  {
    SendOk(s);
    KeysAreNumbers(s, key);
    FireExact(s.a.c, key);
    FirstIsNext(s.a, key, e);
    hide Wrap, IsFirstDropped, SendInv, End, IsEntry;
  }

  lemma KeysAreNumbers(s: System, key: u32)
    requires Reachable(s) && key in s.a.c.sentPackets
    ensures s.a.c.sentPackets[key].sequenceNumber == key
  {
    ReachableInv(s);
  }

  lemma FirstIsNext(n: Node, key: u32, e: nat)
    requires SendInv(n) && key in n.c.sentPackets && n.c.sentPackets[key].sequenceNumber == key
    requires IsEntry(n.base, n.log, n.c.sentPackets[key], e) && n.acked <= e
    ensures Add(n.c.peerAckNumber, 1) == key <==> e == n.acked
  {
    WrapAddSmall(End(n.base, n.log, n.acked), 1);
    EndBetween(n.base, n.log, n.acked, e);
    EndBetween(n.base, n.log, e, |n.log|);
    WrapInjective(End(n.base, n.log, e) + 1, End(n.base, n.log, n.acked) + 1);
    if n.acked < e {
      EndMonotone(n.base, n.log, n.acked, e);
    }
    hide Wrap, IsFirstDropped;
  }

  /** Every packet a step makes or refreshes acknowledges what the receiver has and offers the room left;
      only the close packets, made when their event is taken, offer none. */
  lemma OffersAreCurrent(n: Node, act: Action, p: UdpPacket)
    requires CanAct(n, act) && p in Act(n, act).tags
    requires p !in n.tags || Act(n, act).tags[p] != n.tags[p]
    ensures p.ackNumber == n.c.ackNumber
    ensures p.window == if act.Pull? then 0 else RecvWindow(n.c)
    ensures act.Pull? ==> p.packetType == Close
  {
    match act
    case Write(buff) => WriteExact(n.c, buff);
    case Pull => PullExact(n.c);
    case MakeUpdate => EmptyDataCreated(n.c);
    case KeepAlive => EmptyDataCreated(n.c);
    case Reschedule(at) => hide Wrap, Add, RecvWindow, DecreaseWindow;
    case _ => hide RecvWindow, Wrap, Add, PartialCmp;
  }

  // Waiting tasks

  /** Only a valid data packet that is taken takes a registered task away, and only one that its
      acknowledgement or window wakes. */
  predicate WokenBy(c: Conn, act: Action, w: u32) {
    act.Receive? && Genuine(c, act.d.data) && Parse(act.d.data).value.packetType == Data
    && Wakes(c, Parse(act.d.data).value, w)
  }

  lemma TasksKept(n: Node, act: Action, w: u32)
    requires CanAct(n, act)
    ensures multiset(Act(n, act).c.windowWakers)[w] >= multiset(n.c.windowWakers)[w] || WokenBy(n.c, act, w)
  {
    hide Parse, RecvWindow, Wrap, Add, PartialCmp, Wakes, RecvProcessPacket;
    match act
    case Receive(d) =>
      OtherHandled(n.c, d.data);
      if Genuine(n.c, d.data) && Parse(d.data).value.packetType == Data {
        DataHandled(n.c, d.data);
      }
    case _ =>
  }

  ghost predicate WokenDuring(s: System, ofA: bool, moves: seq<Move>, w: u32)
    decreases moves
  {
    moves != [] && CanMove(s, moves[0]) &&
    (|| (moves[0].byA == ofA && WokenBy(Side(s, ofA).c, moves[0].act, w))
     || WokenDuring(Moved(s, moves[0]), ofA, moves[1..], w))
  }

  /** No run loses a task that waits for the window: it stays registered until a datagram wakes it. */
  lemma {:induction false} NoTaskLost(s: System, ofA: bool, moves: seq<Move>, s': System, w: u32)
    requires Reaches(s, moves, s')
    ensures multiset(Side(s', ofA).c.windowWakers)[w] >= multiset(Side(s, ofA).c.windowWakers)[w]
            || WokenDuring(s, ofA, moves, w)
    decreases moves
  {
    hide WokenBy, Act, CanAct;
    if moves != [] {
      if moves[0].byA == ofA {
        TasksKept(Side(s, ofA), moves[0].act, w);
      }
      NoTaskLost(Moved(s, moves[0]), ofA, moves[1..], s', w);
    }
  }
}
