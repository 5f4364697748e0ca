/**
 What the operations on the connection variables do, said in terms of the fields before and after
 (tunshell-client/src/p2p/udp/{receiver,sender,resender,congestion,connection,orchestrator}.rs).
 */
module ConnectionLaws {
  import opened Wrappers
  import opened SeqNumber
  import opened Packet
  import opened Connection
  import opened Congestion

  // Receiving

  predicate Genuine(c: Conn, data: seq<byte>) {
    Parse(data).Ok? && ChecksumValid(c.config.hash, Parse(data).value)
  }

  /** A data packet is taken unless it carries bytes that lie outside the window or overlap what is
      buffered. */
  ghost predicate Takes(c: Conn, p: UdpPacket) {
    p.payload == [] ||
    (&& Gt(p.sequenceNumber, c.ackNumber)
     && !Gt(Add(p.sequenceNumber, p.length), Add(c.ackNumber, c.config.recvWindow))
     && forall o :: o in c.recvPackets ==> !Overlaps(p, o))
  }

  lemma {:induction false} OverlapFound(ps: seq<UdpPacket>, p: UdpPacket)
    ensures FirstOverlap(ps, p).None? <==> forall o :: o in ps ==> !Overlaps(p, o)
    decreases ps
  {
    hide Overlaps;
    if ps != [] {
      OverlapFound(ps[1..], p);
      assert forall o :: o in ps <==> o == ps[0] || o in ps[1..];
    }
  }

  /** The end of the send window that senders compare with. */
  function WindowEnd(ack: u32, peerWindow: u32, transitWindow: u32): u32 {
    Add(ack, if peerWindow < transitWindow then peerWindow else transitWindow)
  }

  /** Whether a task that waits for w is woken when the acknowledgement and window of p arrive: by a
      newer acknowledgement, still with the old window, or by a wider window. */
  predicate Wakes(c: Conn, p: UdpPacket, w: u32) {
    var newer := Gt(p.ackNumber, c.peerAckNumber);
    || (newer && Lt(w, WindowEnd(p.ackNumber, c.peerWindow, c.transitWindow)))
    || (p.window > c.peerWindow
        && Lt(w, WindowEnd(if newer then p.ackNumber else c.peerAckNumber, p.window, c.transitWindow)))
  }

  lemma {:induction false} StillWaiting(wakers: seq<u32>, max: u32, w: u32)
    ensures multiset(Waiting(wakers, max))[w] == if Lt(w, max) then 0 else multiset(wakers)[w]
    decreases wakers
  {
    hide PartialCmp;
    if wakers != [] {
      StillWaiting(wakers[1..], max, w);
      assert wakers == [wakers[0]] + wakers[1..];
    }
  }

  /** Acknowledgement and window of p have been taken over; everything else of the sender is as before. */
  ghost predicate SenderUpdated(c: Conn, c': Conn, p: UdpPacket) {
    && c'.config == c.config && c'.state == c.state
    && c'.transitWindow == c.transitWindow && c'.sequenceNumber == c.sequenceNumber
    && c'.peerWindow == p.window
    && c'.peerAckNumber == (if Gt(p.ackNumber, c.peerAckNumber) then p.ackNumber else c.peerAckNumber)
    && (forall key :: key in c'.sentPackets <==>
          key in c.sentPackets && (Gt(p.ackNumber, c.peerAckNumber) ==> Gt(key, p.ackNumber)))
    && (forall key :: key in c'.sentPackets ==> c'.sentPackets[key] == c.sentPackets[key])
    && (forall w :: multiset(c'.windowWakers)[w] == if Wakes(c, p, w) then 0 else multiset(c.windowWakers)[w])
  }

  ghost predicate SameReceiver(c: Conn, c': Conn) {
    c'.ackNumber == c.ackNumber && c'.recvPackets == c.recvPackets && c'.reassembled == c.reassembled
  }

  lemma AckAndWindow(c: Conn, p: UdpPacket)
    ensures var c' := UpdatePeerWindow(UpdatePeerAck(c, p.ackNumber), p.window);
            SenderUpdated(c, c', p) && SameReceiver(c, c') && c'.events == c.events
  {
    hide Add, PartialCmp, Waiting;
    var c1 := UpdatePeerAck(c, p.ackNumber);
    forall w
      ensures multiset(UpdatePeerWindow(c1, p.window).windowWakers)[w]
              == if Wakes(c, p, w) then 0 else multiset(c.windowWakers)[w]
    {
      StillWaiting(c.windowWakers, MaxSend(c.(peerAckNumber := p.ackNumber)), w);
      StillWaiting(c1.windowWakers, MaxSend(c1.(peerWindow := p.window)), w);
    }
  }

  lemma TakenPacket(c: Conn, p: UdpPacket)
    ensures RecvProcessPacket(c, p).1.Ok? <==> Takes(c, p)
    ensures RecvProcessPacket(c, p).1.Err? ==> RecvProcessPacket(c, p).0 == c
    ensures p.payload == [] ==> RecvProcessPacket(c, p) == (c, Ok(0))
    ensures var c' := RecvProcessPacket(c, p).0;
            c' == c.(ackNumber := c'.ackNumber, recvPackets := c'.recvPackets, reassembled := c'.reassembled,
                     events := c'.events)
  {
    OverlapFound(c.recvPackets, p);
    CmpAntisymmetric(p.sequenceNumber, c.ackNumber);
    hide Add, PartialCmp, Overlaps, FirstOverlap, Reassemble;
  }

  lemma {:induction false} FirstFound(ps: seq<UdpPacket>, p: UdpPacket)
    requires FirstOverlap(ps, p).Some?
    ensures exists i :: 0 <= i < |ps| && FirstOverlap(ps, p) == Some(ps[i]) && Overlaps(p, ps[i])
                        && forall j :: 0 <= j < i ==> !Overlaps(p, ps[j])
    decreases ps
  {
    hide Overlaps;
    if !Overlaps(p, ps[0]) {
      FirstFound(ps[1..], p);
      var i :| 0 <= i < |ps[1..]| && FirstOverlap(ps[1..], p) == Some(ps[1..][i]) && Overlaps(p, ps[1..][i])
               && forall j :: 0 <= j < i ==> !Overlaps(p, ps[1..][j]);
      forall j | 0 <= j < i + 1 ensures !Overlaps(p, ps[j]) {
        assert j > 0 ==> ps[j] == ps[1..][j - 1];
      }
      assert ps[i + 1] == ps[1..][i];
    }
  }

  /** The error of a rejected packet names the window, or the first buffered packet it overlaps. */
  lemma RejectedExact(c: Conn, p: UdpPacket)
    requires !Takes(c, p)
    ensures var end, windowEnd := Add(p.sequenceNumber, p.length), Add(c.ackNumber, c.config.recvWindow);
            var outside := !Gt(p.sequenceNumber, c.ackNumber) || Gt(end, windowEnd);
            var r := RecvProcessPacket(c, p).1;
            && (outside ==> r == Err(OutOfWindow(p.sequenceNumber, end, c.ackNumber, windowEnd)))
            && (!outside ==>
                  exists i :: (
                    && 0 <= i < |c.recvPackets| && Overlaps(p, c.recvPackets[i])
                    && (forall j :: 0 <= j < i ==> !Overlaps(p, c.recvPackets[j]))
                    && var o := c.recvPackets[i];
                    r == Err(OverlapsOtherMessage(p.sequenceNumber, end, o.sequenceNumber,
                                                  Add(o.sequenceNumber, o.length)))))
  {
    TakenPacket(c, p);
    hide Add, PartialCmp, Overlaps, FirstOverlap;
    if FirstOverlap(c.recvPackets, p).Some? {
      FirstFound(c.recvPackets, p);
    }
  }

  /** A valid data packet without payload changes the sender and nothing else. */
  lemma EmptyDataHandled(c: Conn, data: seq<byte>)
    requires Genuine(c, data) && Parse(data).value.packetType == Data && Parse(data).value.payload == []
    ensures var (c', r) := HandleRecv(c, data);
            r == Ok(()) && SenderUpdated(c, c', Parse(data).value) && SameReceiver(c, c') && c'.events == c.events
  {
    hide Parse;
    TakenPacket(c, Parse(data).value);
    AckAndWindow(c, Parse(data).value);
    hide RecvProcessPacket, UpdatePeerAck, UpdatePeerWindow, SenderUpdated, Takes;
  }

  /** Any valid data packet that is taken does the same to the sender; one that is not does nothing. */
  lemma DataHandled(c: Conn, data: seq<byte>)
    requires Genuine(c, data) && Parse(data).value.packetType == Data
    ensures HandleRecv(c, data).1 == Ok(())
    ensures var c', p := HandleRecv(c, data).0, Parse(data).value;
            if Takes(c, p) then SenderUpdated(c, c', p) else c' == c
  {
    hide Parse, RecvProcessPacket, UpdatePeerAck, UpdatePeerWindow, Takes, PartialCmp, SenderUpdated;
    var p := Parse(data).value;
    var c1 := RecvProcessPacket(c, p).0;
    TakenPacket(c, p);
    AckAndWindow(c1, p);
    SameSender(c, c1, UpdatePeerWindow(UpdatePeerAck(c1, p.ackNumber), p.window), p);
  }

  lemma SameSender(c: Conn, c1: Conn, c': Conn, p: UdpPacket)
    requires SenderUpdated(c1, c', p)
    requires c1 == c.(ackNumber := c1.ackNumber, recvPackets := c1.recvPackets, reassembled := c1.reassembled,
                      events := c1.events)
    ensures SenderUpdated(c, c', p)
  {
    hide PartialCmp, Add;
  }

  /** What is unparsable or corrupt is ignored; a close packet, or an open packet that comes late, ends
      a connected connection and stops the receive loop. */
  lemma OtherHandled(c: Conn, data: seq<byte>)
    ensures !Genuine(c, data) ==> HandleRecv(c, data) == (c, Ok(()))
    ensures Genuine(c, data) && Parse(data).value.packetType != Data ==>
              && HandleRecv(c, data).0 == (if c.state == Connected then c.(state := Disconnected) else c)
              && HandleRecv(c, data).1 ==
                   Err(if Parse(data).value.packetType == Close then ClosePacketReceived else UnexpectedPacketType)
  {
    hide Parse;
  }

  /** What is received is how far the acknowledgement advances, for packets whose length says how long
      they are. */
  lemma {:induction false} AdvancedBy(ack: u32, ps: seq<UdpPacket>)
    requires forall q :: q in ps ==> q.length == |q.payload|
    ensures var r := Reassemble(ack, ps); r.ack == Add(ack, r.advanced)
    decreases ps
  {
    hide Wrap, Add;
    if ps != [] && ps[0].sequenceNumber == Add(ack, 1) {
      AdvancedBy(EndSeq(ps[0]), ps[1..]);
      var rest := Reassemble(EndSeq(ps[0]), ps[1..]).advanced;
      Sums(ack, ps[0].length, rest);
    } else {
      AddZero(ack);
    }
  }

  /** The result for a packet that is taken is how far the acknowledgement moved. */
  lemma TakenAdvances(c: Conn, p: UdpPacket)
    requires Takes(c, p) && p.length == |p.payload| && forall q :: q in c.recvPackets ==> q.length == |q.payload|
    ensures var (c', r) := RecvProcessPacket(c, p); r.Ok? && c'.ackNumber == Add(c.ackNumber, r.value)
  {
    TakenPacket(c, p);
    var at := InsertAt(c.recvPackets, p);
    var ps := c.recvPackets[..at] + [p] + c.recvPackets[at..];
    forall q | q in ps ensures q.length == |q.payload| {
      assert q == p || q in c.recvPackets;
    }
    AdvancedBy(c.ackNumber, ps);
    AddZero(c.ackNumber);
    hide Add, PartialCmp, Overlaps, FirstOverlap, Reassemble, InsertAt;
  }

  lemma Sums(ack: u32, length: u16, rest: u32)
    ensures Add(Add(Add(ack, 1), length), rest) == Add(ack, Wrap(1 + length + rest))
  {
    AddAssociates(ack, 1, length);
    AddAssociates(ack, 1 + length, rest);
  }

  // Reading

  /** How many bytes the packets take on the wire. */
  function WireSize(ps: seq<UdpPacket>): nat {
    if ps == [] then 0 else |ToVec(ps[0])| + WireSize(ps[1..])
  }

  lemma {:induction false} WireSizeGrows(ps: seq<UdpPacket>, p: UdpPacket)
    ensures WireSize(ps + [p]) == WireSize(ps) + |ToVec(p)|
    decreases ps
  {
    hide ToVec;
    if ps == [] {
      assert ps + [p] == [p] && [p][1..] == [];
    } else {
      assert (ps + [p])[1..] == ps[1..] + [p];
      WireSizeGrows(ps[1..], p);
    }
  }

  lemma {:induction false} WireSizeIsSum(ps: seq<UdpPacket>)
    ensures WireSize(ps) == SumLen(ps)
    decreases |ps|
  {
    if ps != [] {
      var front, last := ps[..|ps| - 1], ps[|ps| - 1];
      assert ps == front + [last];
      WireSizeGrows(front, last);
      WireSizeIsSum(front);
    }
  }

  /** What the receiver offers and what it buffers, as it would be on the wire, make up its window;
      nothing is offered when more is buffered. */
  lemma OfferExact(c: Conn)
    requires WireSize(c.recvPackets) + |c.reassembled| < TWO32
    ensures var buffered := WireSize(c.recvPackets) + |c.reassembled|;
            RecvWindow(c) + buffered == if buffered > c.config.recvWindow then buffered else c.config.recvWindow
  {
    WireSizeIsSum(c.recvPackets);
  }

  /** A read gives the first bytes waiting, as many as there are room and bytes for, and leaves the
      rest; an update is queued exactly when the offer passes the size of a packet from below. */
  lemma ReadExact(c: Conn, len: nat)
    requires c.state == Connected && c.reassembled != []
    ensures var (c', r) := PollRead(c, len);
            && r.Ready? && r.value.Ok?
            && r.value.value + c'.reassembled == c.reassembled
            && |r.value.value| == (if len < |c.reassembled| then len else |c.reassembled|)
            && (len > 0 ==> r.value.value != [])
            && c' == c.(reassembled := c'.reassembled, events := c'.events)
            && c'.events == c.events + if RecvWindow(c) < 576 <= RecvWindow(c') then [WindowUpdate] else []
  {
    hide Wrap, SumLen;
    var k := if len < |c.reassembled| then len else |c.reassembled|;
    assert c.reassembled[..k] + c.reassembled[k..] == c.reassembled;
  }

  lemma ReadElse(c: Conn, len: nat)
    requires c.state != Connected || c.reassembled == []
    ensures PollRead(c, len) == (c, if c.state != Connected then Ready(Err(NotConnected)) else Pending)
  {
  }

  // Writing

  /** A write is refused, waits for the number after the last one, or puts as many bytes as a packet
      holds into a packet for the channel. */
  lemma WriteExact(c: Conn, buff: seq<byte>)
    requires buff != []
    ensures var (c', r) := PollWrite(c, buff);
            var n := if |buff| < 557 then |buff| else 557;
            var end := WindowEnd(c.peerAckNumber, c.peerWindow, c.transitWindow);
            if c.state != Connected then (c', r) == (c, Ready(Err(NotConnected)))
            else if !Lt(c.sequenceNumber, end) then
              r == Pending && c' == c.(windowWakers := c.windowWakers + [Add(c.sequenceNumber, 1)])
            else
              && r == Ready(Ok(n)) && |c'.events| == |c.events| + 1
              && c'.events[..|c.events|] == c.events && c'.events[|c.events|].Send?
              && c' == c.(sequenceNumber := Add(Add(c.sequenceNumber, 1), n), events := c'.events)
              && var p := c'.events[|c.events|].packet; IsData(c, p, Add(c.sequenceNumber, 1), buff[..n])
  {
    hide Wrap, PartialCmp;
  }

  /** A fresh data packet: the latest acknowledgement and offer, and a valid checksum. */
  predicate IsData(c: Conn, p: UdpPacket, number: u32, payload: seq<byte>) {
    && p.packetType == Data && p.sequenceNumber == number && p.ackNumber == c.ackNumber
    && p.window == RecvWindow(c) && p.payload == payload && p.length == |payload|
    && ChecksumValid(c.config.hash, p) && p.resendCount == 0
  }

  /** An empty data packet consumes no number and changes nothing. */
  lemma EmptyDataCreated(c: Conn)
    ensures CreateData(c, []).0 == c && IsData(c, CreateData(c, []).1, c.sequenceNumber, [])
  {
    AddZero(c.sequenceNumber);
    hide RecvWindow;
  }

  /** Taking an event gives its packet, or a close packet under the next number, or nothing. */
  lemma PullExact(c: Conn)
    requires c.events != []
    ensures var (c', r) := PullEvent(c); var ev := c.events[0];
            && (ev.Send? || ev.Resend? ==> r == Some(ev.packet) && c' == c.(events := c.events[1..]))
            && (ev.AckUpdate? || ev.WindowUpdate? ==> r == None && c' == c.(events := c.events[1..]))
            && (ev.CloseEvent? ==>
                  && c' == c.(events := c.events[1..], sequenceNumber := Add(c.sequenceNumber, 1))
                  && r.Some? && r.value.packetType == Close && r.value.sequenceNumber == Add(c.sequenceNumber, 1)
                  && r.value.ackNumber == c.ackNumber && r.value.window == 0 && r.value.payload == []
                  && ChecksumValid(c.config.hash, r.value))
  {
    AddZero(Add(c.sequenceNumber, 1));
    hide Wrap, Add;
  }

  /** A packet may be sent when it is a close packet or ends inside the send window; otherwise its end
      is left with the waiting tasks. */
  lemma WaitExact(c: Conn, p: UdpPacket)
    ensures var (c', r) := PollCanSend(c, p); var end := Add(p.sequenceNumber, p.length);
            if p.packetType == Close || Lt(end, WindowEnd(c.peerAckNumber, c.peerWindow, c.transitWindow)) then
              c' == c && r == Ready(())
            else c' == c.(windowWakers := c.windowWakers + [end]) && r == Pending
  {
    hide PartialCmp;
  }

  /** After a data packet has left the window is larger, and the packet is remembered under its number
      if it carries bytes; after a close packet the connection is over. */
  lemma SentExact(c: Conn, p: UdpPacket)
    requires p.packetType != Open && WindowInRange(c.transitWindow)
    ensures var c' := AfterSend(c, p);
            if p.packetType == Close then c' == if c.state == Connected then c.(state := Disconnected) else c
            else
              && c' == c.(transitWindow := c'.transitWindow, sentPackets := c'.sentPackets)
              && c'.transitWindow == c.transitWindow + 576 / (c.transitWindow / 576)
              && c'.sentPackets == if p.payload == [] then c.sentPackets else c.sentPackets[p.sequenceNumber := p]
  {
    WindowStep(c.transitWindow);
  }

  // Resending

  /** A resend task that took its packet queues a close exactly when the limit is reached. Otherwise it
      queues the packet with one more resend, today's acknowledgement and offer and a valid checksum,
      and the window shrinks by a quarter, but not below one packet. */
  lemma ResendExact(c: Conn, p: UdpPacket)
    requires WindowInRange(c.transitWindow)
    ensures var c', count := ScheduleResend(c, p), if p.resendCount == 255 then 0 else p.resendCount + 1; // 8 bits
            && |c'.events| == |c.events| + 1 && c'.events[..|c.events|] == c.events
            && var ev := c'.events[|c.events|];
            if count >= c.config.packetResendLimit then
              ev == CloseEvent && c' == c.(events := c'.events)
            else
              && ev.Resend? && c' == c.(events := c'.events, transitWindow := c'.transitWindow)
              && ev.packet == p.(resendCount := count, ackNumber := c.ackNumber, window := RecvWindow(c),
                                 checksum := ev.packet.checksum)
              && ChecksumValid(c.config.hash, ev.packet)
              && c'.transitWindow == if c.transitWindow * 3 / 4 < 576 then 576 else c.transitWindow * 3 / 4
  {
    WindowStep(c.transitWindow);
    hide RecvWindow;
  }

  /** A resend task fires exactly on the packet after the acknowledged ones, and takes it. */
  lemma FireExact(c: Conn, key: u32)
    ensures IsFirstDropped(c, key) <==> c.state == Connected && key in c.sentPackets && key == Add(c.peerAckNumber, 1)
    ensures IsFirstDropped(c, key) ==>
              var (c', p) := TakeDropped(c, key);
              && p == c.sentPackets[key] && c' == c.(sentPackets := c'.sentPackets)
              && c'.sentPackets == map k | k in c.sentPackets && k != key :: c.sentPackets[k]
  {
  }

  // The checksum

  /** Two packets have the same checksum under every hash exactly when they agree in every field but
      the checksum itself and the resend count. */
  lemma ChecksumCovers(p: UdpPacket, q: UdpPacket)
    ensures (forall h: Hash :: Checksum(h, p) == Checksum(h, q)) <==>
            p == q.(checksum := p.checksum, resendCount := p.resendCount)
  {
    var h: Hash := (t, s, a, w, l, b) =>
      if UdpPacket(t, s, a, w, l, p.checksum, b, p.resendCount) == p then 0 else 1;
    assert Checksum(h, p) == 0;
    if forall h: Hash :: Checksum(h, p) == Checksum(h, q) {
      assert Checksum(h, q) == 0;
    }
  }
}
