/**
 What every run of the two-party system keeps. The chain of argument is the one the design relies
 on: the transit window is capped, so the unacknowledged span is capped, so wrapping comparisons are
 faithful, so the receiver takes exactly the next bytes.
 */
module UdpSafety {
  import opened Wrappers
  import opened SeqNumber
  import opened Packet
  import opened Connection
  import opened Congestion
  import opened Stream
  import opened UdpSystem

  // 332352 bytes of window, then one packet more: its number and its payload
  const MAX_IN_FLIGHT := WINDOW_CAP + MAX_PAYLOAD

  /** n as a sender. */
  ghost predicate SendInv(n: Node) {
    && ShortEntries(n.log)
    && n.acked <= |n.log|
    && n.c.sequenceNumber == Wrap(End(n.base, n.log, |n.log|))
    && n.c.peerAckNumber == Wrap(End(n.base, n.log, n.acked))
    && WindowInRange(n.c.transitWindow)
    && n.closes <= MAX_CLOSES
    && End(n.base, n.log, |n.log|) - End(n.base, n.log, n.acked) <= MAX_IN_FLIGHT + n.closes
    && n.accepted == Bytes(n.log, |n.log|)
  }

  /** n as a receiver of peer. */
  ghost predicate RecvInv(n: Node, peer: Node) {
    exists idx :: RecvWith(n, peer, idx)
  }

  ghost predicate RecvWith(n: Node, peer: Node, idx: seq<nat>) {
    && Receiving(peer.base, peer.log, n.got, n.c, idx)
    && n.drained + n.c.reassembled == Bytes(peer.log, n.got)
    && peer.acked <= n.got
  }

  /** The packet carries the entry of its tag, if any, and acknowledges what its tag says. */
  ghost predicate TagOk(n: Node, peer: Node, p: UdpPacket, t: Tag) {
    && p.packetType != Open
    && p.length == |p.payload|
    && ChecksumValid(n.c.config.hash, p)
    && (p.payload != [] ==> p.packetType == Data && IsEntry(n.base, n.log, p, t.entry))
    && t.acked <= n.got <= |peer.log|
    && p.ackNumber == Wrap(End(peer.base, peer.log, t.acked))
  }

  ghost predicate TagsInv(n: Node, peer: Node) {
    forall p :: p in n.tags ==> TagOk(n, peer, p, n.tags[p])
  }

  /** Every packet the node still has is one it created. */
  ghost predicate HeldInv(n: Node) {
    && (forall p :: p in n.futures ==> p in n.tags)
    && (!n.slot.Idle? ==> n.slot.packet in n.tags)
    && (forall p :: p in n.taken ==> p in n.tags)
    && (forall e :: e in n.c.events && (e.Send? || e.Resend?) ==> e.packet in n.tags)
    && (forall key :: key in n.c.sentPackets ==>
          var p := n.c.sentPackets[key]; p in n.tags && p.sequenceNumber == key && p.payload != [])
  }

  ghost predicate NetInv(n: Node, peer: Node, out: set<Datagram>) {
    forall d :: d in out ==> Parse(d.data).Ok? && TagOk(n, peer, Parse(d.data).value, d.tag)
  }

  ghost predicate LocalInv(n: Node, peer: Node) {
    SendInv(n) && RecvInv(n, peer) && TagsInv(n, peer) && HeldInv(n)
  }

  ghost predicate PairInv(n: Node, peer: Node, out: set<Datagram>, inbound: set<Datagram>) {
    && LocalInv(n, peer) && LocalInv(peer, n)
    && NetInv(n, peer, out) && NetInv(peer, n, inbound)
  }

  // Frames

  /** n' is a later stage of n. */
  ghost predicate Grows(n: Node, n': Node, peer: Node) {
    && n'.base == n.base && n.log <= n'.log && ShortEntries(n'.log)
    && n.got <= n'.got <= |peer.log|
    && n'.c.config == n.c.config
    && n'.acked <= peer.got
  }

  lemma ReceivingExtends(base: nat, log: Log, more: Log, k: nat, c: Conn, idx: seq<nat>)
    requires Receiving(base, log, k, c, idx) && log <= more && ShortEntries(more)
    ensures Receiving(base, more, k, c, idx)
  {
    LogExtends(base, log, more, k);
    ChainExtends(base, log, more, k - 1, End(base, log, k) + c.config.recvWindow, c.recvPackets, idx);
  }

  lemma TagOkGrows(n: Node, n': Node, peer: Node, p: UdpPacket, t: Tag)
    requires Grows(n, n', peer) && TagOk(n, peer, p, t)
    ensures TagOk(n', peer, p, t)
  {
    if p.payload != [] {
      LogExtends(n.base, n.log, n'.log, t.entry);
    }
  }

  lemma PeerTagOkGrows(n: Node, n': Node, peer: Node, p: UdpPacket, t: Tag)
    requires Grows(n, n', peer) && TagOk(peer, n, p, t)
    ensures TagOk(peer, n', p, t)
  {
    LogExtends(n.base, n.log, n'.log, t.acked);
  }

  /** The other side's invariants survive any growth of this side. */
  lemma PeerFrame(n: Node, n': Node, peer: Node, out: set<Datagram>, inbound: set<Datagram>)
    requires PairInv(n, peer, out, inbound) && Grows(n, n', peer)
    ensures LocalInv(peer, n') && NetInv(n', peer, out) && NetInv(peer, n', inbound)
    ensures forall p :: p in n.tags ==> TagOk(n', peer, p, n.tags[p])
  {
    var idx :| RecvWith(peer, n, idx);
    ReceivingExtends(n.base, n.log, n'.log, peer.got, peer.c, idx);
    LogExtends(n.base, n.log, n'.log, peer.got);
    assert RecvWith(peer, n', idx);
    forall p | p in n.tags ensures TagOk(n', peer, p, n.tags[p]) {
      TagOkGrows(n, n', peer, p, n.tags[p]);
    }
    forall p | p in peer.tags ensures TagOk(peer, n', p, peer.tags[p]) {
      PeerTagOkGrows(n, n', peer, p, peer.tags[p]);
    }
    forall d | d in out ensures Parse(d.data).Ok? && TagOk(n', peer, Parse(d.data).value, d.tag) {
      TagOkGrows(n, n', peer, Parse(d.data).value, d.tag);
    }
    forall d | d in inbound ensures Parse(d.data).Ok? && TagOk(peer, n', Parse(d.data).value, d.tag) {
      PeerTagOkGrows(n, n', peer, Parse(d.data).value, d.tag);
    }
  }

  /** A step that moves no stream: neither side's positions change. */
  ghost predicate SameStream(n: Node, n': Node) {
    && n'.base == n.base && n'.log == n.log && n'.closes == n.closes
    && n'.got == n.got && n'.acked == n.acked && n'.accepted == n.accepted
    && n'.c.config == n.c.config
    && n'.c.sequenceNumber == n.c.sequenceNumber && n'.c.ackNumber == n.c.ackNumber
    && n'.c.peerAckNumber == n.c.peerAckNumber && n'.c.recvPackets == n.c.recvPackets
    && n'.drained + n'.c.reassembled == n.drained + n.c.reassembled
    && WindowInRange(n'.c.transitWindow)
  }

  lemma QuietStep(n: Node, n': Node, peer: Node)
    requires LocalInv(n, peer) && RecvInv(peer, n) && SameStream(n, n') && n'.tags == n.tags
    requires HeldInv(n')
    ensures LocalInv(n', peer) && Grows(n, n', peer)
  {
    var idx :| RecvWith(n, peer, idx);
    assert RecvWith(n', peer, idx);
    forall p | p in n'.tags ensures TagOk(n', peer, p, n'.tags[p]) {
      assert TagOk(n, peer, p, n.tags[p]);
    }
  }

  lemma QuietCreate(n: Node, n': Node, peer: Node, p: UdpPacket, t: Tag)
    requires LocalInv(n, peer) && RecvInv(peer, n) && SameStream(n, n')
    requires n'.tags == n.tags[p := t] && TagOk(n, peer, p, t)
    requires HeldInv(n')
    ensures LocalInv(n', peer) && Grows(n, n', peer)
  {
    var idx :| RecvWith(n, peer, idx);
    assert RecvWith(n', peer, idx);
    forall q | q in n'.tags ensures TagOk(n', peer, q, n'.tags[q]) {
      assert q != p ==> TagOk(n, peer, q, n.tags[q]);
    }
  }

  lemma GotBound(n: Node, peer: Node)
    requires RecvInv(n, peer)
    ensures peer.acked <= n.got <= |peer.log| && n.c.ackNumber == Wrap(End(peer.base, peer.log, n.got))
  {
  }

  // Steps that create no entry

  lemma EmptyPacketOk(n: Node, peer: Node)
    requires LocalInv(n, peer)
    ensures var (c', p) := CreateData(n.c, []);
            c' == n.c && TagOk(n, peer, p, Tag(0, n.got))
  {
    GotBound(n, peer);
    WrapAddSmall(End(n.base, n.log, |n.log|), 0);
  }

  lemma UpdatePreserves(n: Node, peer: Node)
    requires LocalInv(n, peer) && RecvInv(peer, n)
    ensures LocalInv(DoUpdate(n), peer) && Grows(n, DoUpdate(n), peer)
  {
    EmptyPacketOk(n, peer);
    QuietCreate(n, DoUpdate(n), peer, CreateData(n.c, []).1, Tag(0, n.got));
  }

  lemma KeepAlivePreserves(n: Node, peer: Node)
    requires LocalInv(n, peer) && RecvInv(peer, n) && n.slot.Idle?
    ensures LocalInv(DoKeepAlive(n), peer) && Grows(n, DoKeepAlive(n), peer)
  {
    EmptyPacketOk(n, peer);
    QuietCreate(n, DoKeepAlive(n), peer, CreateData(n.c, []).1, Tag(0, n.got));
  }

  lemma ReadPreserves(n: Node, peer: Node, len: nat)
    requires LocalInv(n, peer) && RecvInv(peer, n)
    ensures LocalInv(DoRead(n, len), peer) && Grows(n, DoRead(n, len), peer)
  {
    hide Wrap, Add, RecvWindow, RecvInv, TagsInv, Grows;
    var k := Min(|n.c.reassembled|, len);
    assert n.drained + n.c.reassembled[..k] + n.c.reassembled[k..] == n.drained + n.c.reassembled;
    QuietStep(n, DoRead(n, len), peer);
  }

  lemma WaitPreserves(n: Node, peer: Node, at: nat)
    requires LocalInv(n, peer) && RecvInv(peer, n) && at < |n.futures|
    ensures LocalInv(DoWait(n, at), peer) && Grows(n, DoWait(n, at), peer)
  {
    QuietStep(n, DoWait(n, at), peer);
  }

  lemma ReleasePreserves(n: Node, peer: Node, at: nat)
    requires LocalInv(n, peer) && RecvInv(peer, n) && at < |n.futures|
    ensures LocalInv(DoRelease(n, at), peer) && Grows(n, DoRelease(n, at), peer)
  {
    QuietStep(n, DoRelease(n, at), peer);
  }

  lemma SentPreserves(n: Node, peer: Node, out: set<Datagram>)
    requires LocalInv(n, peer) && RecvInv(peer, n) && NetInv(n, peer, out) && n.slot.Sending?
    ensures LocalInv(Act(n, SocketSend), peer) && Grows(n, Act(n, SocketSend), peer)
    ensures NetInv(Act(n, SocketSend), peer, Outbound(n, out, SocketSend))
  {
    hide Wrap, Add, Parse, ToVec;
    var p := n.slot.packet;
    assert TagOk(n, peer, p, n.tags[p]);
    ParseToVec(p, []);
    assert ToVec(p) + [] == ToVec(p);
    QuietStep(n, n.(slot := Sent(n.slot.packet)), peer);
  }

  lemma SettlePreserves(n: Node, peer: Node)
    requires LocalInv(n, peer) && RecvInv(peer, n) && CanAct(n, Settle)
    ensures LocalInv(DoSettle(n), peer) && Grows(n, DoSettle(n), peer)
  {
    hide Wrap, Add, IncreaseWindow, RecvInv, TagsInv, Grows;
    WindowStep(n.c.transitWindow);
    QuietStep(n, DoSettle(n), peer);
  }

  /** The panic conditions are never met. */
  lemma NeverPanics(n: Node, peer: Node)
    requires LocalInv(n, peer)
    ensures !SettlePanics(n)
  {
    if n.slot.Sent? {
      assert TagOk(n, peer, n.slot.packet, n.tags[n.slot.packet]);
    }
  }

  lemma FirePreserves(n: Node, peer: Node, key: u32)
    requires LocalInv(n, peer) && RecvInv(peer, n) && IsFirstDropped(n.c, key)
    ensures LocalInv(DoFire(n, key), peer) && Grows(n, DoFire(n, key), peer)
  {
    hide Wrap, Add;
    QuietStep(n, DoFire(n, key), peer);
  }

  lemma RefreshedOk(n: Node, peer: Node, p: UdpPacket)
    requires LocalInv(n, peer) && p in n.tags
    ensures var q := p.(resendCount := (p.resendCount + 1) % 256);
            TagOk(n, peer, Refreshed(n.c, q), Tag(n.tags[p].entry, n.got))
  {
    GotBound(n, peer);
    assert TagOk(n, peer, p, n.tags[p]);
  }

  lemma ReschedulePreserves(n: Node, peer: Node, at: nat)
    requires LocalInv(n, peer) && RecvInv(peer, n) && at < |n.taken|
    ensures LocalInv(DoReschedule(n, at), peer) && Grows(n, DoReschedule(n, at), peer)
  {
    hide Wrap, Add, TagOk, RecvInv;
    WindowStep(n.c.transitWindow);
    var p, n' := n.taken[at], DoReschedule(n, at);
    RefreshedOk(n, peer, p);
    var q := p.(resendCount := (p.resendCount + 1) % 256);
    if q.resendCount >= n.c.config.packetResendLimit {
      QuietStep(n, n', peer);
    } else {
      QuietCreate(n, n', peer, Refreshed(n.c, q), Tag(n.tags[p].entry, n.got));
    }
  }

  lemma PullPreserves(n: Node, peer: Node)
    requires LocalInv(n, peer) && RecvInv(peer, n) && n.c.events != [] && !n.c.events[0].CloseEvent?
    ensures LocalInv(DoPull(n), peer) && Grows(n, DoPull(n), peer)
  {
    assert n.c.events[0] in n.c.events;
    QuietStep(n, DoPull(n), peer);
  }

  lemma DisconnectPreserves(n: Node, peer: Node)
    requires LocalInv(n, peer) && RecvInv(peer, n)
    ensures var n' := n.(c := TryDisconnect(n.c)); LocalInv(n', peer) && Grows(n, n', peer)
  {
    QuietStep(n, n.(c := TryDisconnect(n.c)), peer);
  }

  // Steps that create an entry

  /** One new entry at the end of the log. */
  lemma LogGrows(base: nat, log: Log, entry: seq<byte>)
    ensures var more := log + [entry];
            && log <= more
            && End(base, more, |more|) == End(base, log, |log|) + 1 + |entry|
            && End(base, more, |log|) == End(base, log, |log|)
            && Bytes(more, |more|) == Bytes(log, |log|) + entry
  {
    LogExtends(base, log, log + [entry], |log|);
  }

  /** The congestion gate on positions: sending is allowed only short of the cap. */
  lemma GateExact(n: Node)
    requires SendInv(n)
    ensures IsCongested(n.c) <==>
            End(n.base, n.log, |n.log|) >= End(n.base, n.log, n.acked) + Min(n.c.peerWindow, n.c.transitWindow)
  {
    var limit := Min(n.c.peerWindow, n.c.transitWindow);
    WrapAddSmall(End(n.base, n.log, n.acked), limit);
    EndBetween(n.base, n.log, n.acked, |n.log|);
    CmpFaithful(End(n.base, n.log, |n.log|), End(n.base, n.log, n.acked) + limit);
  }

  /** A node whose log gains one entry keeps its invariants, if the packet for it is right. */
  lemma EntryStep(n: Node, n': Node, peer: Node, p: UdpPacket)
    requires LocalInv(n, peer) && RecvInv(peer, n) && |p.payload| <= MAX_PAYLOAD
    requires n'.log == n.log + [p.payload] && n'.tags == n.tags[p := Tag(if p.payload == [] then 0 else |n.log|, n.got)]
    requires n'.base == n.base && n'.got == n.got && n'.acked == n.acked && n'.drained == n.drained
    requires n'.accepted == n.accepted + p.payload
    requires n'.c == n.c.(sequenceNumber := n'.c.sequenceNumber, events := n'.c.events)
    requires n'.c.sequenceNumber == EndSeq(p) && p.sequenceNumber == Add(n.c.sequenceNumber, 1)
    requires p.packetType == (if p.payload == [] then Close else Data) && p.length == |p.payload|
    requires ChecksumValid(n.c.config.hash, p) && p.ackNumber == n.c.ackNumber
    requires n'.closes <= MAX_CLOSES
    requires End(n.base, n.log, |n.log|) + 1 + |p.payload| - End(n.base, n.log, n.acked) <= MAX_IN_FLIGHT + n'.closes
    requires HeldInv(n')
    ensures LocalInv(n', peer) && Grows(n, n', peer)
  {
    hide Wrap, Add;
    LogGrows(n.base, n.log, p.payload);
    LogExtends(n.base, n.log, n'.log, n.acked);
    GotBound(n, peer);
    WrapAddSmall(End(n.base, n.log, |n.log|), 1);
    WrapAddSmall(End(n.base, n.log, |n.log|) + 1, p.length);
    var idx :| RecvWith(n, peer, idx);
    assert RecvWith(n', peer, idx);
    forall q | q in n'.tags ensures TagOk(n', peer, q, n'.tags[q]) {
      if q != p {
        var t := n.tags[q];
        assert TagOk(n, peer, q, t);
        if q.payload != [] {
          LogExtends(n.base, n.log, n'.log, t.entry);
        }
      }
    }
  }

  lemma WritePreserves(n: Node, peer: Node, buff: seq<byte>)
    requires LocalInv(n, peer) && RecvInv(peer, n) && buff != []
    ensures LocalInv(DoWrite(n, buff), peer) && Grows(n, DoWrite(n, buff), peer)
  {
    var n' := DoWrite(n, buff);
    var (c', r) := PollWrite(n.c, buff);
    if r.Ready? && r.value.Ok? {
      var p := CreateData(n.c, buff).1;
      assert p.payload == buff[..|p.payload|] && p.payload != [];
      GateExact(n);
      EntryStep(n, n', peer, p);
    } else {
      QuietStep(n, n', peer);
    }
  }

  lemma ClosePreserves(n: Node, peer: Node)
    requires LocalInv(n, peer) && RecvInv(peer, n) && CanAct(n, Pull) && n.c.events[0].CloseEvent?
    ensures LocalInv(DoPull(n), peer) && Grows(n, DoPull(n), peer)
  {
    var p := CreateClose(n.c.(events := n.c.events[1..])).1;
    EntryStep(n, DoPull(n), peer, p);
  }

  // The arrival of a datagram

  /** A genuine, recent data packet is near the window. */
  lemma EntryRecent(n: Node, peer: Node, p: UdpPacket, t: Tag)
    requires LocalInv(n, peer) && SendInv(peer) && p.payload != [] && TagOk(peer, n, p, t)
    requires End(peer.base, peer.log, n.got) + n.c.config.recvWindow - FAITHFUL <= End(peer.base, peer.log, t.entry + 1)
    ensures Recent(peer.base, peer.log, n.got, n.c.config.recvWindow, t.entry)
  {
    GotBound(n, peer);
    EndBetween(peer.base, peer.log, t.entry + 1, |peer.log|);
    EndBetween(peer.base, peer.log, peer.acked, n.got);
  }

  /** A genuine, recent acknowledgement moves the acknowledged position forward or not at all. */
  lemma AckExact(n: Node, peer: Node, p: UdpPacket, t: Tag)
    requires SendInv(n) && RecvInv(peer, n) && TagOk(peer, n, p, t)
    requires End(n.base, n.log, n.acked) - FAITHFUL <= End(n.base, n.log, t.acked)
    ensures t.acked <= peer.got <= |n.log|
    ensures Gt(p.ackNumber, n.c.peerAckNumber) <==> t.acked > n.acked
  {
    GotBound(peer, n);
    EndBetween(n.base, n.log, t.acked, |n.log|);
    CmpFaithful(End(n.base, n.log, t.acked), End(n.base, n.log, n.acked));
    if t.acked < n.acked {
      EndMonotone(n.base, n.log, t.acked, n.acked);
    } else if n.acked < t.acked {
      EndMonotone(n.base, n.log, n.acked, t.acked);
    }
  }

  /** What processing a data packet leaves alone. */
  lemma RecvProcessFrame(c: Conn, p: UdpPacket)
    ensures var c' := RecvProcessPacket(c, p).0;
            && c'.state == c.state && c'.config == c.config && c'.peerWindow == c.peerWindow
            && c'.transitWindow == c.transitWindow && c'.windowWakers == c.windowWakers
            && c'.sequenceNumber == c.sequenceNumber && c'.peerAckNumber == c.peerAckNumber
            && c'.sentPackets == c.sentPackets
            && (c'.events == c.events || c'.events == c.events + [AckUpdate])
  {
  }

  /** What the acknowledgement and window of a packet change. */
  lemma AckFrame(c: Conn, p: UdpPacket)
    ensures var c' := UpdatePeerWindow(UpdatePeerAck(c, p.ackNumber), p.window);
            && c'.state == c.state && c'.config == c.config
            && c'.transitWindow == c.transitWindow && c'.sequenceNumber == c.sequenceNumber
            && c'.ackNumber == c.ackNumber && c'.recvPackets == c.recvPackets && c'.reassembled == c.reassembled
            && c'.events == c.events
            && c'.peerAckNumber == (if Gt(p.ackNumber, c.peerAckNumber) then p.ackNumber else c.peerAckNumber)
            && (forall key :: key in c'.sentPackets <==>
                  key in c.sentPackets && (Gt(p.ackNumber, c.peerAckNumber) ==> Gt(key, p.ackNumber)))
            && (forall key :: key in c'.sentPackets ==> c'.sentPackets[key] == c.sentPackets[key])
  {
  }

  /** The receiving half of a data packet's arrival. */
  lemma StreamAdvances(n: Node, peer: Node, p: UdpPacket, t: Tag)
    requires LocalInv(n, peer) && SendInv(peer) && TagOk(peer, n, p, t)
    requires p.payload != [] ==>
               End(peer.base, peer.log, n.got) + n.c.config.recvWindow - FAITHFUL
                 <= End(peer.base, peer.log, t.entry + 1)
    ensures var n' := n.(c := RecvProcessPacket(n.c, p).0, got := n.got + TakenBy(n.c, p));
            RecvInv(n', peer)
  {
    var n' := n.(c := RecvProcessPacket(n.c, p).0, got := n.got + TakenBy(n.c, p));
    var idx :| RecvWith(n, peer, idx);
    if p.payload != [] {
      EntryRecent(n, peer, p, t);
      var taken, idx' := ReceiveRefines(peer.base, peer.log, n.got, n.c, idx, p, t.entry, n.drained);
      assert RecvWith(n', peer, idx');
    } else {
      assert RecvWith(n', peer, idx);
    }
  }

  lemma DataPreserves(n: Node, peer: Node, p: UdpPacket, t: Tag)
    requires LocalInv(n, peer) && LocalInv(peer, n) && TagOk(peer, n, p, t)
    requires p.payload != [] ==>
               End(peer.base, peer.log, n.got) + n.c.config.recvWindow - FAITHFUL
                 <= End(peer.base, peer.log, t.entry + 1)
    requires End(n.base, n.log, n.acked) - FAITHFUL <= End(n.base, n.log, t.acked)
    ensures var c' := RecvData(n.c, p);
            var n' := n.(c := c', got := n.got + TakenBy(n.c, p),
                         acked := if c'.peerAckNumber == n.c.peerAckNumber then n.acked else t.acked);
            LocalInv(n', peer) && Grows(n, n', peer)
  {
    hide Wrap, Add, RecvProcessPacket, UpdatePeerAck, UpdatePeerWindow, TakenBy, PartialCmp, RecvInv, TagsInv;
    var c1 := RecvProcessPacket(n.c, p).0;
    var c' := RecvData(n.c, p);
    var n' := n.(c := c', got := n.got + TakenBy(n.c, p),
                 acked := if c'.peerAckNumber == n.c.peerAckNumber then n.acked else t.acked);
    RecvProcessFrame(n.c, p);
    AckFrame(c1, p);
    StreamAdvances(n, peer, p, t);
    AckExact(n, peer, p, t);
    GotBound(peer, n);
    EndBetween(n.base, n.log, n.acked, n'.acked);
    RecvKept(n.(c := c1, got := n'.got), n', peer);
    TagsKept(n, n', peer);
  }

  lemma RecvKept(n: Node, n': Node, peer: Node)
    requires RecvInv(n, peer)
    requires n'.c.config == n.c.config && n'.c.ackNumber == n.c.ackNumber && n'.c.recvPackets == n.c.recvPackets
    requires n'.c.reassembled == n.c.reassembled && n'.got == n.got && n'.drained == n.drained
    ensures RecvInv(n', peer) && n'.got <= |peer.log|
  {
    var idx :| RecvWith(n, peer, idx);
    assert RecvWith(n', peer, idx);
  }

  lemma TagsKept(n: Node, n': Node, peer: Node)
    requires TagsInv(n, peer) && n'.tags == n.tags
    requires n'.base == n.base && n'.log == n.log && n'.c.config == n.c.config && n.got <= n'.got <= |peer.log|
    ensures TagsInv(n', peer)
  {
    forall p | p in n'.tags ensures TagOk(n', peer, p, n'.tags[p]) {
      assert TagOk(n, peer, p, n.tags[p]);
    }
  }

  lemma ReceivePreserves(n: Node, peer: Node, out: set<Datagram>, inbound: set<Datagram>, d: Datagram)
    requires PairInv(n, peer, out, inbound) && d in inbound && RecentDatagram(n, peer, d)
    ensures LocalInv(DoReceive(n, d), peer) && Grows(n, DoReceive(n, d), peer)
  {
    hide Wrap, Add, Parse, RecvData, TakenBy;
    var p, n' := Parse(d.data).value, DoReceive(n, d);
    assert TagOk(peer, n, p, d.tag);
    GotBound(n, peer);
    GotBound(peer, n);
    if ChecksumValid(n.c.config.hash, p) && p.packetType == Data {
      DataPreserves(n, peer, p, d.tag);
    } else {
      QuietStep(n, n', peer);
    }
  }

  // Every step

  lemma LocalStep(n: Node, peer: Node, out: set<Datagram>, inbound: set<Datagram>, act: Action)
    requires PairInv(n, peer, out, inbound) && Enabled(n, peer, inbound, act)
    ensures LocalInv(Act(n, act), peer) && Grows(n, Act(n, act), peer)
  {
    hide LocalInv, Grows, DoWrite, DoRead, DoPull, DoUpdate, DoKeepAlive, DoWait, DoRelease, DoSettle, DoFire,
         DoReschedule,
         DoReceive;
    PairParts(n, peer, out, inbound);
    match act
    case Write(buff) => WritePreserves(n, peer, buff);
    case Read(len) => ReadPreserves(n, peer, len);
    case Pull =>
      if n.c.events[0].CloseEvent? { ClosePreserves(n, peer); } else { PullPreserves(n, peer); }
    case MakeUpdate => UpdatePreserves(n, peer);
    case KeepAlive => KeepAlivePreserves(n, peer);
    case Wait(at) => WaitPreserves(n, peer, at);
    case Release(at) => ReleasePreserves(n, peer, at);
    case SocketSend => SentPreserves(n, peer, out);
    case Settle => SettlePreserves(n, peer);
    case FireResend(key) => FirePreserves(n, peer, key);
    case Reschedule(at) => ReschedulePreserves(n, peer, at);
    case Receive(d) => ReceivePreserves(n, peer, out, inbound, d);
    case Disconnect => DisconnectPreserves(n, peer);
  }

  lemma PairParts(n: Node, peer: Node, out: set<Datagram>, inbound: set<Datagram>)
    requires PairInv(n, peer, out, inbound)
    ensures LocalInv(n, peer) && RecvInv(peer, n) && NetInv(n, peer, out)
  {
  }

  lemma StepPreserves(n: Node, peer: Node, out: set<Datagram>, inbound: set<Datagram>, act: Action)
    requires PairInv(n, peer, out, inbound) && Enabled(n, peer, inbound, act)
    ensures PairInv(Act(n, act), peer, Outbound(n, out, act), inbound)
    ensures Grows(n, Act(n, act), peer)
  {
    LocalStep(n, peer, out, inbound, act);
    hide Act;
    PeerFrame(n, Act(n, act), peer, out, inbound);
    if act.SocketSend? {
      SentPreserves(n, peer, out);
    }
  }
}
