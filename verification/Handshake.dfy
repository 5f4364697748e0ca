/**
 Two sides negotiating over a network that loses, duplicates and reorders datagrams, and what the
 two connections agree on when both negotiations succeed.
 */
module Handshake {
  import opened Wrappers
  import opened SeqNumber
  import opened Packet
  import opened Connection
  import opened Congestion
  import opened Stream
  import opened Negotiator
  import opened UdpSystem
  import opened UdpRuns

  type Net = set<seq<byte>> // what was sent in one direction; it can arrive any number of times

  datatype Pair = Pair(a: Side, b: Side, ab: Net, ba: Net)

  datatype Event =
    | Arrives(data: seq<byte>, random: u32)
    | Breaks             // a socket error or timeout
    | Sends(p: UdpPacket) // a connected side sends data or closes

  predicate Possible(s: Side, inbound: Net, e: Event) {
    match e
    case Arrives(data, _) => data in inbound
    case Breaks => true
    case Sends(p) => s.phase.Done? && p.packetType != Open
  }

  function After(s: Side, e: Event): Side {
    match e
    case Arrives(data, random) => Step(s, Arrived(data), random)
    case Breaks => Step(s, Broken, 0)
    case Sends(_) => s
  }

  function NetAfter(s: Side, out: Net, e: Event): Net {
    match e
    case Sends(p) => out + {ToVec(p)}
    case _ => out + (set d | d in After(s, e).sent)
  }

  function Start(config: Config, master: bool): Side { Begin(NewConn(config), master) }

  ghost predicate Started(s: Pair) {
    exists ca, ma, cb, mb :: s == Pair(Start(ca, ma), Start(cb, mb), {MAGIC_HELLO}, {MAGIC_HELLO})
  }

  ghost predicate Leads(s: Pair, events: seq<(bool, Event)>, s': Pair)
    decreases events
  {
    if events == [] then s' == s else
    var (byA, e) := events[0];
    if byA then
      Possible(s.a, s.ba, e) && Leads(s.(a := After(s.a, e), ab := NetAfter(s.a, s.ab, e)), events[1..], s')
    else
      Possible(s.b, s.ab, e) && Leads(s.(b := After(s.b, e), ba := NetAfter(s.b, s.ba, e)), events[1..], s')
  }

  ghost predicate Occurs(s: Pair) {
    exists s0, events :: Started(s0) && Leads(s0, events, s)
  }

  // The invariant

  ghost predicate Unused(c: Conn) {
    && c.recvPackets == [] && c.reassembled == [] && c.sentPackets == map[] && c.events == []
    && c.transitWindow == c.config.initialTransitWindow
  }

  ghost predicate OpenOk(s: Side) {
    && (s.phase.AwaitHello? ==> s.open.None?)
    && (s.phase.AwaitSync? ==> (s.open.Some? <==> s.master))
    && (s.phase.Done? ==> s.open.Some?)
    && (s.open.Some? ==>
          var p := s.open.value;
          && p.packetType == Open && p.length == |p.payload| == 0
          && p.sequenceNumber == s.c.sequenceNumber == Add(s.c.peerAckNumber, 1)
          && p.window == s.c.config.recvWindow)
  }

  ghost predicate FromSide(s: Side, d: seq<byte>) {
    || d == MAGIC_HELLO
    || (s.open.Some? && d == ToVec(s.open.value))
    || (d != [] && (d[0] == 1 || d[0] == 2))
  }

  ghost predicate SideInv(s: Side, out: Net) {
    && Unused(s.c) && OpenOk(s) && s.phase != Failed(SliceOutOfRange)
    && (forall d :: d in out ==> FromSide(s, d))
    && (forall d :: d in s.sent ==> d == MAGIC_HELLO || (s.open.Some? && d == ToVec(s.open.value)))
  }

  /** A side that is done has taken the open packet of the other. */
  ghost predicate Took(s: Side, peer: Side) {
    s.phase.Done? ==>
      && peer.open.Some? && s.c.ackNumber == peer.open.value.sequenceNumber
      && s.c.peerWindow == peer.open.value.window
  }

  ghost predicate PairOk(s: Side, peer: Side, out: Net, inbound: Net) {
    SideInv(s, out) && SideInv(peer, inbound) && Took(s, peer) && Took(peer, s)
  }

  lemma OpenImage(p: UdpPacket)
    requires p.packetType == Open && p.length == |p.payload| == 0
    ensures |ToVec(p)| == HEADER_SIZE && ToVec(p)[0] == 0 && Parse(ToVec(p)).Ok?
    ensures var q := Parse(ToVec(p)).value;
            q.packetType == Open && q.sequenceNumber == p.sequenceNumber && q.window == p.window
  {
    ParseToVec(p, []);
    assert ToVec(p) + [] == ToVec(p);
  }

  lemma FirstByte(p: UdpPacket)
    ensures ToVec(p) != [] && ToVec(p)[0] == TypeByte(p.packetType)
  {
  }

  /** The only datagram a waiting side takes for a sync packet is the peer's open packet. */
  lemma SyncIsOpen(s: Side, peer: Side, inbound: Net, d: seq<byte>)
    requires SideInv(peer, inbound) && d in inbound
    ensures d == MAGIC_HELLO || SyncBytes(ReadInto(SYNC_BUFFER, d)) == Ok(Some(ReadInto(SYNC_BUFFER, d)))
    ensures d != MAGIC_HELLO && TakeSync(s.c, ReadInto(SYNC_BUFFER, d)).Ok? ==>
              && peer.open.Some? && d == ToVec(peer.open.value)
              && TakeSync(s.c, ReadInto(SYNC_BUFFER, d)) ==
                   Ok(s.c.(peerWindow := peer.open.value.window, ackNumber := peer.open.value.sequenceNumber))
  {
    assert FromSide(peer, d);
    if peer.open.Some? {
      OpenImage(peer.open.value);
    }
    hide ToVec;
  }

  lemma SyncSent(s: Side, random: u32)
    requires Unused(s.c)
    ensures var t := SendSync(s, random); var p := t.open.value;
            && Unused(t.c) && t.open.Some? && p.packetType == Open && p.length == |p.payload| == 0
            && p.sequenceNumber == t.c.sequenceNumber == Add(t.c.peerAckNumber, 1)
            && p.window == t.c.config.recvWindow
  {
    assert EndSeq(CreateOpen(s.c.(sequenceNumber := random, peerAckNumber := random)).1) == Add(random, 1);
  }

  lemma HelloPreserves(s: Side, peer: Side, out: Net, inbound: Net, d: seq<byte>, random: u32)
    requires PairOk(s, peer, out, inbound) && s.phase.AwaitHello?
    ensures var s' := OnHello(s, d, random);
            PairOk(s', peer, out + (set x | x in s'.sent), inbound)
  {
    hide ToVec, Parse, SendSync, Add, EndSeq, ReadInto;
    var t := s.(phase := AwaitSync, sent := s.sent + [MAGIC_HELLO]);
    SyncSent(t, random);
    SendSyncFrame(t, random);
  }

  lemma SendSyncFrame(s: Side, random: u32)
    ensures var t := SendSync(s, random);
            && t.phase == s.phase && t.master == s.master && t.open.Some? && t.sent == s.sent + [ToVec(t.open.value)]
            && t.c.ackNumber == s.c.ackNumber && t.c.peerWindow == s.c.peerWindow
  {
  }

  lemma SyncPreserves(s: Side, peer: Side, out: Net, inbound: Net, d: seq<byte>, random: u32)
    requires PairOk(s, peer, out, inbound) && s.phase.AwaitSync? && d in inbound
    ensures var s' := OnSync(s, d, random);
            PairOk(s', peer, out + (set x | x in s'.sent), inbound)
  {
    hide ToVec, Parse, SendSync, Add, EndSeq, ReadInto, TakeSync, SyncBytes;
    HelloRead();
    if d != MAGIC_HELLO {
      SyncIsOpen(s, peer, inbound, d);
      match TakeSync(s.c, ReadInto(SYNC_BUFFER, d)) {
        case Ok(c') =>
          SyncSent(s.(c := c', phase := Done), random);
          SendSyncFrame(s.(c := c', phase := Done), random);
        case Err(_) => SyncError(s.c, d);
      }
    }
  }

  lemma SyncError(c: Conn, d: seq<byte>)
    ensures TakeSync(c, ReadInto(SYNC_BUFFER, d)) != Err(SliceOutOfRange)
  {
    hide Parse;
  }

  lemma HelloRead()
    ensures SyncBytes(ReadInto(SYNC_BUFFER, MAGIC_HELLO)) == Ok(None)
  {
  }

  lemma StepOk(s: Side, peer: Side, out: Net, inbound: Net, e: Event)
    requires PairOk(s, peer, out, inbound) && Possible(s, inbound, e)
    ensures PairOk(After(s, e), peer, NetAfter(s, out, e), inbound)
  {
    hide ToVec, Parse, OnHello, OnSync, OpenOk;
    match e
    case Arrives(d, random) =>
      if s.phase.AwaitHello? {
        HelloPreserves(s, peer, out, inbound, d, random);
      } else if s.phase.AwaitSync? {
        SyncPreserves(s, peer, out, inbound, d, random);
      }
    case Breaks =>
      assert OpenOk(s.(phase := Failed(WaitFailed))) by { BreakOpen(s); }
    case Sends(p) => FirstByte(p);
  }

  lemma BreakOpen(s: Side)
    requires OpenOk(s)
    ensures OpenOk(s.(phase := Failed(WaitFailed)))
  {
  }

  lemma {:induction false} LeadsOk(s: Pair, events: seq<(bool, Event)>, s': Pair)
    requires PairOk(s.a, s.b, s.ab, s.ba) && Leads(s, events, s')
    ensures PairOk(s'.a, s'.b, s'.ab, s'.ba)
    decreases events
  {
    hide PairOk, After, NetAfter;
    if events != [] {
      var (byA, e) := events[0];
      if byA {
        StepOk(s.a, s.b, s.ab, s.ba, e);
        LeadsOk(s.(a := After(s.a, e), ab := NetAfter(s.a, s.ab, e)), events[1..], s');
      } else {
        Turned(s.a, s.b, s.ab, s.ba);
        StepOk(s.b, s.a, s.ba, s.ab, e);
        var t := s.(b := After(s.b, e), ba := NetAfter(s.b, s.ba, e));
        Turned(t.b, t.a, t.ba, t.ab);
        LeadsOk(t, events[1..], s');
      }
    }
  }

  lemma Turned(s: Side, peer: Side, out: Net, inbound: Net)
    requires PairOk(s, peer, out, inbound)
    ensures PairOk(peer, s, inbound, out)
  {
  }

  lemma OccursOk(s: Pair)
    requires Occurs(s)
    ensures PairOk(s.a, s.b, s.ab, s.ba)
  {
    var s0, events :| Started(s0) && Leads(s0, events, s);
    LeadsOk(s0, events, s);
  }

  // The theorems

  /** When both sides succeed, each expects what the other sends next, each expects its own open
      packet to be acknowledged, and each knows the other's window. */
  lemma Agreement(s: Pair)
    requires Occurs(s) && s.a.phase.Done? && s.b.phase.Done?
    ensures s.a.c.ackNumber == s.b.c.sequenceNumber && s.b.c.ackNumber == s.a.c.sequenceNumber
    ensures Add(s.a.c.peerAckNumber, 1) == s.a.c.sequenceNumber && Add(s.b.c.peerAckNumber, 1) == s.b.c.sequenceNumber
    ensures s.a.c.peerWindow == s.b.c.config.recvWindow && s.b.c.peerWindow == s.a.c.config.recvWindow
  {
    OccursOk(s);
  }

  /** No run makes the slice behind a hello fail. */
  lemma NoSlicePanic(s: Pair)
    requires Occurs(s)
    ensures s.a.phase != Failed(SliceOutOfRange) && s.b.phase != Failed(SliceOutOfRange)
  {
    OccursOk(s);
  }

  /** The node of a connected side: its history starts with the open packet. */
  function NodeOf(s: Side): Node {
    Node(s.c.(state := Connected), [], Idle, [], s.c.peerAckNumber, [[]], 0, 1, 0, [], [], map[])
  }

  ghost predicate ConfigOk(c: Config) {
    WindowInRange(c.initialTransitWindow) && MAX_PACKET_SIZE <= c.recvWindow <= MAX_RECV_WINDOW
  }

  /** Two successful negotiations leave the connections where the runs of `UdpRuns` start. */
  lemma EstablishesStream(s: Pair)
    requires Occurs(s) && s.a.phase.Done? && s.b.phase.Done? && ConfigOk(s.a.c.config) && ConfigOk(s.b.c.config)
    ensures UdpRuns.Init(System(NodeOf(s.a), NodeOf(s.b), {}, {}))
  {
    OccursOk(s);
    hide ToVec;
  }

  /** What is left of the negotiation in the network does nothing to a connection, or ends it. */
  lemma Leftovers(s: Pair, d: seq<byte>, c: Conn)
    requires Occurs(s) && d in s.ab && d != [] && d[0] != 1 && d[0] != 2
    ensures HandleRecv(c, d).0 == c || HandleRecv(c, d).0 == TryDisconnect(c)
  {
    OccursOk(s);
    assert FromSide(s.a, d);
    if s.a.open.Some? {
      OpenImage(s.a.open.value);
    }
    hide ToVec;
  }
}
