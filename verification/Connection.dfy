/**
 The connection variables as a value, and what each operation of the program does to them
 (tunshell-client/src/p2p/udp/{state,sender,receiver,resender,congestion,connection,orchestrator}.rs).

 These functions are the specification: `ConnectionVars` proves the step-by-step code against
 them, and `UdpSystem` and `Retransmit` prove what every run of them keeps. Fields that only serve
 timing (round trip estimates, send times, read and close wakers) are not part of the model.
 */
module Connection {
  import opened Wrappers
  import opened SeqNumber
  import opened Packet

  datatype ConState = New | SentHello | SentSync | WaitingForSync | ConnectFailed | Connected | Disconnected

  datatype Config = Config(
    recvWindow: u32,
    initialTransitWindow: u32,
    packetResendLimit: u8,
    hash: Hash)

  datatype SendEvent =
    | Send(packet: UdpPacket)
    | Resend(packet: UdpPacket)
    | AckUpdate
    | WindowUpdate
    | CloseEvent

  datatype RecvError =
    | OutOfWindow(start: u32, end: u32, windowStart: u32, windowEnd: u32)
    | OverlapsOtherMessage(start: u32, end: u32, otherStart: u32, otherEnd: u32)

  datatype IoError = NotConnected

  // What ends the receive loop
  datatype RecvStop = ClosePacketReceived | UnexpectedPacketType

  datatype Conn = Conn(
    config: Config,
    state: ConState,
    peerWindow: u32,
    transitWindow: u32,
    windowWakers: seq<u32>,
    sequenceNumber: u32,
    ackNumber: u32,
    recvPackets: seq<UdpPacket>,
    reassembled: seq<byte>,
    peerAckNumber: u32,
    sentPackets: map<u32, UdpPacket>,
    events: seq<SendEvent>)
  {
    predicate IsConnected() { state == Connected }
  }

  function NewConn(config: Config): Conn {
    Conn(config, New, 0, config.initialTransitWindow, [], 0, 0, [], [], 0, map[], [])
  }

  function TryDisconnect(c: Conn): Conn {
    if c.IsConnected() then c.(state := Disconnected) else c
  }

  // Receive window

  function SumLen(ps: seq<UdpPacket>): nat {
    if ps == [] then 0 else SumLen(ps[..|ps| - 1]) + Len(ps[|ps| - 1])
  }

  /** The sums are 32-bit and the buffer length is truncated to 32 bits. */
  function RecvWindow(c: Conn): u32 {
    var buffered := Wrap(SumLen(c.recvPackets) + |c.reassembled|);
    if buffered > c.config.recvWindow then 0 else c.config.recvWindow - buffered
  }

  /** What is offered and what is buffered, headers included, make up the window; nothing is offered
      when more is buffered. */
  lemma RecvWindowExact(c: Conn)
    requires SumLen(c.recvPackets) + |c.reassembled| < TWO32
    ensures var buffered := SumLen(c.recvPackets) + |c.reassembled|;
            RecvWindow(c) + buffered == if buffered > c.config.recvWindow then buffered else c.config.recvWindow
  {
  }

  // Receiving

  function FirstOverlap(ps: seq<UdpPacket>, p: UdpPacket): Option<UdpPacket> {
    if ps == [] then None
    else if Overlaps(p, ps[0]) then Some(ps[0])
    else FirstOverlap(ps[1..], p)
  }

  function InsertAt(ps: seq<UdpPacket>, p: UdpPacket): (n: nat)
    ensures n <= |ps|
  {
    if ps == [] || !Lt(ps[0].sequenceNumber, p.sequenceNumber) then 0
    else 1 + InsertAt(ps[1..], p)
  }

  datatype Reassembly = Reassembly(ack: u32, bytes: seq<byte>, advanced: u32, rest: seq<UdpPacket>)

  function Reassemble(ack: u32, ps: seq<UdpPacket>): (r: Reassembly)
    ensures |r.rest| <= |ps|
    decreases ps
  {
    if ps == [] || ps[0].sequenceNumber != Add(ack, 1) then Reassembly(ack, [], 0, ps)
    else
      var r := Reassemble(EndSeq(ps[0]), ps[1..]);
      r.(bytes := ps[0].payload + r.bytes, advanced := Wrap(1 + |ps[0].payload| + r.advanced))
  }

  /** Where the reassembly loop stands: what it has done so far and what remains make up `all`. */
  ghost predicate Reassembling(all: Reassembly, before: seq<byte>, ack: u32, buffer: seq<byte>, advanced: u32,
                               ps: seq<UdpPacket>)
  {
    var r := Reassemble(ack, ps);
    && all.ack == r.ack && all.rest == r.rest
    && before + all.bytes == buffer + r.bytes
    && all.advanced == Add(advanced, r.advanced)
  }

  lemma ReassembleStep(all: Reassembly, before: seq<byte>, ack: u32, buffer: seq<byte>, advanced: u32,
                       ps: seq<UdpPacket>)
    requires ps != [] && ps[0].sequenceNumber == Add(ack, 1)
    requires Reassembling(all, before, ack, buffer, advanced, ps)
    ensures Reassembling(all, before, EndSeq(ps[0]), buffer + ps[0].payload,
                         Wrap(advanced + (1 + |ps[0].payload|)), ps[1..])
  {
    var r := Reassemble(EndSeq(ps[0]), ps[1..]);
    hide Wrap, Add, EndSeq;
    AppendAssociates(buffer, ps[0].payload, r.bytes);
    AddAssociates(advanced, 1 + |ps[0].payload|, r.advanced);
  }

  function ReassemblePackets(c: Conn): (Conn, u32) {
    var r := Reassemble(c.ackNumber, c.recvPackets);
    (c.(ackNumber := r.ack,
        recvPackets := r.rest,
        reassembled := c.reassembled + r.bytes,
        events := if |r.bytes| > 0 then c.events + [AckUpdate] else c.events),
     r.advanced)
  }

  function RecvProcessPacket(c: Conn, p: UdpPacket): (Conn, Result<u32, RecvError>) {
    var windowEnd := Add(c.ackNumber, c.config.recvWindow);
    if |p.payload| == 0 then (c, Ok(0))
    else if Le(p.sequenceNumber, c.ackNumber) || Gt(EndSeq(p), windowEnd) then
      (c, Err(OutOfWindow(p.sequenceNumber, EndSeq(p), c.ackNumber, windowEnd)))
    else match FirstOverlap(c.recvPackets, p)
      case Some(o) =>
        (c, Err(OverlapsOtherMessage(p.sequenceNumber, EndSeq(p), o.sequenceNumber, EndSeq(o))))
      case None =>
        var at := InsertAt(c.recvPackets, p);
        var (c', advanced) := ReassemblePackets(
          c.(recvPackets := c.recvPackets[..at] + [p] + c.recvPackets[at..]));
        (c', Ok(advanced))
  }

  function DrainBytes(c: Conn, len: nat): (Conn, seq<byte>) {
    var n := Min(|c.reassembled|, len);
    var c' := c.(reassembled := c.reassembled[n..]);
    (if RecvWindow(c) < MAX_PACKET_SIZE <= RecvWindow(c') then c'.(events := c'.events + [WindowUpdate]) else c',
     c.reassembled[..n])
  }

  function PollRead(c: Conn, len: nat): (Conn, Poll<Result<seq<byte>, IoError>>) {
    if !c.IsConnected() then (c, Ready(Err(NotConnected)))
    else if |c.reassembled| == 0 then (c, Pending)
    else
      var (c', bytes) := DrainBytes(c, len);
      (c', Ready(Ok(bytes)))
  }

  // Sending

  function CreatePacket(c: Conn, t: PacketType, seqno: u32, window: u32, payload: seq<byte>): (Conn, UdpPacket) {
    var p := Create(c.config.hash, t, seqno, c.ackNumber, window, payload);
    (c.(sequenceNumber := EndSeq(p)), p)
  }

  function CreateData(c: Conn, payload: seq<byte>): (Conn, UdpPacket) {
    CreatePacket(c, Data, if |payload| == 0 then c.sequenceNumber else Add(c.sequenceNumber, 1), RecvWindow(c), payload)
  }

  function CreateOpen(c: Conn): (Conn, UdpPacket) {
    CreatePacket(c, Open, Add(c.sequenceNumber, 1), RecvWindow(c), [])
  }

  function CreateClose(c: Conn): (Conn, UdpPacket) {
    CreatePacket(c, Close, Add(c.sequenceNumber, 1), 0, [])
  }

  function MaxSend(c: Conn): u32 {
    Add(c.peerAckNumber, Min(c.peerWindow, c.transitWindow))
  }

  predicate CanSend(c: Conn, p: UdpPacket) {
    p.packetType == Close || Lt(EndSeq(p), MaxSend(c))
  }

  /** A packet that may not be sent yet leaves its end number with the waiting tasks. */
  function PollCanSend(c: Conn, p: UdpPacket): (Conn, Poll<()>) {
    if CanSend(c, p) then (c, Ready(())) else (c.(windowWakers := c.windowWakers + [EndSeq(p)]), Pending)
  }

  predicate IsCongested(c: Conn) {
    Ge(c.sequenceNumber, MaxSend(c))
  }

  function PollWrite(c: Conn, buff: seq<byte>): (Conn, Poll<Result<nat, IoError>>) {
    if !c.IsConnected() then (c, Ready(Err(NotConnected)))
    else if IsCongested(c) then
      (c.(windowWakers := c.windowWakers + [Add(c.sequenceNumber, 1)]), Pending)
    else
      var (c', p) := CreateData(c, buff);
      (c'.(events := c'.events + [Send(p)]), Ready(Ok(|p.payload|)))
  }

  /** One step of the queue consumer: an update is dropped, a packet passes on, a close event
      becomes a close packet. */
  function PullEvent(c: Conn): (Conn, Option<UdpPacket>)
    requires c.events != []
  {
    var c' := c.(events := c.events[1..]);
    match c.events[0]
    case Send(p) => (c', Some(p))
    case Resend(p) => (c', Some(p))
    case AckUpdate => (c', None)
    case WindowUpdate => (c', None)
    case CloseEvent => var (c'', p) := CreateClose(c'); (c'', Some(p))
  }

  // Windows and acknowledgements

  /** One packet more for each window's worth of packets sent. */
  function IncreaseWindow(tw: u32): u32
    requires tw >= MAX_PACKET_SIZE
  {
    Wrap(tw + MAX_PACKET_SIZE / (tw / MAX_PACKET_SIZE))
  }

  function DecreaseWindow(tw: u32): u32 {
    var scaled := Wrap(tw as int * 3) / 4;
    if scaled < MAX_PACKET_SIZE then MAX_PACKET_SIZE else scaled
  }

  function Waiting(wakers: seq<u32>, max: u32): seq<u32> {
    if wakers == [] then []
    else (if Lt(wakers[0], max) then [] else [wakers[0]]) + Waiting(wakers[1..], max)
  }

  function Released(wakers: seq<u32>, max: u32): seq<u32> {
    if wakers == [] then []
    else (if Lt(wakers[0], max) then [wakers[0]] else []) + Released(wakers[1..], max)
  }

  /** Waking loses and duplicates no registered task. */
  lemma {:induction false} WakersPartition(wakers: seq<u32>, max: u32)
    ensures multiset(Waiting(wakers, max)) + multiset(Released(wakers, max)) == multiset(wakers)
    ensures forall w :: w in Released(wakers, max) ==> Lt(w, max)
    ensures forall w :: w in Waiting(wakers, max) ==> !Lt(w, max)
  {
    if wakers != [] {
      WakersPartition(wakers[1..], max);
      assert wakers == [wakers[0]] + wakers[1..];
    }
  }

  function WakePending(c: Conn): Conn {
    c.(windowWakers := Waiting(c.windowWakers, MaxSend(c)))
  }

  function ClearAcknowledged(c: Conn): Conn {
    c.(sentPackets := map s | s in c.sentPackets && Gt(s, c.peerAckNumber) :: c.sentPackets[s])
  }

  function UpdatePeerAck(c: Conn, ack: u32): Conn {
    if Gt(ack, c.peerAckNumber) then WakePending(ClearAcknowledged(c.(peerAckNumber := ack))) else c
  }

  function UpdatePeerWindow(c: Conn, window: u32): Conn {
    var c' := c.(peerWindow := window);
    if window > c.peerWindow then WakePending(c') else c'
  }

  /** A datagram arrives: what `handle_recv_packet` does, and the receive loop's reaction to it. */
  function HandleRecv(c: Conn, data: seq<byte>): (Conn, Result<(), RecvStop>) {
    match Parse(data)
    case Err(_) => (c, Ok(()))
    case Ok(p) =>
      if !ChecksumValid(c.config.hash, p) then (c, Ok(())) else
      match p.packetType
      case Close => (TryDisconnect(c), Err(ClosePacketReceived))
      case Open => (TryDisconnect(c), Err(UnexpectedPacketType))
      case Data => (RecvData(c, p), Ok(()))
  }

  function RecvData(c: Conn, p: UdpPacket): Conn {
    var (c', r) := RecvProcessPacket(c, p);
    if r.Ok? then UpdatePeerWindow(UpdatePeerAck(c', p.ackNumber), p.window) else c'
  }

  /** After a datagram has left: a data packet grows the transit window and is remembered until
      acknowledged; a close packet ends the connection. */
  function AfterSend(c: Conn, p: UdpPacket): Conn
    requires p.packetType != Open && c.transitWindow >= MAX_PACKET_SIZE
  {
    if p.packetType == Close then TryDisconnect(c) else
    var c' := c.(transitWindow := IncreaseWindow(c.transitWindow));
    if |p.payload| > 0 then c'.(sentPackets := c'.sentPackets[p.sequenceNumber := p]) else c'
  }

  // Resending

  /** The resend task of `key` fires on the first unacknowledged packet. */
  predicate IsFirstDropped(c: Conn, key: u32) {
    c.IsConnected() && key in c.sentPackets && Add(c.peerAckNumber, 1) == key
  }

  function TakeDropped(c: Conn, key: u32): (Conn, UdpPacket)
    requires key in c.sentPackets
  {
    (c.(sentPackets := c.sentPackets - {key}), c.sentPackets[key])
  }

  function Refreshed(c: Conn, p: UdpPacket): UdpPacket {
    var q := p.(ackNumber := c.ackNumber, window := RecvWindow(c));
    q.(checksum := Checksum(c.config.hash, q))
  }

  function ScheduleResend(c: Conn, p: UdpPacket): Conn {
    var q := p.(resendCount := (p.resendCount + 1) % 256);
    if q.resendCount >= c.config.packetResendLimit then c.(events := c.events + [CloseEvent])
    else c.(transitWindow := DecreaseWindow(c.transitWindow), events := c.events + [Resend(Refreshed(c, q))])
  }
}
