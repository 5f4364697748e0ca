/**
 Two connected peers and the network between them, as a step system over every run.

 A step is one locked section of the program: a poll of the user's read or write side, a step of the
 send loop or of a resend task, or the arrival of a datagram. The network may lose, duplicate and
 reorder datagrams: a sent datagram stays available for delivery for ever. The only thing asked of
 it is that what it delivers is recent: within the 2^31 positions for which wrapping comparisons
 make sense.

 The fields of a node below `taken` are history: they record what happened and steer nothing.
 */
module UdpSystem {
  import opened Wrappers
  import opened SeqNumber
  import opened Packet
  import opened Connection
  import opened Congestion
  import opened Stream

  /** What the send loop is doing: nothing, about to hand a packet to the socket, or done with that. */
  datatype Slot = Idle | Sending(packet: UdpPacket) | Sent(packet: UdpPacket)

  /** The entry a packet carries and the number of peer entries it acknowledges. */
  datatype Tag = Tag(entry: nat, acked: nat)

  datatype Datagram = Datagram(data: seq<byte>, tag: Tag)

  datatype Node = Node(
    c: Conn,
    futures: seq<UdpPacket>,      // packets waiting for the window
    slot: Slot,
    taken: seq<UdpPacket>,        // packets in the hands of resend tasks
    base: nat,                    // the position before the open packet
    log: Log,                     // the entries created so far
    closes: nat,                  // how many of them are close packets
    got: nat,                     // entries of the peer taken by the receiver
    acked: nat,                   // own entries known to be acknowledged
    accepted: seq<byte>,          // bytes accepted by poll_write
    drained: seq<byte>,           // bytes returned by poll_read
    tags: map<UdpPacket, Tag>)    // every packet created, as it was when last created

  datatype System = System(a: Node, b: Node, ab: set<Datagram>, ba: set<Datagram>)

  datatype Action =
    | Write(buff: seq<byte>)      // poll_write
    | Read(len: nat)              // poll_read
    | Pull                        // the send loop takes an event from the channel
    | MakeUpdate                  // no packet is pending: an empty one carries the ack and window
    | KeepAlive
    | Wait(at: nat)               // a waiting packet is polled and may not be sent yet
    | Release(at: nat)            // a waiting packet may be sent
    | SocketSend
    | Settle                      // what follows the socket send
    | FireResend(key: u32)        // a resend task fires
    | Reschedule(at: nat)         // its second locked section
    | Receive(d: Datagram)
    | Disconnect                  // a loop ends: timeout, socket error or dropped connection

  // Close packets consume sequence numbers without asking the congestion window. A run creates at
  // most this many.
  const MAX_CLOSES := 0x4000_0000

  function Remove<T>(s: seq<T>, at: nat): seq<T>
    requires at < |s|
  {
    s[..at] + s[at + 1..]
  }

  function Created(n: Node, p: UdpPacket, entry: nat): Node {
    n.(tags := n.tags[p := Tag(entry, n.got)])
  }

  /** The panic conditions of `handle_send_packet` and of the window division. */
  predicate SettlePanics(n: Node) {
    n.slot.Sent? && (n.slot.packet.packetType == Open || n.c.transitWindow < MAX_PACKET_SIZE)
  }

  predicate CanAct(n: Node, act: Action) {
    match act
    case Write(buff) => buff != []
    case Read(_) => true
    case Pull => n.c.events != [] && (n.c.events[0].CloseEvent? ==> n.closes < MAX_CLOSES)
    case MakeUpdate => true
    case KeepAlive => n.slot.Idle?
    case Wait(at) => at < |n.futures| && !CanSend(n.c, n.futures[at])
    case Release(at) => n.slot.Idle? && at < |n.futures| && CanSend(n.c, n.futures[at])
    case SocketSend => n.slot.Sending?
    case Settle => n.slot.Sent? && !SettlePanics(n)
    case FireResend(key) => IsFirstDropped(n.c, key)
    case Reschedule(at) => at < |n.taken|
    case Receive(_) => true
    case Disconnect => true
  }

  predicate Enabled(n: Node, peer: Node, inbound: set<Datagram>, act: Action) {
    CanAct(n, act) && (act.Receive? ==> act.d in inbound && RecentDatagram(n, peer, act.d))
  }

  /** The datagram is not older than the wrapping order can tell. */
  predicate RecentDatagram(n: Node, peer: Node, d: Datagram) {
    && (d.tag.entry < |peer.log| && n.got <= |peer.log| && Parse(d.data).Ok? && Parse(d.data).value.payload != [] ==>
          End(peer.base, peer.log, n.got) + n.c.config.recvWindow - FAITHFUL
            <= End(peer.base, peer.log, d.tag.entry + 1))
    && (d.tag.acked <= |n.log| && n.acked <= |n.log| ==>
          End(n.base, n.log, n.acked) - FAITHFUL <= End(n.base, n.log, d.tag.acked))
  }

  function DoWrite(n: Node, buff: seq<byte>): Node {
    var (c', r) := PollWrite(n.c, buff);
    if r.Ready? && r.value.Ok? then
      var p := c'.events[|c'.events| - 1].packet;
      Created(n.(c := c', log := n.log + [p.payload], accepted := n.accepted + buff[..r.value.value]), p, |n.log|)
    else n.(c := c')
  }

  function DoRead(n: Node, len: nat): Node {
    var (c', r) := PollRead(n.c, len);
    n.(c := c', drained := if r.Ready? && r.value.Ok? then n.drained + r.value.value else n.drained)
  }

  function DoPull(n: Node): Node
    requires n.c.events != []
  {
    var (c', r) := PullEvent(n.c);
    if n.c.events[0].CloseEvent? then
      Created(n.(c := c', futures := n.futures + [r.value], log := n.log + [[]], closes := n.closes + 1), r.value, 0)
    else n.(c := c', futures := if r.Some? then n.futures + [r.value] else n.futures)
  }

  function DoUpdate(n: Node): Node {
    var (c', p) := CreateData(n.c, []);
    Created(n.(c := c', futures := n.futures + [p]), p, 0)
  }

  function DoKeepAlive(n: Node): Node {
    var (c', p) := CreateData(n.c, []);
    Created(n.(c := c', slot := Sending(p)), p, 0)
  }

  function DoWait(n: Node, at: nat): Node
    requires at < |n.futures|
  {
    n.(c := PollCanSend(n.c, n.futures[at]).0)
  }

  function DoRelease(n: Node, at: nat): Node
    requires at < |n.futures|
  {
    n.(slot := Sending(n.futures[at]), futures := Remove(n.futures, at))
  }

  function DoSettle(n: Node): Node
    requires n.slot.Sent? && !SettlePanics(n)
  {
    n.(c := AfterSend(n.c, n.slot.packet), slot := Idle)
  }

  function DoFire(n: Node, key: u32): Node
    requires IsFirstDropped(n.c, key)
  {
    var (c', p) := TakeDropped(n.c, key);
    n.(c := c', taken := n.taken + [p])
  }

  function DoReschedule(n: Node, at: nat): Node
    requires at < |n.taken|
  {
    var c', p := ScheduleResend(n.c, n.taken[at]), n.taken[at];
    var n' := n.(c := c', taken := Remove(n.taken, at));
    var e := c'.events[|c'.events| - 1];
    if e.Resend? then Created(n', e.packet, if p in n.tags then n.tags[p].entry else 0) else n'
  }

  function DoReceive(n: Node, d: Datagram): Node {
    var c' := HandleRecv(n.c, d.data).0;
    n.(c := c',
       got := n.got + DatagramTakes(n.c, d.data),
       acked := if c'.peerAckNumber == n.c.peerAckNumber then n.acked else d.tag.acked)
  }

  function Act(n: Node, act: Action): Node
    requires CanAct(n, act)
  {
    match act
    case Write(buff) => DoWrite(n, buff)
    case Read(len) => DoRead(n, len)
    case Pull => DoPull(n)
    case MakeUpdate => DoUpdate(n)
    case KeepAlive => DoKeepAlive(n)
    case Wait(at) => DoWait(n, at)
    case Release(at) => DoRelease(n, at)
    case SocketSend => n.(slot := Sent(n.slot.packet))
    case Settle => DoSettle(n)
    case FireResend(key) => DoFire(n, key)
    case Reschedule(at) => DoReschedule(n, at)
    case Receive(d) => DoReceive(n, d)
    case Disconnect => n.(c := TryDisconnect(n.c))
  }

  /** How many entries the receiver takes when the datagram arrives. */
  function DatagramTakes(c: Conn, data: seq<byte>): nat {
    match Parse(data)
    case Err(_) => 0
    case Ok(p) => if ChecksumValid(c.config.hash, p) && p.packetType == Data then TakenBy(c, p) else 0
  }

  function Outbound(n: Node, out: set<Datagram>, act: Action): set<Datagram> {
    if act.SocketSend? && n.slot.Sending? then
      out + {Datagram(ToVec(n.slot.packet), if n.slot.packet in n.tags then n.tags[n.slot.packet] else Tag(0, 0))}
    else out
  }
}
