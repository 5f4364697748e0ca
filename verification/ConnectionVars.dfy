/**
 `UdpConnectionVars`, the mutable connection variables, with the program's own loops
 (tunshell-client/src/p2p/udp/{state,sender,receiver,resender,congestion,connection,orchestrator}.rs).

 Every method states its whole effect through `View()`, the value of all the fields. The event
 channel is the `events` field; the locks around the variables make every method one step.
 */
module ConnectionVars {
  import opened Wrappers
  import opened SeqNumber
  import opened Packet
  import C = Connection

  class UdpConnectionVars {
    const config: C.Config
    var state: C.ConState
    var peerWindow: u32
    var transitWindow: u32
    var windowWakers: seq<u32>
    var sequenceNumber: u32
    var ackNumber: u32
    var recvPackets: seq<UdpPacket>
    var reassembledBuffer: seq<byte>
    var peerAckNumber: u32
    var sentPackets: map<u32, UdpPacket>
    var events: seq<C.SendEvent>

    ghost function View(): C.Conn
      reads this
    {
      C.Conn(config, state, peerWindow, transitWindow, windowWakers, sequenceNumber, ackNumber,
             recvPackets, reassembledBuffer, peerAckNumber, sentPackets, events)
    }

    constructor (config: C.Config)
      ensures View() == C.NewConn(config)
    {
      this.config := config;
      state, peerWindow, transitWindow, windowWakers := C.New, 0, config.initialTransitWindow, [];
      sequenceNumber, ackNumber, recvPackets, reassembledBuffer := 0, 0, [], [];
      peerAckNumber, sentPackets, events := 0, map[], [];
    }

    // State transitions; each requires what the program asserts

    method SetStateSentHello()
      requires state == C.New
      modifies this`state
      ensures state == C.SentHello
    {
      state := C.SentHello;
    }

    method SetStateSentSync()
      requires state == C.SentHello
      modifies this`state
      ensures state == C.SentSync
    {
      state := C.SentSync;
    }

    method SetStateWaitingForSync()
      requires state == C.SentHello
      modifies this`state
      ensures state == C.WaitingForSync
    {
      state := C.WaitingForSync;
    }

    method SetStateConnectFailed()
      requires state == C.SentHello || state == C.SentSync || state == C.WaitingForSync
      modifies this`state
      ensures state == C.ConnectFailed
    {
      state := C.ConnectFailed;
    }

    method SetStateConnected()
      requires state == C.SentSync || state == C.WaitingForSync
      modifies this`state
      ensures state == C.Connected
    {
      state := C.Connected;
    }

    method TrySetStateDisconnected()
      modifies this`state
      ensures View() == C.TryDisconnect(old(View()))
    {
      if state == C.Connected {
        state := C.Disconnected;
      }
    }

    // Receiving

    method CalculateRecvWindow() returns (w: u32)
      ensures w == C.RecvWindow(View())
    {
      var buffered: u32 := 0;
      var i := 0;
      while i < |recvPackets|
        invariant 0 <= i <= |recvPackets|
        invariant buffered == Wrap(C.SumLen(recvPackets[..i]))
      {
        assert recvPackets[..i + 1][..i] == recvPackets[..i];
        WrapAdd(C.SumLen(recvPackets[..i]), Len(recvPackets[i]));
        buffered := Add(buffered, Wrap(Len(recvPackets[i])));
        i := i + 1;
      }
      assert recvPackets[..i] == recvPackets;
      WrapAdd(C.SumLen(recvPackets), |reassembledBuffer|);
      buffered := Add(buffered, Wrap(|reassembledBuffer|));
      w := if buffered > config.recvWindow then 0 else config.recvWindow - buffered;
    }

    method FindOverlap(packet: UdpPacket) returns (r: Option<UdpPacket>)
      ensures r == C.FirstOverlap(recvPackets, packet)
      ensures r.None? <==> forall i :: 0 <= i < |recvPackets| ==> !Overlaps(packet, recvPackets[i])
    {
      var i := 0;
      while i < |recvPackets|
        invariant 0 <= i <= |recvPackets|
        invariant C.FirstOverlap(recvPackets, packet) == C.FirstOverlap(recvPackets[i..], packet)
        invariant forall j :: 0 <= j < i ==> !Overlaps(packet, recvPackets[j])
      {
        assert recvPackets[i..][1..] == recvPackets[i + 1..];
        if Overlaps(packet, recvPackets[i]) {
          return Some(recvPackets[i]);
        }
        i := i + 1;
      }
      return None;
    }

    method RecvProcessPacket(packet: UdpPacket) returns (r: Result<u32, C.RecvError>)
      modifies this
      ensures (View(), r) == C.RecvProcessPacket(old(View()), packet)
    {
      if |packet.payload| == 0 {
        return Ok(0);
      }
      var windowEnd := Add(ackNumber, config.recvWindow);
      if Le(packet.sequenceNumber, ackNumber) || Gt(EndSeq(packet), windowEnd) {
        return Err(C.OutOfWindow(packet.sequenceNumber, EndSeq(packet), ackNumber, windowEnd));
      }
      var other := FindOverlap(packet);
      if other.Some? {
        return Err(C.OverlapsOtherMessage(packet.sequenceNumber, EndSeq(packet),
                                          other.value.sequenceNumber, EndSeq(other.value)));
      }
      var insertAt := 0;
      while insertAt < |recvPackets| && Lt(recvPackets[insertAt].sequenceNumber, packet.sequenceNumber)
        invariant 0 <= insertAt <= |recvPackets|
        invariant C.InsertAt(recvPackets, packet) == insertAt + C.InsertAt(recvPackets[insertAt..], packet)
      {
        assert recvPackets[insertAt..][1..] == recvPackets[insertAt + 1..];
        insertAt := insertAt + 1;
      }
      recvPackets := recvPackets[..insertAt] + [packet] + recvPackets[insertAt..];
      var advanced := RecvReassemblePackets();
      return Ok(advanced);
    }

    method RecvReassemblePackets() returns (advanced: u32)
      modifies this`ackNumber, this`recvPackets, this`reassembledBuffer, this`events
      ensures (View(), advanced) == C.ReassemblePackets(old(View()))
    {
      hide Wrap, Add;
      var reassembledPackets := 0;
      var reassembledBytes := 0;
      advanced := 0;
      ghost var all := C.Reassemble(ackNumber, recvPackets);
      AddZero(all.advanced);
      while reassembledPackets < |recvPackets|
        invariant 0 <= reassembledPackets <= |recvPackets|
        invariant unchanged(this`recvPackets, this`events)
        invariant |reassembledBuffer| == |old(reassembledBuffer)| + reassembledBytes
        invariant C.Reassembling(all, old(reassembledBuffer), ackNumber, reassembledBuffer, advanced,
                                 recvPackets[reassembledPackets..])
      {
        var packet := recvPackets[reassembledPackets];
        if Add(ackNumber, 1) != packet.sequenceNumber {
          break;
        }
        assert recvPackets[reassembledPackets..][1..] == recvPackets[reassembledPackets + 1..];
        C.ReassembleStep(all, old(reassembledBuffer), ackNumber, reassembledBuffer, advanced,
                         recvPackets[reassembledPackets..]);
        reassembledBuffer := reassembledBuffer + packet.payload;
        reassembledBytes := reassembledBytes + |packet.payload|;
        reassembledPackets := reassembledPackets + 1;
        ackNumber := EndSeq(packet);
        advanced := Wrap(advanced + (1 + |packet.payload|));
      }
      AddZero(advanced);
      assert C.Reassemble(ackNumber, recvPackets[reassembledPackets..])
          == C.Reassembly(ackNumber, [], 0, recvPackets[reassembledPackets..]);
      assert reassembledBuffer == old(reassembledBuffer) + all.bytes && advanced == all.advanced;
      recvPackets := recvPackets[reassembledPackets..];
      if reassembledBytes > 0 {
        events := events + [C.AckUpdate];
      }
    }

    method RecvDrainBytes(len: nat) returns (drained: seq<byte>)
      modifies this
      ensures (View(), drained) == C.DrainBytes(old(View()), len)
    {
      var originalWindow := CalculateRecvWindow();
      var bytes := Min(|reassembledBuffer|, len);
      drained := reassembledBuffer[..bytes];
      reassembledBuffer := reassembledBuffer[bytes..];
      var newWindow := CalculateRecvWindow();
      if originalWindow < MAX_PACKET_SIZE && newWindow >= MAX_PACKET_SIZE {
        events := events + [C.WindowUpdate];
      }
    }

    method PollRead(len: nat) returns (r: Poll<Result<seq<byte>, C.IoError>>)
      modifies this
      ensures (View(), r) == C.PollRead(old(View()), len)
    {
      if state != C.Connected {
        return Ready(Err(C.NotConnected));
      }
      if |reassembledBuffer| == 0 {
        return Pending;
      }
      var data := RecvDrainBytes(len);
      return Ready(Ok(data));
    }

    // Sending

    method CreateDataPacket(payload: seq<byte>) returns (packet: UdpPacket)
      modifies this`sequenceNumber
      ensures (View(), packet) == C.CreateData(old(View()), payload)
    {
      var number := if |payload| == 0 then sequenceNumber else Add(sequenceNumber, 1);
      var window := CalculateRecvWindow();
      packet := Create(config.hash, Data, number, ackNumber, window, payload);
      sequenceNumber := EndSeq(packet);
    }

    method CreateOpenPacket() returns (packet: UdpPacket)
      modifies this`sequenceNumber
      ensures (View(), packet) == C.CreateOpen(old(View()))
    {
      var window := CalculateRecvWindow();
      packet := Create(config.hash, Open, Add(sequenceNumber, 1), ackNumber, window, []);
      sequenceNumber := EndSeq(packet);
    }

    method CreateClosePacket() returns (packet: UdpPacket)
      modifies this`sequenceNumber
      ensures (View(), packet) == C.CreateClose(old(View()))
    {
      packet := Create(config.hash, Close, Add(sequenceNumber, 1), ackNumber, 0, []);
      sequenceNumber := EndSeq(packet);
    }

    method PollCanSend(packet: UdpPacket) returns (r: Poll<()>)
      modifies this`windowWakers
      ensures (View(), r) == C.PollCanSend(old(View()), packet)
    {
      if packet.packetType == Close {
        return Ready(());
      }
      if !Lt(EndSeq(packet), Add(peerAckNumber, Min(peerWindow, transitWindow))) {
        windowWakers := windowWakers + [EndSeq(packet)];
        return Pending;
      }
      return Ready(());
    }

    method PollWrite(buff: seq<byte>) returns (r: Poll<Result<nat, C.IoError>>)
      requires |buff| > 0
      modifies this
      ensures (View(), r) == C.PollWrite(old(View()), buff)
    {
      if state != C.Connected {
        return Ready(Err(C.NotConnected));
      }
      if Ge(sequenceNumber, Add(peerAckNumber, Min(peerWindow, transitWindow))) {
        windowWakers := windowWakers + [Add(sequenceNumber, 1)];
        return Pending;
      }
      var packet := CreateDataPacket(buff);
      events := events + [C.Send(packet)];
      return Ready(Ok(|packet.payload|));
    }

    method PullEvent() returns (packet: Option<UdpPacket>)
      requires events != []
      modifies this
      ensures (View(), packet) == C.PullEvent(old(View()))
    {
      var event := events[0];
      events := events[1..];
      match event
      case Send(p) => return Some(p);
      case Resend(p) => return Some(p);
      case CloseEvent =>
        var p := CreateClosePacket();
        return Some(p);
      case _ => return None;
    }

    // Windows and acknowledgements

    method IncreaseTransitWindowAfterSend()
      requires transitWindow >= MAX_PACKET_SIZE
      modifies this`transitWindow
      ensures transitWindow == C.IncreaseWindow(old(transitWindow))
    {
      var packetsPerWindow := transitWindow / MAX_PACKET_SIZE;
      transitWindow := Wrap(transitWindow + MAX_PACKET_SIZE / packetsPerWindow);
    }

    method DecreaseTransitWindowAfterDrop()
      modifies this`transitWindow
      ensures transitWindow == C.DecreaseWindow(old(transitWindow))
    {
      var scaled := Wrap(transitWindow as int * 3) / 4;
      transitWindow := if scaled < MAX_PACKET_SIZE then MAX_PACKET_SIZE else scaled;
    }

    method WakePendingSendEvents() returns (woken: seq<u32>)
      modifies this`windowWakers
      ensures View() == C.WakePending(old(View()))
      ensures woken == C.Released(old(windowWakers), C.MaxSend(old(View())))
    {
      hide Wrap, Add, PartialCmp;
      var max := Add(peerAckNumber, Min(peerWindow, transitWindow));
      var pending := [];
      woken := [];
      var i := 0;
      while i < |windowWakers|
        invariant 0 <= i <= |windowWakers|
        invariant C.Waiting(windowWakers, max) == pending + C.Waiting(windowWakers[i..], max)
        invariant C.Released(windowWakers, max) == woken + C.Released(windowWakers[i..], max)
      {
        assert windowWakers[i..][1..] == windowWakers[i + 1..];
        if Lt(windowWakers[i], max) {
          woken := woken + [windowWakers[i]];
        } else {
          pending := pending + [windowWakers[i]];
        }
        i := i + 1;
      }
      windowWakers := pending;
    }

    method UpdatePeerAckNumber(ack: u32)
      modifies this
      ensures View() == C.UpdatePeerAck(old(View()), ack)
    {
      if Gt(ack, peerAckNumber) {
        peerAckNumber := ack;
        sentPackets := map s | s in sentPackets && Gt(s, peerAckNumber) :: sentPackets[s];
        var _ := WakePendingSendEvents();
      }
    }

    method UpdatePeerWindow(window: u32)
      modifies this
      ensures View() == C.UpdatePeerWindow(old(View()), window)
    {
      var originalWindow := peerWindow;
      peerWindow := window;
      if peerWindow > originalWindow {
        var _ := WakePendingSendEvents();
      }
    }

    // The orchestrator's handlers

    method HandleRecvPacket(data: seq<byte>) returns (r: Result<(), C.RecvStop>)
      modifies this
      ensures (View(), r) == C.HandleRecv(old(View()), data)
    {
      var parsed := ParsePacket(data);
      if parsed.Err? || !ChecksumValid(config.hash, parsed.value) {
        return Ok(());
      }
      var packet := parsed.value;
      match packet.packetType
      case Close =>
        TrySetStateDisconnected();
        return Err(C.ClosePacketReceived);
      case Open =>
        TrySetStateDisconnected();
        return Err(C.UnexpectedPacketType);
      case Data =>
        var result := RecvProcessPacket(packet);
        if result.Ok? {
          UpdatePeerAckNumber(packet.ackNumber);
          UpdatePeerWindow(packet.window);
        }
        return Ok(());
    }

    /** What follows a successful socket send. */
    method HandleSentPacket(packet: UdpPacket)
      requires packet.packetType != Open && transitWindow >= MAX_PACKET_SIZE
      modifies this
      ensures View() == C.AfterSend(old(View()), packet)
    {
      if packet.packetType == Close {
        TrySetStateDisconnected();
        return;
      }
      IncreaseTransitWindowAfterSend();
      if |packet.payload| > 0 {
        sentPackets := sentPackets[packet.sequenceNumber := packet];
      }
    }

    /** The resend task, first lock: take the packet if it is the first unacknowledged one. */
    method TakeIfFirstDropped(key: u32) returns (packet: Option<UdpPacket>)
      modifies this`sentPackets
      ensures packet.Some? <==> C.IsFirstDropped(old(View()), key)
      ensures if packet.Some? then (View(), packet.value) == C.TakeDropped(old(View()), key) else View() == old(View())
    {
      if state != C.Connected || key !in sentPackets || Add(peerAckNumber, 1) != key {
        return None;
      }
      packet := Some(sentPackets[key]);
      sentPackets := sentPackets - {key};
    }

    /** The resend task, second lock. */
    method ScheduleResend(taken: UdpPacket)
      modifies this
      ensures View() == C.ScheduleResend(old(View()), taken)
    {
      var packet := taken.(resendCount := (taken.resendCount + 1) % 256);
      if packet.resendCount >= config.packetResendLimit {
        events := events + [C.CloseEvent];
        return;
      }
      var window := CalculateRecvWindow();
      packet := packet.(ackNumber := ackNumber, window := window);
      packet := packet.(checksum := Checksum(config.hash, packet));
      DecreaseTransitWindowAfterDrop();
      events := events + [C.Resend(packet)];
    }
  }
}
