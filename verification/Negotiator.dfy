/**
 How one side opens a connection (tunshell-client/src/p2p/udp/negotiator.rs): a hello each way, then
 an open packet each way, the master side first.

 Each datagram that arrives is one step, together with everything sent in answer to it.
 */
module Negotiator {
  import opened Wrappers
  import opened SeqNumber
  import opened Packet
  import opened Connection
  import opened ConnectionVars

  // "tunshell::udp::hello"
  const MAGIC_HELLO: seq<byte> :=
    [116, 117, 110, 115, 104, 101, 108, 108, 58, 58, 117, 100, 112, 58, 58, 104, 101, 108, 108, 111]

  const SYNC_BUFFER := 256

  // What a wait gives: a datagram, or a socket error or timeout
  datatype Received = Arrived(data: seq<byte>) | Broken

  datatype NegotiateError =
    | WaitFailed
    | NotHello
    | SliceOutOfRange // the slice past a hello that shares its buffer with something short: a panic
    | Unparsable(error: ParseError)
    | NotOpen

  datatype Phase = AwaitHello | AwaitSync | Done | Failed(error: NegotiateError)

  datatype Side = Side(
    c: Conn,
    master: bool,
    phase: Phase,
    open: Option<UdpPacket>, // the open packet, once sent
    sent: seq<seq<byte>>)

  function Begin(c: Conn, master: bool): Side {
    Side(c.(state := SentHello), master, AwaitHello, None, [MAGIC_HELLO])
  }

  function SendSync(s: Side, random: u32): Side {
    var (c', p) := CreateOpen(s.c.(sequenceNumber := random, peerAckNumber := random));
    s.(c := c', open := Some(p), sent := s.sent + [ToVec(p)])
  }

  /** A read keeps what fits in the buffer. */
  function ReadInto(size: nat, data: seq<byte>): seq<byte> {
    if |data| <= size then data else data[..size]
  }

  /** The bytes taken for a sync packet: none for a hello, which is skipped. */
  function SyncBytes(read: seq<byte>): Result<Option<seq<byte>>, NegotiateError> {
    var n := |MAGIC_HELLO|;
    if read == MAGIC_HELLO then Ok(None)
    else if MAGIC_HELLO < read then
      if |read| - n < n then Err(SliceOutOfRange) else Ok(Some(read[n..|read| - n]))
    else Ok(Some(read))
  }

  function TakeSync(c: Conn, data: seq<byte>): Result<Conn, NegotiateError> {
    match Parse(data)
    case Err(e) => Err(Unparsable(e))
    case Ok(p) =>
      if p.packetType == Open then Ok(c.(peerWindow := p.window, ackNumber := p.sequenceNumber)) else Err(NotOpen)
  }

  function OnHello(s: Side, data: seq<byte>, random: u32): Side {
    if ReadInto(|MAGIC_HELLO|, data) != MAGIC_HELLO then s.(phase := Failed(NotHello)) else
    var s' := s.(phase := AwaitSync, sent := s.sent + [MAGIC_HELLO]);
    if s.master then var t := SendSync(s', random); t.(c := t.c.(state := SentSync))
    else s'.(c := s.c.(state := WaitingForSync))
  }

  function OnSync(s: Side, data: seq<byte>, random: u32): Side {
    match SyncBytes(ReadInto(SYNC_BUFFER, data))
    case Err(e) => s.(phase := Failed(e))
    case Ok(None) => s
    case Ok(Some(bytes)) =>
      match TakeSync(s.c, bytes)
      case Err(e) => s.(phase := Failed(e))
      case Ok(c') => if s.master then s.(c := c', phase := Done) else SendSync(s.(c := c', phase := Done), random)
  }

  function Step(s: Side, r: Received, random: u32): Side {
    if s.phase.Done? || s.phase.Failed? then s else
    match r
    case Broken => s.(phase := Failed(WaitFailed))
    case Arrived(data) => if s.phase.AwaitHello? then OnHello(s, data, random) else OnSync(s, data, random)
  }

  /** The steps over everything that arrives; when nothing more does, the wait times out. */
  function Steps(s: Side, inbox: seq<Received>, random: u32): Side
    decreases inbox
  {
    if inbox == [] then Step(s, Broken, random) else Steps(Step(s, inbox[0], random), inbox[1..], random)
  }

  lemma {:induction false} StepsEnded(s: Side, inbox: seq<Received>, random: u32)
    requires s.phase.Done? || s.phase.Failed?
    ensures Steps(s, inbox, random) == s
    decreases inbox
  {
    if inbox != [] {
      StepsEnded(s, inbox[1..], random);
    }
  }

  // The program

  method SendSyncPacket(con: UdpConnectionVars, random: u32) returns (packet: UdpPacket)
    modifies con
    ensures (con.View(), packet) == CreateOpen(old(con.View()).(sequenceNumber := random, peerAckNumber := random))
  {
    con.sequenceNumber := random;
    con.peerAckNumber := con.sequenceNumber;
    packet := con.CreateOpenPacket();
  }

  /** Waits until a datagram that is not a hello arrives; `ghost s` is where the negotiation stands. */
  method WaitForSyncPacket(con: UdpConnectionVars, inbox: seq<Received>, ghost s: Side, ghost random: u32)
    returns (result: Result<(), NegotiateError>)
    requires s.phase == AwaitSync && s.c == con.View()
    modifies con
    ensures result.Err? ==> con.View() == s.c && Steps(s, inbox, random) == s.(phase := Failed(result.error))
    ensures result.Ok? ==>
              var t := s.(c := con.View(), phase := Done);
              && Steps(s, inbox, random) == (if s.master then t else SendSync(t, random))
              && con.View() == s.c.(peerWindow := con.peerWindow, ackNumber := con.ackNumber)
  {
    var i := 0;
    var bytes: seq<byte>;
    while true
      invariant 0 <= i <= |inbox| && con.View() == s.c
      invariant Steps(s, inbox, random) == Steps(s, inbox[i..], random)
      decreases |inbox| - i
    {
      if i == |inbox| || inbox[i].Broken? {
        if i < |inbox| {
          StepsEnded(s.(phase := Failed(WaitFailed)), inbox[i..][1..], random);
        }
        return Err(WaitFailed);
      }
      var buff := ReadInto(SYNC_BUFFER, inbox[i].data);
      ghost var rest := inbox[i + 1..];
      assert inbox[i..][1..] == rest && inbox[i..][0] == inbox[i];
      i := i + 1;
      if buff == MAGIC_HELLO {
        continue;
      }
      var n := |MAGIC_HELLO|;
      if |buff| > n && buff[..n] == MAGIC_HELLO {
        if |buff| - n < n {
          StepsEnded(s.(phase := Failed(SliceOutOfRange)), rest, random);
          return Err(SliceOutOfRange);
        }
        bytes := buff[n..|buff| - n];
      } else {
        bytes := buff;
      }
      assert SyncBytes(buff) == Ok(Some(bytes));
      break;
    }
    ghost var rest := inbox[i..];
    ghost var next := OnSync(s, inbox[i - 1].data, random);
    assert Steps(s, inbox, random) == Steps(next, rest, random);
    StepsEnded(next, rest, random);
    match Parse(bytes) {
      case Err(e) => return Err(Unparsable(e));
      case Ok(syncPacket) =>
        if syncPacket.packetType != Open {
          return Err(NotOpen);
        }
        con.peerWindow := syncPacket.window;
        con.ackNumber := syncPacket.sequenceNumber;
        return Ok(());
    }
  }

  method WaitForMagicHello(inbox: seq<Received>) returns (result: Result<(), NegotiateError>)
    ensures result.Ok? <==> inbox != [] && inbox[0].Arrived? && ReadInto(|MAGIC_HELLO|, inbox[0].data) == MAGIC_HELLO
    ensures result.Err? ==>
              result == Err(if inbox != [] && inbox[0].Arrived? then NotHello else WaitFailed)
  {
    if inbox == [] || inbox[0].Broken? {
      return Err(WaitFailed);
    }
    if ReadInto(|MAGIC_HELLO|, inbox[0].data) != MAGIC_HELLO {
      return Err(NotHello);
    }
    return Ok(());
  }

  /** The negotiation does what the steps over everything that arrives do. */
  method NegotiateConnection(con: UdpConnectionVars, masterSide: bool, random: u32, inbox: seq<Received>)
    returns (result: Result<(), NegotiateError>, sent: seq<seq<byte>>)
    requires con.state == New
    modifies con
    ensures var s := Steps(Begin(old(con.View()), masterSide), inbox, random);
            && con.View() == s.c && sent == s.sent
            && s.phase == if result.Ok? then Done else Failed(result.error)
  {
    ghost var s := Begin(con.View(), masterSide);
    sent := [MAGIC_HELLO];
    con.SetStateSentHello();
    result := WaitForMagicHello(inbox);
    if result.Err? {
      if inbox != [] {
        StepsEnded(Step(s, inbox[0], random), inbox[1..], random);
      }
      return;
    }
    sent := sent + [MAGIC_HELLO];
    s := Step(s, inbox[0], random);
    if masterSide {
      var packet := SendSyncPacket(con, random);
      sent := sent + [ToVec(packet)];
      con.SetStateSentSync();
      result := WaitForSyncPacket(con, inbox[1..], s, random);
    } else {
      con.SetStateWaitingForSync();
      result := WaitForSyncPacket(con, inbox[1..], s, random);
      if result.Ok? {
        var packet := SendSyncPacket(con, random);
        sent := sent + [ToVec(packet)];
      }
    }
  }
}
