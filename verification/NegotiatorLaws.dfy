/**
 How a negotiation ends (tunshell-client/src/p2p/udp/negotiator.rs), from what arrives, and that two
 sides whose datagrams all arrive succeed.
 */
module NegotiatorLaws {
  import opened Wrappers
  import opened SeqNumber
  import opened Packet
  import opened Connection
  import opened Negotiator

  lemma HelloText()
    ensures var text := "tunshell::udp::hello";
            |MAGIC_HELLO| == |text| && forall i :: 0 <= i < |text| ==> MAGIC_HELLO[i] == text[i] as int
  {
  }

  /** The place of the first thing that is not a hello, or the end. */
  function FirstOther(inbox: seq<Received>): (n: nat)
    ensures n <= |inbox| && (n < |inbox| ==> inbox[n] != Arrived(MAGIC_HELLO))
    ensures forall i :: 0 <= i < n ==> inbox[i] == Arrived(MAGIC_HELLO)
  {
    if inbox == [] || inbox[0] != Arrived(MAGIC_HELLO) then 0 else 1 + FirstOther(inbox[1..])
  }

  /** The sync packet, or what goes wrong. A hello comes first, hellos are skipped after it, and what comes
      then is the sync packet, behind a hello that shares its datagram or alone. */
  function NegotiationEnds(inbox: seq<Received>): Result<UdpPacket, NegotiateError> {
    if inbox == [] || inbox[0].Broken? then Err(WaitFailed)
    else if !(MAGIC_HELLO <= inbox[0].data) then Err(NotHello) else
    var k := 1 + FirstOther(inbox[1..]);
    if k == |inbox| || inbox[k].Broken? then Err(WaitFailed) else
    SyncRead(if |inbox[k].data| <= 256 then inbox[k].data else inbox[k].data[..256])
  }

  function SyncRead(d: seq<byte>): Result<UdpPacket, NegotiateError> {
    var shared := MAGIC_HELLO <= d;
    if shared && |d| < 40 then Err(SliceOutOfRange) else
    match Parse(if shared then d[20..|d| - 20] else d)
    case Err(e) => Err(Unparsable(e))
    case Ok(p) => if p.packetType == Open then Ok(p) else Err(NotOpen)
  }

  lemma {:induction false} HellosSkipped(s: Side, inbox: seq<Received>, random: u32)
    requires s.phase == AwaitSync
    ensures var k := FirstOther(inbox);
            Steps(s, inbox, random) == Step(s, if k < |inbox| then inbox[k] else Broken, random)
    decreases |inbox|
  {
    hide OnSync;
    if inbox != [] {
      if inbox[0] == Arrived(MAGIC_HELLO) {
        HelloIgnored(s, random);
        HellosSkipped(s, inbox[1..], random);
      } else {
        SyncEnds(s, inbox[0], random);
        StepsEnded(Step(s, inbox[0], random), inbox[1..], random);
      }
    }
  }

  lemma HelloIgnored(s: Side, random: u32)
    requires s.phase == AwaitSync
    ensures Step(s, Arrived(MAGIC_HELLO), random) == s
  {
  }

  lemma SyncEnds(s: Side, r: Received, random: u32)
    requires s.phase == AwaitSync && r != Arrived(MAGIC_HELLO)
    ensures var t := Step(s, r, random); t.phase.Done? || t.phase.Failed?
  {
    hide Parse, CreateOpen, ToVec;
  }

  lemma ReadHello(data: seq<byte>)
    ensures ReadInto(|MAGIC_HELLO|, data) == MAGIC_HELLO <==> MAGIC_HELLO <= data
  {
  }

  /** Where a side stands after a negotiation with the given sync packet. */
  ghost predicate Agreed(s: Side, c: Conn, master: bool, random: u32, p: UdpPacket) {
    && s.phase == Done && s.c.ackNumber == p.sequenceNumber && s.c.peerWindow == p.window
    && s.c.peerAckNumber == random && s.c.sequenceNumber == Add(random, 1)
    && s.c.state == (if master then SentSync else WaitingForSync)
    && s.open.Some? && s.sent == [MAGIC_HELLO, MAGIC_HELLO, ToVec(s.open.value)]
    && var q := s.open.value;
    && q.packetType == Open && q.length == |q.payload| == 0 && q.sequenceNumber == Add(random, 1)
    && q.ackNumber == (if master then c.ackNumber else p.sequenceNumber)
  }

  lemma SyncExact(s: Side, c: Conn, r: Received, random: u32)
    requires s.phase == AwaitSync && r != Arrived(MAGIC_HELLO)
    requires |s.sent| == (if s.master then 3 else 2) && s.sent[..2] == [MAGIC_HELLO, MAGIC_HELLO]
    requires !s.master ==> s.c.state == WaitingForSync && s.open == None
    requires s.master ==>
               && s.open.Some? && s.sent[2] == ToVec(s.open.value) && s.c.state == SentSync
               && s.c.peerAckNumber == random && s.c.sequenceNumber == Add(random, 1)
               && var q := s.open.value;
               && q.packetType == Open && q.length == |q.payload| == 0 && q.sequenceNumber == Add(random, 1)
               && q.ackNumber == c.ackNumber
    ensures var t := Step(s, r, random);
            if r.Broken? then t.phase == Failed(WaitFailed) else
            match SyncRead(if |r.data| <= 256 then r.data else r.data[..256])
            case Err(e) => t.phase == Failed(e)
            case Ok(p) => Agreed(t, c, s.master, random, p)
  {
    hide Parse, ToVec, Add;
    if r.Arrived? && !s.master {
      var d := if |r.data| <= 256 then r.data else r.data[..256];
      if SyncRead(d).Ok? {
        var p := SyncRead(d).value;
        OpenExact(s.(c := s.c.(peerWindow := p.window, ackNumber := p.sequenceNumber), phase := Done), random);
      }
    }
  }

  lemma OpenExact(s: Side, random: u32)
    ensures var t := SendSync(s, random); var q := t.open.value;
            && t.open.Some? && q.packetType == Open && q.length == |q.payload| == 0
            && q.sequenceNumber == t.c.sequenceNumber == Add(random, 1) && q.ackNumber == s.c.ackNumber
            && t.c.peerAckNumber == random && t.c.ackNumber == s.c.ackNumber && t.c.peerWindow == s.c.peerWindow
            && t.c.state == s.c.state && t.phase == s.phase && t.master == s.master && t.sent == s.sent + [ToVec(q)]
  {
    assert EndSeq(CreateOpen(s.c.(sequenceNumber := random, peerAckNumber := random)).1) == Add(random, 1);
  }

  lemma HelloExact(c: Conn, master: bool, r: Received, random: u32)
    ensures var t := Step(Begin(c, master), r, random);
            if r.Broken? then t.phase == Failed(WaitFailed)
            else if !(MAGIC_HELLO <= r.data) then t.phase == Failed(NotHello)
            else
              && t.phase == AwaitSync && t.master == master && |t.sent| == (if master then 3 else 2)
              && t.sent[..2] == [MAGIC_HELLO, MAGIC_HELLO]
              && (!master ==> t.c == c.(state := WaitingForSync) && t.open == None)
              && (master ==> t.c.state == SentSync && t.open.Some? && t.sent[2] == ToVec(t.open.value)
                             && t.c.peerAckNumber == random && t.c.sequenceNumber == Add(random, 1)
                             && var q := t.open.value;
                             && q.packetType == Open && q.length == |q.payload| == 0
                             && q.sequenceNumber == Add(random, 1) && q.ackNumber == c.ackNumber)
  {
    hide ToVec, Add;
    if r.Arrived? {
      ReadHello(r.data);
      var s := Begin(c, master).(phase := AwaitSync, sent := [MAGIC_HELLO, MAGIC_HELLO]);
      OpenExact(s, random);
      assert [MAGIC_HELLO] + [MAGIC_HELLO] == [MAGIC_HELLO, MAGIC_HELLO];
    }
  }

  /** How any negotiation ends, and where it leaves the connection. */
  lemma NegotiationExact(c: Conn, master: bool, inbox: seq<Received>, random: u32)
    ensures var s := Steps(Begin(c, master), inbox, random);
            match NegotiationEnds(inbox)
            case Err(e) => s.phase == Failed(e)
            case Ok(p) => Agreed(s, c, master, random, p)
  {
    hide Parse, ToVec, Add, OnHello, OnSync, Agreed;
    var s := Begin(c, master);
    if inbox != [] {
      HelloExact(c, master, inbox[0], random);
      var t := Step(s, inbox[0], random);
      if t.phase == AwaitSync {
        var rest := inbox[1..];
        HellosSkipped(t, rest, random);
        var k := FirstOther(rest);
        SyncExact(t, c, if k < |rest| then rest[k] else Broken, random);
      } else {
        StepsEnded(t, inbox[1..], random);
      }
    }
  }

  // Two sides whose datagrams arrive

  function Hellos(n: nat): seq<Received> { seq(n, _ => Arrived(MAGIC_HELLO)) }

  lemma {:induction false} OtherAfterHellos(n: nat, r: Received)
    requires r != Arrived(MAGIC_HELLO)
    ensures FirstOther(Hellos(n) + [r]) == n
    decreases n
  {
    if n > 0 {
      assert (Hellos(n) + [r])[1..] == Hellos(n - 1) + [r];
      OtherAfterHellos(n - 1, r);
    }
  }

  lemma OpenIsRead(q: UdpPacket)
    requires q.packetType == Open && q.length == |q.payload| == 0
    ensures var d := ToVec(q); |d| == 19 && !(MAGIC_HELLO <= d) && SyncRead(d) == Ok(q.(resendCount := 0))
  {
    ParseToVec(q, []);
    assert ToVec(q) + [] == ToVec(q);
    assert ToVec(q)[0] == 0;
  }

  /** One or more hellos and then the peer's open packet arrive. */
  lemma DeliveredSucceeds(c: Conn, master: bool, random: u32, n: nat, q: UdpPacket)
    requires q.packetType == Open && q.length == |q.payload| == 0 && n >= 1
    ensures Agreed(Steps(Begin(c, master), Hellos(n) + [Arrived(ToVec(q))], random), c, master, random,
                   q.(resendCount := 0))
  {
    var inbox := Hellos(n) + [Arrived(ToVec(q))];
    OpenIsRead(q);
    SyncAfterHellos(n, ToVec(q));
    hide ToVec, Agreed, SyncRead, NegotiationEnds, Steps;
    NegotiationExact(c, master, inbox, random);
  }

  lemma SyncAfterHellos(n: nat, d: seq<byte>)
    requires n >= 1 && d != MAGIC_HELLO && |d| <= 256
    ensures NegotiationEnds(Hellos(n) + [Arrived(d)]) == SyncRead(d)
  {
    hide SyncRead, FirstOther;
    var inbox := Hellos(n) + [Arrived(d)];
    OtherAfterHellos(n - 1, Arrived(d));
    assert inbox[1..] == Hellos(n - 1) + [Arrived(d)] && inbox[0] == Arrived(MAGIC_HELLO) && inbox[n] == Arrived(d);
  }

  /** Both sides succeed when the hellos, at least one each way, and then the open packets arrive: the
      master's open packet is sent on the first hello, and the other side's on the master's. */
  lemma BothSucceed(ca: Conn, cb: Conn, ra: u32, rb: u32, n: nat, m: nat)
    requires n >= 1 && m >= 1
    ensures var openA := Step(Begin(ca, true), Arrived(MAGIC_HELLO), ra).open;
            && openA.Some?
            && var b := Steps(Begin(cb, false), Hellos(m) + [Arrived(ToVec(openA.value))], rb);
            && b.phase == Done && b.open.Some?
            && var a := Steps(Begin(ca, true), Hellos(n) + [Arrived(ToVec(b.open.value))], ra);
            && a.phase == Done && a.open == openA
            && a.c.ackNumber == b.c.sequenceNumber && b.c.ackNumber == a.c.sequenceNumber
            && a.c.peerWindow == b.open.value.window && b.c.peerWindow == a.open.value.window
  {
    hide ToVec, Step, Add;
    HelloExact(ca, true, Arrived(MAGIC_HELLO), ra);
    var s := Step(Begin(ca, true), Arrived(MAGIC_HELLO), ra);
    DeliveredSucceeds(cb, false, rb, m, s.open.value);
    var b := Steps(Begin(cb, false), Hellos(m) + [Arrived(ToVec(s.open.value))], rb);
    DeliveredSucceeds(ca, true, ra, n, b.open.value);
    var inbox := Hellos(n) + [Arrived(ToVec(b.open.value))];
    assert inbox[0] == Arrived(MAGIC_HELLO);
    OpenKept(s, inbox[1..], ra);
  }

  lemma {:induction false} OpenKept(s: Side, inbox: seq<Received>, random: u32)
    requires s.master && !s.phase.AwaitHello?
    ensures Steps(s, inbox, random).open == s.open
    decreases |inbox|
  {
    hide Parse, SyncBytes, ReadInto;
    if inbox != [] {
      OpenKept(Step(s, inbox[0], random), inbox[1..], random);
    }
  }
}
