/**
 The relay server's and the client's own code for the steps of `RelayProtocol`
 (tunshell-server/src/relay/server/relay.rs and tunshell-client/src/client.rs), over streams whose
 input is a script: when it is used up, reading fails.
 */
module RelayMethods {
  import opened Wrappers
  import opened Messages
  import opened RelayProtocol
  import opened RelayLaws

  datatype RelayError = ReadFailed | WriteFailed | Unexpected | StillRelaying

  class Stream<!I, !O> {
    var inbox: seq<I>
    var writes: nat          // how many more writes succeed
    ghost var heard: seq<I>  // everything read
    ghost var said: seq<O>   // everything written

    constructor (inbox: seq<I>, writes: nat)
      ensures this.inbox == inbox && this.writes == writes && heard == [] && said == []
    {
      this.inbox, this.writes, heard, said := inbox, writes, [], [];
    }

    method Next() returns (r: Result<I, RelayError>)
      modifies this`inbox, this`heard
      ensures r == if old(inbox) == [] then Err(ReadFailed) else Ok(old(inbox)[0])
      ensures r.Ok? ==> heard == old(heard) + [r.value] && inbox == old(inbox)[1..]
      ensures r.Err? ==> heard == old(heard) && inbox == old(inbox)
    {
      if inbox == [] {
        return Err(ReadFailed);
      }
      r := Ok(inbox[0]);
      heard, inbox := heard + [inbox[0]], inbox[1..];
    }

    method Write(m: O) returns (r: Result<(), RelayError>)
      modifies this`writes, this`said
      ensures r == if old(writes) == 0 then Err(WriteFailed) else Ok(())
      ensures r.Ok? ==> said == old(said) + [m] && writes == old(writes) - 1
      ensures r.Err? ==> said == old(said) && writes == old(writes)
    {
      if writes == 0 {
        return Err(WriteFailed);
      }
      said, writes := said + [m], writes - 1;
      return Ok(());
    }
  }

  type Connection = Stream<ClientMessage, ServerMessage>

  /** The outcome of attempting a direct connection, as `RelayProtocol` decides it from what was
      received, and what was sent for it. */
  ghost predicate Decided(in1: seq<ClientMessage>, in2: seq<ClientMessage>, out1: seq<ServerMessage>,
                          out2: seq<ServerMessage>,
                          direct: bool)
  {
    && |in1| == |in2| >= 1
    && match Decide(Bind, in1[0], in2[0])
       case Some(Sending(Attempt, Some(m1), Some(m2))) =>
         && |in1| == 2 && out1 == [BindForDirectConnect, m1] && out2 == [BindForDirectConnect, m2]
         && Decide(Attempt, in1[1], in2[1]) == Some(if direct then Direct else START_RELAY)
       case Some(phase) =>
         phase == START_RELAY && |in1| == 1 && out1 == out2 == [BindForDirectConnect] && !direct
       case None => false
  }

  ghost predicate Asked(out: seq<ServerMessage>) {
    |out| <= 2 && (out != [] ==> out[0].BindForDirectConnect?) && (|out| == 2 ==> out[1].AttemptDirectConnect?)
  }

  method WriteBoth(con1: Connection, con2: Connection, m1: ServerMessage, m2: ServerMessage)
    returns (r: Result<(), RelayError>)
    requires con1 != con2
    modifies con1`writes, con1`said, con2`writes, con2`said
    ensures r == if old(con1.writes) == 0 || old(con2.writes) == 0 then Err(WriteFailed) else Ok(())
    ensures r.Ok? ==> con1.said == old(con1.said) + [m1] && con2.said == old(con2.said) + [m2]
    ensures r.Ok? ==> con1.writes == old(con1.writes) - 1 && con2.writes == old(con2.writes) - 1
    ensures r.Err? ==> con2.said == old(con2.said)
                       && (con1.said == old(con1.said) || con1.said == old(con1.said) + [m1])
  {
    r := con1.Write(m1);
    if r.Ok? {
      r := con2.Write(m2);
    }
  }

  method NextBoth(con1: Connection, con2: Connection) returns (r: Result<(ClientMessage, ClientMessage), RelayError>)
    requires con1 != con2
    modifies con1`inbox, con1`heard, con2`inbox, con2`heard
    ensures r == if old(con1.inbox) == [] || old(con2.inbox) == [] then Err(ReadFailed)
                 else Ok((old(con1.inbox)[0], old(con2.inbox)[0]))
    ensures r.Ok? ==> con1.heard == old(con1.heard) + [r.value.0] && con2.heard == old(con2.heard) + [r.value.1]
    ensures r.Ok? ==> con1.inbox == old(con1.inbox)[1..] && con2.inbox == old(con2.inbox)[1..]
    ensures r.Err? ==> con2.heard == old(con2.heard) && old(con1.heard) <= con1.heard
  {
    var r1 := con1.Next();
    if r1.Err? { return Err(r1.error); }
    var r2 := con2.Next();
    if r2.Err? { return Err(r2.error); }
    return Ok((r1.value, r2.value));
  }

  /** How an attempt ends, from what the clients will send and how many writes to them will succeed. */
  function AttemptEnds(in1: seq<ClientMessage>, in2: seq<ClientMessage>, w1: nat, w2: nat): Result<bool, RelayError> {
    if w1 == 0 || w2 == 0 then Err(WriteFailed)
    else if in1 == [] || in2 == [] then Err(ReadFailed)
    else if !IsBinding(in1[0]) || !IsBinding(in2[0]) then Err(Unexpected)
    else if !BothShared(in1[0], in2[0]) then Ok(false)
    else if w1 == 1 || w2 == 1 then Err(WriteFailed)
    else if |in1| == 1 || |in2| == 1 then Err(ReadFailed)
    else if IsConnecting(in1[1]) && in1[1] == in2[1] then Ok(in1[1].DirectConnectSucceeded?)
    else Err(Unexpected)
  }

  /** How many messages of each client an attempt takes when it ends well. */
  function Answers(in1: seq<ClientMessage>, in2: seq<ClientMessage>): (k: nat)
    ensures k == 1 || k == 2
  {
    if in1 != [] && in2 != [] && BothShared(in1[0], in2[0]) then 2 else 1
  }

  lemma DirectTakesTwo(in1: seq<ClientMessage>, in2: seq<ClientMessage>, w1: nat, w2: nat)
    ensures AttemptEnds(in1, in2, w1, w2) == Ok(true) ==> Answers(in1, in2) == 2
  {
  }

  /** What a client is asked when its peer's first message is m. */
  function Asks(k: nat, m: ClientMessage): (asked: seq<ServerMessage>)
    requires k == 2 ==> m.DirectConnectBound?
    ensures |asked| == if k == 2 then 2 else 1
  {
    if k == 2 then [BindForDirectConnect, AttemptDirectConnect(m.bound)] else [BindForDirectConnect]
  }

  /** It ends as `RelayProtocol` decides, on what is then received and said. */
  lemma AttemptDecided(in1: seq<ClientMessage>, in2: seq<ClientMessage>, w1: nat, w2: nat)
    requires AttemptEnds(in1, in2, w1, w2).Ok?
    ensures var (k, direct) := (Answers(in1, in2), AttemptEnds(in1, in2, w1, w2).value);
            Decided(in1[..k], in2[..k], Asks(k, in2[0]), Asks(k, in1[0]), direct)
  {
    if in1[0].DirectConnectBound? && in2[0].DirectConnectBound? {
      MatchingIsShared(in1[0].bound, in2[0].bound);
    }
    hide Matching, Shared;
  }

  /** The rest of `AttemptDirectConnection` once a transport is shared. */
  method ConnectBoth(con1: Connection, con2: Connection, ports1: PortBindings, ports2: PortBindings)
    returns (r: Result<bool, RelayError>)
    requires con1 != con2
    modifies con1, con2
    ensures old(con1.heard) <= con1.heard && old(con2.heard) <= con2.heard
    ensures con1.said == old(con1.said) || con1.said == old(con1.said) + [AttemptDirectConnect(ports2)]
    ensures con2.said == old(con2.said) || con2.said == old(con2.said) + [AttemptDirectConnect(ports1)]
    ensures var (in1, in2) := (old(con1.inbox), old(con2.inbox));
            r == if old(con1.writes) == 0 || old(con2.writes) == 0 then Err(WriteFailed)
                 else if in1 == [] || in2 == [] then Err(ReadFailed)
                 else if IsConnecting(in1[0]) && in1[0] == in2[0] then Ok(in1[0].DirectConnectSucceeded?)
                 else Err(Unexpected)
    ensures r.Ok? ==>
              && con1.said == old(con1.said) + [AttemptDirectConnect(ports2)] && con1.writes == old(con1.writes) - 1
              && con2.said == old(con2.said) + [AttemptDirectConnect(ports1)] && con2.writes == old(con2.writes) - 1
              && con1.inbox == old(con1.inbox)[1..] && con1.heard == old(con1.heard) + old(con1.inbox)[..1]
              && con2.inbox == old(con2.inbox)[1..] && con2.heard == old(con2.heard) + old(con2.inbox)[..1]
  {
    var w := WriteBoth(con1, con2, AttemptDirectConnect(ports2), AttemptDirectConnect(ports1));
    if w.Err? { return Err(w.error); }
    var results := NextBoth(con1, con2);
    if results.Err? { return Err(results.error); }
    assert old(con1.inbox)[..1] == [results.value.0] && old(con2.inbox)[..1] == [results.value.1];
    match results.value {
      case (DirectConnectSucceeded, DirectConnectSucceeded) => return Ok(true);
      case (DirectConnectFailed, DirectConnectFailed) => return Ok(false);
      case _ => return Err(Unexpected);
    }
  }

  /** The clients are asked to connect exactly when they announced ports for a common transport. */
  method AttemptDirectConnection(con1: Connection, con2: Connection) returns (r: Result<bool, RelayError>)
    requires con1 != con2
    modifies con1, con2
    ensures old(con1.heard) <= con1.heard && old(con2.heard) <= con2.heard
    ensures old(con1.said) <= con1.said && old(con2.said) <= con2.said
    ensures Asked(con1.said[|old(con1.said)|..]) && Asked(con2.said[|old(con2.said)|..])
    ensures r == AttemptEnds(old(con1.inbox), old(con2.inbox), old(con1.writes), old(con2.writes))
    ensures var (in1, in2) := (old(con1.inbox), old(con2.inbox));
            var k := Answers(in1, in2);
            r.Ok? ==>
              && con1.said == old(con1.said) + Asks(k, in2[0]) && con2.said == old(con2.said) + Asks(k, in1[0])
              && con1.writes == old(con1.writes) - k && con2.writes == old(con2.writes) - k
              && con1.inbox == in1[k..] && con1.heard == old(con1.heard) + in1[..k]
              && con2.inbox == in2[k..] && con2.heard == old(con2.heard) + in2[..k]
  {
    hide Shared;
    var w := WriteBoth(con1, con2, BindForDirectConnect, BindForDirectConnect);
    if w.Err? { return Err(w.error); }
    var results := NextBoth(con1, con2);
    if results.Err? { return Err(results.error); }
    var (result1, result2) := results.value;
    assert old(con1.inbox)[..1] == [result1] && old(con2.inbox)[..1] == [result2];
    var ports1, ports2: PortBindings;
    match (result1, result2) {
      case (DirectConnectBound(p1), DirectConnectBound(p2)) => ports1, ports2 := p1, p2;
      case (DirectConnectFailed, DirectConnectBound(_)) => return Ok(false);
      case (DirectConnectBound(_), DirectConnectFailed) => return Ok(false);
      case (DirectConnectFailed, DirectConnectFailed) => return Ok(false);
      case _ => return Err(Unexpected);
    }
    var supportsMatchingProtocols :=
      if ports1.tcpPort.Some? && ports2.tcpPort.Some? then true
      else if ports1.udpPort.Some? && ports2.udpPort.Some? then true
      else false;
    MatchingIsShared(ports1, ports2);
    if !supportsMatchingProtocols {
      return Ok(false);
    }
    r := ConnectBoth(con1, con2, ports1, ports2);
    if r.Ok? {
      assert old(con1.inbox)[..2] == [result1] + old(con1.inbox)[1..][..1];
      assert old(con2.inbox)[..2] == [result2] + old(con2.inbox)[1..][..1];
    }
  }

  datatype ProxyResult = Continue | Closed

  /** What con2 was sent since is what con1 relayed since, but for the last payload if sending it failed. */
  ghost predicate PassedOn(heard: seq<ClientMessage>, heard': seq<ClientMessage>,
                           said: seq<ServerMessage>, said': seq<ServerMessage>, failed: bool)
  {
    && heard <= heard' && said <= said'
    && (forall i :: |said| <= i < |said'| ==> said'[i].Relay?)
    && Relays(said'[|said|..]) <= ClientRelays(heard'[|heard|..])
    && (!failed ==> Relays(said'[|said|..]) == ClientRelays(heard'[|heard|..]))
  }

  lemma PassedOnStep(heard: seq<ClientMessage>, heard': seq<ClientMessage>, said: seq<ServerMessage>,
                     said': seq<ServerMessage>,
                     msg: ClientMessage, sent: bool)
    requires PassedOn(heard, heard', said, said', false)
    ensures PassedOn(heard, heard' + [msg], said, if msg.RelayClient? && sent then said' + [Relay(msg.data)] else said',
                     msg.RelayClient? && !sent)
  {
    assert (heard' + [msg])[|heard|..] == heard'[|heard|..] + [msg];
    ClientRelaysGrow(heard'[|heard|..], msg);
    if msg.RelayClient? {
      assert (said' + [Relay(msg.data)])[|said|..] == said'[|said|..] + [Relay(msg.data)];
      RelaysGrow(said'[|said|..], Relay(msg.data));
    }
  }

  method ProxyPayload(message: Result<ClientMessage, RelayError>, dest: Connection)
    returns (r: Result<ProxyResult, RelayError>)
    modifies dest`writes, dest`said
    ensures message.Err? ==> r == Err(message.error)
    ensures message == Ok(CloseClient) <==> r == Ok(Closed)
    ensures r == Ok(Continue) ==> message.Ok? && message.value.RelayClient?
    ensures dest.said == if r == Ok(Continue) then old(dest.said) + [Relay(message.value.data)] else old(dest.said)
    ensures message.Ok? && message.value.RelayClient? ==>
              r == if old(dest.writes) == 0 then Err(WriteFailed) else Ok(Continue)
    ensures message.Ok? && !message.value.RelayClient? && !message.value.CloseClient? ==> r == Err(Unexpected)
    ensures dest.writes == old(dest.writes) - if r == Ok(Continue) then 1 else 0
  {
    if message.Err? {
      return Err(message.error);
    }
    match message.value {
      case RelayClient(payload) =>
        var w := dest.Write(Relay(payload));
        return if w.Err? then Err(w.error) else Ok(Continue);
      case CloseClient => return Ok(Closed);
      case _ => return Err(Unexpected);
    }
  }

  /** How relaying ends, from what the clients will send, how many writes to them will succeed and whose
      message comes next: at the first message that is no payload, or that cannot be read or passed on. */
  function RelayEnds(in1: seq<ClientMessage>, in2: seq<ClientMessage>, w1: nat, w2: nat, first: seq<bool>)
    : Result<(), RelayError>
    decreases |first|
  {
    if first == [] then Err(StillRelaying) else
    var (source, writes) := if first[0] then (in1, w2) else (in2, w1);
    if source == [] then Err(ReadFailed)
    else if source[0].CloseClient? then Ok(())
    else if !source[0].RelayClient? then Err(Unexpected)
    else if writes == 0 then Err(WriteFailed)
    else if first[0] then RelayEnds(in1[1..], in2, w1, w2 - 1, first[1..])
    else RelayEnds(in1, in2[1..], w1 - 1, w2, first[1..])
  }

  lemma NobodyNext(in1: seq<ClientMessage>, in2: seq<ClientMessage>, w1: nat, w2: nat)
    ensures RelayEnds(in1, in2, w1, w2, []) == Err(StillRelaying)
  {
  }

  lemma RelayTurn(in1: seq<ClientMessage>, in2: seq<ClientMessage>, w1: nat, w2: nat, first: seq<bool>)
    requires first != []
    ensures var (source, writes) := if first[0] then (in1, w2) else (in2, w1);
            RelayEnds(in1, in2, w1, w2, first) ==
              if source == [] then Err(ReadFailed)
              else if source[0].CloseClient? then Ok(())
              else if !source[0].RelayClient? then Err(Unexpected)
              else if writes == 0 then Err(WriteFailed)
              else if first[0] then RelayEnds(in1[1..], in2, w1, w2 - 1, first[1..])
              else RelayEnds(in1, in2[1..], w1 - 1, w2, first[1..])
  {
  }

  /** One branch of the loop's select: the next message of one client, passed on to the other. */
  method ProxyNext(source: Connection, dest: Connection, ghost heard: seq<ClientMessage>,
                   ghost said: seq<ServerMessage>)
    returns (r: Result<ProxyResult, RelayError>)
    requires source != dest && PassedOn(heard, source.heard, said, dest.said, false)
    modifies source`inbox, source`heard, dest`writes, dest`said
    ensures PassedOn(heard, source.heard, said, dest.said, r == Err(WriteFailed))
    ensures var in1 := old(source.inbox);
            r == if in1 == [] then Err(ReadFailed)
                 else if in1[0].CloseClient? then Ok(Closed)
                 else if !in1[0].RelayClient? then Err(Unexpected)
                 else if old(dest.writes) == 0 then Err(WriteFailed)
                 else Ok(Continue)
    ensures r == Ok(Continue) ==> source.inbox == old(source.inbox)[1..] && dest.writes == old(dest.writes) - 1
  {
    hide PassedOn;
    var message := source.Next();
    r := ProxyPayload(message, dest);
    if message.Ok? {
      PassedOnStep(heard, old(source.heard), said, old(dest.said), message.value, r == Ok(Continue));
    }
  }

  /** Passes payloads on until a client closes; `first` says which client's message comes next. */
  method RelayLoop(con1: Connection, con2: Connection, first: seq<bool>) returns (r: Result<(), RelayError>)
    requires con1 != con2
    modifies con1, con2
    ensures PassedOn(old(con1.heard), con1.heard, old(con2.said), con2.said, r == Err(WriteFailed))
    ensures PassedOn(old(con2.heard), con2.heard, old(con1.said), con1.said, r == Err(WriteFailed))
    ensures r == RelayEnds(old(con1.inbox), old(con2.inbox), old(con1.writes), old(con2.writes), first)
  {
    ghost var h1, h2, o1, o2 := con1.heard, con2.heard, con1.said, con2.said;
    hide *;
    NothingPassedOn(h1, o2);
    NothingPassedOn(h2, o1);
    assert first[0..] == first;
    for i := 0 to |first|
      invariant PassedOn(h1, con1.heard, o2, con2.said, false) && PassedOn(h2, con2.heard, o1, con1.said, false)
      invariant RelayEnds(old(con1.inbox), old(con2.inbox), old(con1.writes), old(con2.writes), first)
                == RelayEnds(con1.inbox, con2.inbox, con1.writes, con2.writes, first[i..])
    {
      assert first[i..][1..] == first[i + 1..] && first[i..][0] == first[i];
      RelayTurn(con1.inbox, con2.inbox, con1.writes, con2.writes, first[i..]);
      PassedOnWeaker(h1, con1.heard, o2, con2.said);
      PassedOnWeaker(h2, con2.heard, o1, con1.said);
      var result;
      if first[i] {
        result := ProxyNext(con1, con2, h1, o2);
      } else {
        result := ProxyNext(con2, con1, h2, o1);
      }
      if result.Err? {
        return Err(result.error);
      }
      if result.value.Closed? {
        return Ok(());
      }
    }
    NobodyNext(con1.inbox, con2.inbox, con1.writes, con2.writes);
    assert first[|first|..] == [];
    return Err(StillRelaying);
  }

  lemma NothingPassedOn(heard: seq<ClientMessage>, said: seq<ServerMessage>)
    ensures PassedOn(heard, heard, said, said, false)
  {
  }

  lemma PassedOnWeaker(heard: seq<ClientMessage>, heard': seq<ClientMessage>, said: seq<ServerMessage>,
                       said': seq<ServerMessage>)
    ensures PassedOn(heard, heard', said, said', false) ==> PassedOn(heard, heard', said, said', true)
  {
  }

  lemma OnlyPayloads(heard: seq<ClientMessage>, heard': seq<ClientMessage>, said: seq<ServerMessage>,
                     said': seq<ServerMessage>, failed: bool)
    requires PassedOn(heard, heard', said, said', failed)
    ensures said <= said' && forall i :: |said| <= i < |said'| ==> said'[i].Relay?
  {
  }

  /** What one client is told in the whole session, with relaying starting at the given message. */
  ghost predicate Told(before: seq<ServerMessage>, after: seq<ServerMessage>, at: nat) {
    before <= after && Talks(after[|before|..], at)
  }

  lemma ToldSoFar(before: seq<ServerMessage>, join: ServerMessage, asked: seq<ServerMessage>, at: nat)
    requires join.PeerJoined? && Asked(asked) && (at == 3 || (at == 2 && |asked| <= 1))
    ensures Told(before, before, at) && Told(before, before + [join] + asked, at)
    ensures |asked| == at - 1 ==> Told(before, before + [join] + asked + [StartRelayMode], at)
  {
    assert (before + [join] + asked)[|before|..] == [join] + asked;
    assert (before + [join] + asked + [StartRelayMode])[|before|..] == [join] + asked + [StartRelayMode];
  }

  /** The start of relaying and then payloads, or nothing if the start could not be sent. */
  ghost predicate Relayed(said: seq<ServerMessage>, after: seq<ServerMessage>) {
    after != said ==> said + [StartRelayMode] <= after && forall i :: |said| < i < |after| ==> after[i].Relay?
  }

  lemma ToldRelays(before: seq<ServerMessage>, join: ServerMessage, asked: seq<ServerMessage>,
                   after: seq<ServerMessage>)
    requires join.PeerJoined? && Asked(asked) && |asked| >= 1 && Relayed(before + [join] + asked, after)
    ensures Told(before, after, |asked| + 1)
  {
    var at := |asked| + 1;
    var said := before + [join] + asked;
    ToldSoFar(before, join, asked, at);
    if after != said {
      var told := after[|before|..];
      var start := (said + [StartRelayMode])[|before|..];
      forall i | 0 <= i < |told| ensures Talk(told[i], i, at) {
        if i <= at {
          assert told[i] == start[i] && Talk(start[i], i, at);
        } else {
          assert told[i] == after[|before| + i];
        }
      }
    }
  }

  /** How a session ends; `first` says whose message comes next once it is direct or relayed. */
  function SessionEnds(in1: seq<ClientMessage>, in2: seq<ClientMessage>, w1: nat, w2: nat, first: seq<bool>)
    : Result<(), RelayError>
  {
    if w1 == 0 || w2 == 0 then Err(WriteFailed) else
    match AttemptEnds(in1, in2, w1 - 1, w2 - 1)
    case Err(e) => Err(e)
    case Ok(true) =>
      var next := if first != [] && first[0] then in1[2..] else in2[2..];
      if next == [] then Err(ReadFailed) else if next[0].CloseClient? then Ok(()) else Err(Unexpected)
    case Ok(false) =>
      var k := Answers(in1, in2);
      if w1 == k + 1 || w2 == k + 1 then Err(WriteFailed)
      else RelayEnds(in1[k..], in2[k..], w1 - k - 2, w2 - k - 2, first)
  }

  lemma SessionFails(in1: seq<ClientMessage>, in2: seq<ClientMessage>, w1: nat, w2: nat, first: seq<bool>)
    ensures w1 == 0 || w2 == 0 ==> SessionEnds(in1, in2, w1, w2, first) == Err(WriteFailed)
    ensures w1 > 0 && w2 > 0 && AttemptEnds(in1, in2, w1 - 1, w2 - 1).Err? ==>
              SessionEnds(in1, in2, w1, w2, first) == Err(AttemptEnds(in1, in2, w1 - 1, w2 - 1).error)
  {
    hide AttemptEnds, RelayEnds;
  }

  /** What is left of the clients' messages and writes after the attempt. */
  lemma SessionGoesOn(in1: seq<ClientMessage>, in2: seq<ClientMessage>, w1: nat, w2: nat, first: seq<bool>)
    requires w1 > 0 && w2 > 0 && AttemptEnds(in1, in2, w1 - 1, w2 - 1).Ok?
    ensures var k := Answers(in1, in2);
            && k <= |in1| && k <= |in2| && k < w1 && k < w2
            && SessionEnds(in1, in2, w1, w2, first) ==
               if AttemptEnds(in1, in2, w1 - 1, w2 - 1).value then
                 var next := if first != [] && first[0] then in1[k..] else in2[k..];
                 if next == [] then Err(ReadFailed) else if next[0].CloseClient? then Ok(()) else Err(Unexpected)
               else if w1 - 1 - k == 0 || w2 - 1 - k == 0 then Err(WriteFailed)
               else RelayEnds(in1[k..], in2[k..], w1 - 1 - k - 1, w2 - 1 - k - 1, first)
  {
    DirectTakesTwo(in1, in2, w1 - 1, w2 - 1);
    hide RelayEnds, BothShared;
  }

  /** The rest of `PairConnections` once there is a direct connection: the next message must be a close. */
  method AwaitClose(con1: Connection, con2: Connection, first: seq<bool>) returns (r: Result<(), RelayError>)
    modifies con1`inbox, con1`heard, con2`inbox, con2`heard
    ensures var next := if first != [] && first[0] then old(con1.inbox) else old(con2.inbox);
            r == if next == [] then Err(ReadFailed) else if next[0].CloseClient? then Ok(()) else Err(Unexpected)
  {
    var message;
    if first != [] && first[0] {
      message := con1.Next();
    } else {
      message := con2.Next();
    }
    if message.Err? { return Err(message.error); }
    return if message.value.CloseClient? then Ok(()) else Err(Unexpected);
  }

  /** The rest of `PairConnections` when there is no direct connection. */
  method StartRelay(con1: Connection, con2: Connection, first: seq<bool>) returns (r: Result<(), RelayError>)
    requires con1 != con2
    modifies con1, con2
    ensures Relayed(old(con1.said), con1.said) && Relayed(old(con2.said), con2.said)
    ensures old(con1.said) <= con1.said && old(con2.said) <= con2.said
    ensures r == if old(con1.writes) == 0 || old(con2.writes) == 0 then Err(WriteFailed)
                 else RelayEnds(old(con1.inbox), old(con2.inbox), old(con1.writes) - 1, old(con2.writes) - 1, first)
  {
    hide RelayEnds, PassedOn;
    var w := WriteBoth(con1, con2, StartRelayMode, StartRelayMode);
    if w.Err? { return Err(w.error); }
    ghost var s1, s2, h1, h2 := con1.said, con2.said, con1.heard, con2.heard;
    r := RelayLoop(con1, con2, first);
    OnlyPayloads(h1, con1.heard, s2, con2.said, r == Err(WriteFailed));
    OnlyPayloads(h2, con2.heard, s1, con1.said, r == Err(WriteFailed));
  }

  /** One session: both clients are told the same things in the same order, relaying starts only if
      there is no direct connection, and it ends when a client closes. */
  method PairConnections(con1: Connection, con2: Connection, peer1: PeerJoinedPayload, peer2: PeerJoinedPayload,
                         first: seq<bool>)
    returns (r: Result<(), RelayError>, ghost at: nat)
    requires con1 != con2
    modifies con1, con2
    ensures at == 2 || at == 3
    ensures Told(old(con1.said), con1.said, at) && Told(old(con2.said), con2.said, at)
    ensures r == SessionEnds(old(con1.inbox), old(con2.inbox), old(con1.writes), old(con2.writes), first)
    ensures con1.said == old(con1.said) || old(con1.said) + [PeerJoined(peer2)] <= con1.said
    ensures con2.said == old(con2.said) || old(con2.said) + [PeerJoined(peer1)] <= con2.said
  {
    hide AttemptEnds, RelayEnds, SessionEnds, Answers, Asks, Told, Asked, Relayed;
    SessionFails(con1.inbox, con2.inbox, con1.writes, con2.writes, first);
    ghost var o1, o2 := con1.said, con2.said;
    at := 3;
    ToldSoFar(o1, PeerJoined(peer2), [], 3);
    ToldSoFar(o2, PeerJoined(peer1), [], 3);
    assert o1 + [PeerJoined(peer2)] + [] == o1 + [PeerJoined(peer2)];
    assert o2 + [PeerJoined(peer1)] + [] == o2 + [PeerJoined(peer1)];
    var w := WriteBoth(con1, con2, PeerJoined(peer2), PeerJoined(peer1));
    if w.Err? { return Err(w.error), at; }
    ghost var j1, j2 := con1.said, con2.said;
    var direct := AttemptDirectConnection(con1, con2);
    ghost var a1, a2 := con1.said[|j1|..], con2.said[|j2|..];
    assert con1.said == j1 + a1 && con2.said == j2 + a2;
    at := if direct == Ok(false) then |a1| + 1 else 3;
    ToldSoFar(o1, PeerJoined(peer2), a1, at);
    ToldSoFar(o2, PeerJoined(peer1), a2, at);
    if direct.Err? { return Err(direct.error), at; }
    SessionGoesOn(old(con1.inbox), old(con2.inbox), old(con1.writes), old(con2.writes), first);
    if direct.value {
      r := AwaitClose(con1, con2, first);
    } else {
      r := StartRelay(con1, con2, first);
      ToldRelays(o1, PeerJoined(peer2), a1, con1.said);
      ToldRelays(o2, PeerJoined(peer1), a2, con2.said);
    }
  }

  // The client

  // How binding goes for a message that asks for it, and how connecting goes, by the number of the message
  type Outcomes = nat -> (Option<PortBindings>, bool)

  /** The negotiation over what was heard: the mode reached and everything said, or an error. */
  function Negotiated(heard: seq<ServerMessage>, outcomes: Outcomes): Option<(Mode, seq<ClientMessage>)>
    decreases |heard|
  {
    if heard == [] then Some((Negotiating(None), [])) else
    var n := |heard| - 1;
    match Negotiated(heard[..n], outcomes)
    case None => None
    case Some((mode, said)) =>
      match Answer(mode, heard[n], outcomes(n).0, outcomes(n).1)
      case None => None
      case Some((mode', reply)) => Some((mode', said + reply))
  }

  datatype Socket = DirectSocket | RelaySocket

  /** How the negotiation ends, from what the server will send and how many writes to it will succeed: on
      being told to relay, on connecting when asked to, or at the first thing that goes wrong. */
  function NegotiationEnds(inbox: seq<ServerMessage>, writes: nat, bound: Option<PortBindings>, outcomes: Outcomes,
                           n: nat): Result<Socket, RelayError>
    decreases |inbox|
  {
    if inbox == [] then Err(ReadFailed) else
    match inbox[0]
    case BindForDirectConnect =>
      if writes == 0 then Err(WriteFailed) else
      var ports := outcomes(n).0;
      NegotiationEnds(inbox[1..], writes - 1, if ports.Some? then ports else bound, outcomes, n + 1)
    case AttemptDirectConnect(_) =>
      if bound.None? then Err(Unexpected)
      else if writes == 0 then Err(WriteFailed)
      else if outcomes(n).1 then Ok(DirectSocket)
      else NegotiationEnds(inbox[1..], writes - 1, None, outcomes, n + 1)
    case StartRelayMode => Ok(RelaySocket)
    case _ => Err(Unexpected)
  }

  lemma NegotiationTurn(inbox: seq<ServerMessage>, writes: nat, bound: Option<PortBindings>, outcomes: Outcomes, n: nat)
    ensures var (ports, connected) := outcomes(n);
            var r := NegotiationEnds(inbox, writes, bound, outcomes, n);
            if inbox == [] then r == Err(ReadFailed) else
            match inbox[0]
            case BindForDirectConnect =>
              if writes == 0 then r == Err(WriteFailed)
              else r == NegotiationEnds(inbox[1..], writes - 1, if ports.Some? then ports else bound, outcomes, n + 1)
            case AttemptDirectConnect(_) =>
              if bound.None? then r == Err(Unexpected)
              else if writes == 0 then r == Err(WriteFailed)
              else if connected then r == Ok(DirectSocket)
              else r == NegotiationEnds(inbox[1..], writes - 1, None, outcomes, n + 1)
            case StartRelayMode => r == Ok(RelaySocket)
            case _ => r == Err(Unexpected)
  {
  }

  lemma NegotiatedStep(heard: seq<ServerMessage>, m: ServerMessage, outcomes: Outcomes)
    requires Negotiated(heard, outcomes).Some?
    ensures var (mode, said) := Negotiated(heard, outcomes).value;
            var a := Answer(mode, m, outcomes(|heard|).0, outcomes(|heard|).1);
            Negotiated(heard + [m], outcomes) == if a.None? then None else Some((a.value.0, said + a.value.1))
  {
    assert (heard + [m])[..|heard|] == heard;
  }

  /** What the loop has heard and said since it began. */
  ghost predicate Since<T>(before: seq<T>, after: seq<T>, since: seq<T>) {
    after == before + since
  }

  lemma SinceMore<T>(before: seq<T>, after: seq<T>, since: seq<T>, more: seq<T>)
    requires Since(before, after, since)
    ensures Since(before, after + more, since + more) && before <= after && after[|before|..] == since
    ensures (after + more)[|before|..] == since + more
  {
  }

  /** One turn of the client's loop: the socket, if the loop ends with one. */
  method NegotiateNext(stream: Stream<ServerMessage, ClientMessage>, message: ServerMessage,
                       bound: Option<PortBindings>, outcome: (Option<PortBindings>, bool))
    returns (r: Result<Option<Socket>, RelayError>, bound': Option<PortBindings>)
    modifies stream`writes, stream`said
    ensures var a := Answer(Negotiating(bound), message, outcome.0, outcome.1);
            && (r == Ok(Some(DirectSocket)) ==> a.Some? && a.value.0 == InDirect)
            && (r == Ok(Some(RelaySocket)) ==> a.Some? && a.value.0 == InRelay)
            && (r == Ok(None) ==> a.Some? && a.value.0 == Negotiating(bound'))
            && (r.Ok? ==> a.Some? && stream.said == old(stream.said) + a.value.1)
            && (r.Err? ==> stream.said == old(stream.said))
            && (r == Err(Unexpected) <==> a.None?) && (r.Err? ==> r.error.Unexpected? || r.error.WriteFailed?)
    ensures var ports := outcome.0;
            match message
            case BindForDirectConnect =>
              if old(stream.writes) == 0 then r == Err(WriteFailed)
              else r == Ok(None) && bound' == (if ports.Some? then ports else bound)
            case AttemptDirectConnect(_) =>
              if bound.None? then r == Err(Unexpected)
              else if old(stream.writes) == 0 then r == Err(WriteFailed)
              else if outcome.1 then r == Ok(Some(DirectSocket))
              else r == Ok(None) && bound' == None
            case StartRelayMode => r == Ok(Some(RelaySocket))
            case _ => r == Err(Unexpected)
    ensures r == Ok(None) ==> stream.writes == old(stream.writes) - 1
  {
    bound' := bound;
    var w: Result<(), RelayError>;
    match message {
      case BindForDirectConnect =>
        match outcome.0 {
          case Some(ports) =>
            w := stream.Write(DirectConnectBound(ports));
            if w.Err? { return Err(w.error), bound'; }
            bound' := Some(ports);
          case None =>
            w := stream.Write(DirectConnectFailed);
            if w.Err? { return Err(w.error), bound'; }
        }
      case AttemptDirectConnect(_) =>
        if bound.None? { return Err(Unexpected), bound'; }
        bound' := None;
        if outcome.1 {
          w := stream.Write(DirectConnectSucceeded);
          if w.Err? { return Err(w.error), bound'; }
          return Ok(Some(DirectSocket)), bound';
        }
        w := stream.Write(DirectConnectFailed);
        if w.Err? { return Err(w.error), bound'; }
      case StartRelayMode => return Ok(Some(RelaySocket)), bound';
      case _ => return Err(Unexpected), bound';
    }
    return Ok(None), bound';
  }

  /** The client's loop; outcomes say, message by message, how binding and connecting go. What it ends
      with is what the negotiation of `RelayProtocol` ends with on the messages heard. */
  method NegotiatePeerConnection(stream: Stream<ServerMessage, ClientMessage>, outcomes: Outcomes)
    returns (r: Result<Socket, RelayError>, ghost heard: seq<ServerMessage>, ghost said: seq<ClientMessage>)
    modifies stream
    ensures Since(old(stream.heard), stream.heard, heard) && Since(old(stream.said), stream.said, said)
    ensures r == NegotiationEnds(old(stream.inbox), old(stream.writes), None, outcomes, 0)
    ensures r == Ok(DirectSocket) ==> Negotiated(heard, outcomes) == Some((InDirect, said))
    ensures r == Ok(RelaySocket) ==> Negotiated(heard, outcomes) == Some((InRelay, said))
    ensures r == Err(Unexpected) <==> Negotiated(heard, outcomes) == None
  {
    heard, said := [], [];
    var bound: Option<PortBindings> := None;
    var i := 0;
    assert Since(stream.heard, stream.heard, []) && Since(stream.said, stream.said, []);
    assert Negotiated([], outcomes) == Some((Negotiating(None), []));
    hide Since, Answer, Negotiated, NegotiationEnds;
    while true
      invariant Since(old(stream.heard), stream.heard, heard) && |heard| == i
      invariant Since(old(stream.said), stream.said, said)
      invariant Negotiated(heard, outcomes) == Some((Negotiating(bound), said))
      invariant NegotiationEnds(old(stream.inbox), old(stream.writes), None, outcomes, 0)
                == NegotiationEnds(stream.inbox, stream.writes, bound, outcomes, i)
      decreases |stream.inbox|
    {
      SinceMore(old(stream.said), stream.said, said, []);
      NegotiationTurn(stream.inbox, stream.writes, bound, outcomes, i);
      var message := stream.Next();
      if message.Err? {
        return Err(message.error), heard, said;
      }
      SinceMore(old(stream.heard), stream.heard[..|stream.heard| - 1], heard, [message.value]);
      NegotiatedStep(heard, message.value, outcomes);
      heard := heard + [message.value];
      ghost var before, mode := stream.said, Negotiating(bound);
      var next, bound' := NegotiateNext(stream, message.value, bound, outcomes(i));
      if next.Err? {
        return Err(next.error), heard, said;
      }
      ghost var reply := Answer(mode, message.value, outcomes(i).0, outcomes(i).1).value.1;
      SinceMore(old(stream.said), before, said, reply);
      said, bound, i := said + reply, bound', i + 1;
      if next.value.Some? {
        return Ok(next.value.value), heard, said;
      }
    }
  }
}
