/**
 The relay server and its two clients as one step system: how they agree on a direct or a relayed
 connection (tunshell-server/src/relay/server/relay.rs and tunshell-client/src/client.rs).

 Messages travel in order, as `MessageStreams` proves of the stream they travel on. The server may
 give up at any time and a client may leave at any time. Most of it is written for side one; side
 two is side one of the flipped system.
 */
module RelayProtocol {
  import opened Wrappers
  import opened Messages

  // The server sends a message to each client, then waits for one from each
  datatype Stage = Join | Bind | Attempt | Relayed

  datatype Phase =
    | Sending(stage: Stage, m1: Option<ServerMessage>, m2: Option<ServerMessage>)   // still to be sent
    | Awaiting(stage: Stage, r1: Option<ClientMessage>, r2: Option<ClientMessage>)  // received so far
    | Direct
    | Relaying

  datatype Mode =
    | Waiting                                   // for the peer to join
    | Negotiating(bound: Option<PortBindings>)
    | InDirect
    | InRelay

  datatype Link = Link(
    mode: Mode,
    gone: bool,                 // the client has failed, left or finished
    down: seq<ServerMessage>,   // on its way to the client
    up: seq<ClientMessage>,     // on its way to the server
    closed: bool,               // the server has dropped the connection
    // history
    sent: seq<ServerMessage>,   // what the server sent, but for the close message at the end
    heard: seq<ServerMessage>,
    said: seq<ClientMessage>,
    taken: seq<ClientMessage>)  // what the server received

  datatype Parties = Parties(phase: Phase, alive: bool, attempted: bool, one: Link, two: Link)

  datatype Action =
    | Write                                              // the server sends what is still to be sent
    | Take                                               // the server receives a message
    | TakeLost                                           // and cannot pass it on
    | GiveUp                                             // the server fails or times out
    | Drop                                               // and drops the connection
    | Hear(ports: Option<PortBindings>, connected: bool) // the client receives a message; how binding and connecting go
    | Say(data: seq<byte>)                               // the client sends data over the relay
    | Finish
    | Leave

  // Transports

  datatype Transport = Tcp | Udp

  function PortOf(b: PortBindings, t: Transport): Option<u16> {
    match t
    case Tcp => b.tcpPort
    case Udp => b.udpPort
  }

  /** Some transport is bound on both sides. */
  predicate Shared(p: PortBindings, q: PortBindings) {
    exists t: Transport :: PortOf(p, t).Some? && PortOf(q, t).Some?
  }

  // The server's decisions

  function Matching(p: PortBindings, q: PortBindings): bool {
    (p.tcpPort.Some? && q.tcpPort.Some?) || (p.udpPort.Some? && q.udpPort.Some?)
  }

  const START_RELAY := Sending(Relayed, Some(StartRelayMode), Some(StartRelayMode))

  function Decide(stage: Stage, r1: ClientMessage, r2: ClientMessage): Option<Phase> {
    if stage == Bind then
      match (r1, r2)
      case (DirectConnectBound(p1), DirectConnectBound(p2)) =>
        if Matching(p1, p2) then Some(Sending(Attempt, Some(AttemptDirectConnect(p2)), Some(AttemptDirectConnect(p1))))
        else Some(START_RELAY)
      case (DirectConnectFailed, DirectConnectBound(_)) => Some(START_RELAY)
      case (DirectConnectBound(_), DirectConnectFailed) => Some(START_RELAY)
      case (DirectConnectFailed, DirectConnectFailed) => Some(START_RELAY)
      case _ => None
    else
      match (r1, r2)
      case (DirectConnectSucceeded, DirectConnectSucceeded) => Some(Direct)
      case (DirectConnectFailed, DirectConnectFailed) => Some(START_RELAY)
      case _ => None
  }

  /** What follows when both messages of a stage have been sent. */
  function AfterSending(stage: Stage): Phase {
    match stage
    case Join => Sending(Bind, Some(BindForDirectConnect), Some(BindForDirectConnect))
    case Bind => Awaiting(Bind, None, None)
    case Attempt => Awaiting(Attempt, None, None)
    case Relayed => Relaying
  }

  // The client

  /** A message in the client's negotiation loop: the new mode and the reply, or an error. */
  function Answer(mode: Mode, msg: ServerMessage, ports: Option<PortBindings>, connected: bool)
    : Option<(Mode, seq<ClientMessage>)>
  {
    match mode
    case Waiting => if msg.PeerJoined? then Some((Negotiating(None), [])) else None
    case Negotiating(bound) => (
      match msg
      case BindForDirectConnect =>
        if ports.Some? then Some((Negotiating(ports), [DirectConnectBound(ports.value)]))
        else Some((mode, [DirectConnectFailed]))
      case AttemptDirectConnect(_) =>
        if bound.None? then None
        else if connected then Some((InDirect, [DirectConnectSucceeded]))
        else Some((Negotiating(None), [DirectConnectFailed]))
      case StartRelayMode => Some((InRelay, []))
      case _ => None)
    case InDirect => None
    case InRelay => if msg.Relay? then Some((InRelay, [])) else None
  }

  // Steps

  function Flip(s: Parties): Parties {
    s.(one := s.two, two := s.one,
       phase := match s.phase
                case Sending(stage, m1, m2) => Sending(stage, m2, m1)
                case Awaiting(stage, r1, r2) => Awaiting(stage, r2, r1)
                case _ => s.phase)
  }

  predicate CanAct(s: Parties, act: Action) {
    match act
    case Write => s.alive && s.phase.Sending? && s.phase.m1.Some?
    case Take => s.alive && s.one.up != [] && (s.phase.Awaiting? ==> s.phase.r1.None?) && !s.phase.Sending?
    case TakeLost => s.alive && s.one.up != [] && s.phase.Relaying?
    case GiveUp => s.alive
    case Drop => !s.alive && !s.one.closed
    case Hear(_, _) => !s.one.gone && !s.one.mode.InDirect? && s.one.down != []
    case Say(_) => !s.one.gone && s.one.mode.InRelay?
    case Finish => !s.one.gone && (s.one.mode.InRelay? || s.one.mode.InDirect?)
    case Leave => !s.one.gone
  }

  function Sent(l: Link, m: ServerMessage): Link { l.(down := l.down + [m], sent := l.sent + [m]) }

  function Said(l: Link, ms: seq<ClientMessage>): Link { l.(up := l.up + ms, said := l.said + ms) }

  function Taken(l: Link): Link
    requires l.up != []
  {
    l.(up := l.up[1..], taken := l.taken + [l.up[0]])
  }

  function DoWrite(s: Parties): Parties
    requires s.phase.Sending? && s.phase.m1.Some?
  {
    s.(one := Sent(s.one, s.phase.m1.value),
       phase := if s.phase.m2.None? then AfterSending(s.phase.stage) else s.phase.(m1 := None))
  }

  function DoTake(s: Parties): Parties
    requires s.one.up != [] && (s.phase.Awaiting? ==> s.phase.r1.None?) && !s.phase.Sending?
  {
    var msg, s' := s.one.up[0], s.(one := Taken(s.one));
    match s.phase
    case Awaiting(stage, _, r2) =>
      if r2.None? then s'.(phase := Awaiting(stage, Some(msg), None)) else
      (match Decide(stage, msg, r2.value)
       case None => s'.(phase := Awaiting(stage, Some(msg), r2), alive := false)
       case Some(phase) => s'.(phase := phase, attempted := s.attempted || (phase.Sending? && phase.stage == Attempt)))
    case Direct => s'.(alive := false)
    case Relaying => if msg.RelayClient? then s'.(two := Sent(s.two, Relay(msg.data))) else s'.(alive := false)
  }

  function DoHear(l: Link, ports: Option<PortBindings>, connected: bool): Link
    requires l.down != []
  {
    var msg, l' := l.down[0], l.(down := l.down[1..]);
    if msg.Close? then l'.(gone := true) else
    match Answer(l.mode, msg, ports, connected)
    case None => l'.(heard := l.heard + [msg], gone := true)
    case Some((mode, reply)) => Said(l'.(heard := l.heard + [msg], mode := mode), reply)
  }

  function Act(s: Parties, act: Action): Parties
    requires CanAct(s, act)
  {
    match act
    case Write => DoWrite(s)
    case Take => DoTake(s)
    case TakeLost => s.(one := Taken(s.one), alive := false)
    case GiveUp => s.(alive := false)
    case Drop => s.(one := s.one.(closed := true, down := s.one.down + [Close]))
    case Hear(ports, connected) => s.(one := DoHear(s.one, ports, connected))
    case Say(data) => s.(one := Said(s.one, [RelayClient(data)]))
    case Finish => s.(one := Said(s.one, [CloseClient]).(gone := true))
    case Leave => s.(one := s.one.(gone := true))
  }

  const NEW_LINK := Link(Waiting, false, [], [], false, [], [], [], [])

  /** Each client is told who its peer is. */
  ghost predicate Init(s: Parties) {
    exists p1, p2 ::
      s == Parties(Sending(Join, Some(PeerJoined(p2)), Some(PeerJoined(p1))), true, false, NEW_LINK, NEW_LINK)
  }

  ghost predicate Reaches(s: Parties, steps: seq<(bool, Action)>, s': Parties)
    decreases steps
  {
    if steps == [] then s' == s else
    var (first, act) := steps[0];
    if first then CanAct(s, act) && Reaches(Act(s, act), steps[1..], s')
    else CanAct(Flip(s), act) && Reaches(Flip(Act(Flip(s), act)), steps[1..], s')
  }

  ghost predicate Reachable(s: Parties) {
    exists s0, steps :: Init(s0) && Reaches(s0, steps, s)
  }

  // Payloads

  function Relays(ms: seq<ServerMessage>): seq<seq<byte>> {
    if ms == [] then [] else Relays(ms[..|ms| - 1]) + (if ms[|ms| - 1].Relay? then [ms[|ms| - 1].data] else [])
  }

  function ClientRelays(ms: seq<ClientMessage>): seq<seq<byte>> {
    if ms == [] then []
    else ClientRelays(ms[..|ms| - 1]) + (if ms[|ms| - 1].RelayClient? then [ms[|ms| - 1].data] else [])
  }

  // The invariant

  /** The message at which relaying starts: third, or fourth if a direct connection was attempted. */
  function StartsAt(attempted: bool): nat { if attempted then 3 else 2 }

  /** What the server sends, in order. */
  predicate Talk(m: ServerMessage, i: nat, at: nat) {
    if i == 0 then m.PeerJoined?
    else if i == 1 then m.BindForDirectConnect?
    else if i < at then m.AttemptDirectConnect?
    else if i == at then m.StartRelayMode?
    else m.Relay?
  }

  ghost predicate Talks(sent: seq<ServerMessage>, at: nat) {
    forall i :: 0 <= i < |sent| ==> Talk(sent[i], i, at)
  }

  ghost predicate ModeOk(l: Link, at: nat) {
    var k := |l.heard|;
    match l.mode
    case Waiting => k == 0 && l.said == []
    case Negotiating(bound) =>
      && 1 <= k <= at
      && (k == 1 ==> bound == None && l.said == [])
      && (k == 2 ==> l.said == [if bound.Some? then DirectConnectBound(bound.value) else DirectConnectFailed])
      && (k == 3 ==> bound == None && |l.said| == 2
                     && l.said[0].DirectConnectBound? && l.said[1] == DirectConnectFailed)
    case InDirect =>
      at == 3 && k == 3 && |l.said| >= 2 && l.said[0].DirectConnectBound? && l.said[1] == DirectConnectSucceeded
    case InRelay =>
      k > at && |l.said| >= at - 1 && (at == 3 ==> l.said[0].DirectConnectBound? && l.said[1] == DirectConnectFailed)
  }

  ghost predicate ClientOk(l: Link, at: nat) {
    && Talks(l.sent, at) && ModeOk(l, at)
    && l.heard <= l.sent && l.said == l.taken + l.up
    && (!l.gone ==> l.heard + l.down == l.sent + if l.closed then [Close] else [])
  }

  function Pending<T>(o: Option<T>): seq<T> { if o.Some? then [o.value] else [] }

  /** Where the server stands with side one. */
  ghost predicate ServerOk(s: Parties) {
    var (sent, taken, at) := (s.one.sent, s.one.taken, StartsAt(s.attempted));
    match s.phase
    case Sending(stage, m1, _) =>
      && (m1.Some? ==> Talk(m1.value, |sent|, at) && !m1.value.Relay?)
      && |sent| + |Pending(m1)| == (match stage case Join => 1 case Bind => 2 case Attempt => 3 case Relayed => at + 1)
      && (stage == Join || stage == Bind ==> taken == [] && !s.attempted)
      && (stage == Attempt ==> s.attempted && |taken| == 1)
      && (stage == Relayed ==> |taken| == at - 1 && SaidFailed(taken, at))
    case Awaiting(stage, r1, _) =>
      && (stage == Bind ==> |sent| == 2 && taken == Pending(r1) && !s.attempted)
      && (stage == Attempt ==> s.attempted && |sent| == 3 && |taken| >= 1 && taken == [taken[0]] + Pending(r1))
      && (stage == Bind || stage == Attempt)
    case Direct => s.attempted && |sent| == 3 && |taken| >= 2 && taken[1] == DirectConnectSucceeded
    case Relaying => |sent| >= at + 1 && |taken| >= at - 1 && SaidFailed(taken, at)
  }

  /** The answers after which relaying starts. */
  ghost predicate SaidFailed(taken: seq<ClientMessage>, at: nat) {
    if at == 3 then |taken| >= 2 && taken[0].DirectConnectBound? && taken[1] == DirectConnectFailed
    else |taken| >= 1 && (taken[0].DirectConnectBound? || taken[0] == DirectConnectFailed)
  }

  /** A client is asked to connect to the ports its peer announced. */
  ghost predicate PortsOk(s: Parties) {
    s.attempted ==>
      && |s.one.taken| >= 1 && s.one.taken[0].DirectConnectBound?
      && |s.two.taken| >= 1 && s.two.taken[0].DirectConnectBound?
      && Matching(s.one.taken[0].bound, s.two.taken[0].bound)
      && (|s.one.sent| >= 3 ==> s.one.sent[2] == AttemptDirectConnect(s.two.taken[0].bound))
      && (s.phase.Sending? && s.phase.stage == Attempt && s.phase.m1.Some? ==>
            s.phase.m1.value == AttemptDirectConnect(s.two.taken[0].bound))
  }

  /** Payloads from side two to side one. */
  ghost predicate FifoOk(s: Parties) {
    && Relays(s.one.sent) <= ClientRelays(s.two.taken)
    && (s.alive && s.phase.Relaying? ==> Relays(s.one.sent) == ClientRelays(s.two.taken))
  }

  ghost predicate SideInv(s: Parties) {
    && ClientOk(s.one, StartsAt(s.attempted)) && (s.alive ==> !s.one.closed)
    && ServerOk(s) && PortsOk(s) && FifoOk(s)
  }

  ghost predicate Inv(s: Parties) {
    SideInv(s) && SideInv(Flip(s))
  }

  // What each action keeps

  lemma SentOk(l: Link, m: ServerMessage, at: nat)
    requires ClientOk(l, at) && Talk(m, |l.sent|, at) && !l.closed
    ensures ClientOk(Sent(l, m), at)
  {
    assert l.heard + (l.down + [m]) == l.heard + l.down + [m];
  }

  lemma TakenOk(l: Link, at: nat)
    requires ClientOk(l, at) && l.up != []
    ensures ClientOk(Taken(l), at)
  {
    assert l.taken + [l.up[0]] + l.up[1..] == l.taken + l.up;
  }

  lemma SaidOk(l: Link, ms: seq<ClientMessage>, at: nat)
    requires ClientOk(l, at) && (l.mode.InRelay? || l.mode.InDirect?)
    ensures ClientOk(Said(l, ms), at)
  {
    assert l.taken + (l.up + ms) == l.taken + l.up + ms;
  }

  /** While nothing has been relayed, where relaying would start does not matter. */
  lemma AtMoves(l: Link, at: nat, at': nat)
    requires ClientOk(l, at) && |l.sent| <= 2 && at >= 2 && at' >= 2
    ensures ClientOk(l, at')
  {
    forall i | 0 <= i < |l.sent| ensures Talk(l.sent[i], i, at') {
      assert Talk(l.sent[i], i, at);
    }
  }

  lemma {:induction false} NoRelays(sent: seq<ServerMessage>, at: nat)
    requires Talks(sent, at) && |sent| <= at + 1
    ensures Relays(sent) == []
    decreases |sent|
  {
    if sent != [] {
      var front := sent[..|sent| - 1];
      assert Talk(sent[|sent| - 1], |sent| - 1, at);
      forall i | 0 <= i < |front| ensures Talk(front[i], i, at) {
        assert Talk(sent[i], i, at);
      }
      NoRelays(front, at);
    }
  }

  lemma RelaysGrow(sent: seq<ServerMessage>, m: ServerMessage)
    ensures Relays(sent + [m]) == Relays(sent) + if m.Relay? then [m.data] else []
  {
    assert (sent + [m])[..|sent|] == sent;
  }

  lemma ClientRelaysGrow(taken: seq<ClientMessage>, m: ClientMessage)
    ensures ClientRelays(taken + [m]) == ClientRelays(taken) + if m.RelayClient? then [m.data] else []
  {
    assert (taken + [m])[..|taken|] == taken;
  }

  lemma NoClientRelays(taken: seq<ClientMessage>, at: nat)
    requires SaidFailed(taken, at) && |taken| == at - 1 && (at == 2 || at == 3)
    ensures ClientRelays(taken) == []
  {
    assert ClientRelays(taken[..0]) == [];
    assert taken[..1][..0] == [];
    if at == 3 {
      assert ClientRelays(taken[..1]) == [] + [] && taken[..2] == taken;
    } else {
      assert taken[..1] == taken;
    }
  }

  lemma NothingRelayed(s: Parties)
    requires s.phase.Relaying?
    requires var at := StartsAt(s.attempted);
             && ClientOk(s.one, at) && |s.one.sent| == at + 1 && |s.two.taken| == at - 1 && SaidFailed(s.two.taken, at)
    ensures FifoOk(s)
  {
    NoRelays(s.one.sent, StartsAt(s.attempted));
    NoClientRelays(s.two.taken, StartsAt(s.attempted));
  }

  lemma WriteServer(s: Parties)
    requires ServerOk(s) && PortsOk(s) && ServerOk(Flip(s)) && PortsOk(Flip(s)) && CanAct(s, Write)
    ensures var s' := DoWrite(s); ServerOk(s') && PortsOk(s')
  {
    hide SaidFailed, Matching;
  }

  lemma WriteServerOther(s: Parties)
    requires ServerOk(s) && PortsOk(s) && ServerOk(Flip(s)) && PortsOk(Flip(s)) && CanAct(s, Write)
    ensures var s' := DoWrite(s); ServerOk(Flip(s')) && PortsOk(Flip(s'))
  {
    hide SaidFailed, Matching;
  }

  lemma SentFifo(s: Parties, s': Parties, m: ServerMessage)
    requires FifoOk(s) && FifoOk(Flip(s)) && !m.Relay? && !s'.phase.Relaying?
    requires s'.one.sent == s.one.sent + [m] && s'.two == s.two && s'.one.taken == s.one.taken
    ensures FifoOk(s') && FifoOk(Flip(s'))
  {
    RelaysGrow(s.one.sent, m);
    hide Relays, ClientRelays;
  }

  lemma WriteFifo(s: Parties)
    requires Inv(s) && CanAct(s, Write)
    requires ClientOk(DoWrite(s).one, StartsAt(s.attempted))
    requires ServerOk(DoWrite(s)) && ServerOk(Flip(DoWrite(s)))
    ensures FifoOk(DoWrite(s)) && FifoOk(Flip(DoWrite(s)))
  {
    var s' := DoWrite(s);
    assert !s.phase.m1.value.Relay?;
    hide ClientOk, SaidFailed, PortsOk, FifoOk, Talk;
    if s'.phase.Relaying? {
      NothingRelayed(s');
      NothingRelayed(Flip(s'));
    } else {
      hide ServerOk;
      SentFifo(s, s', s.phase.m1.value);
    }
  }

  lemma WriteOk(s: Parties)
    requires Inv(s) && CanAct(s, Write)
    ensures Inv(DoWrite(s))
  {
    SentOk(s.one, s.phase.m1.value, StartsAt(s.attempted));
    WriteServer(s);
    WriteServerOther(s);
    hide ClientOk, ServerOk, PortsOk, FifoOk;
    WriteFifo(s);
  }

  lemma TakeAwaiting(s: Parties)
    requires ServerOk(s) && PortsOk(s) && ServerOk(Flip(s)) && PortsOk(Flip(s)) && CanAct(s, Take) && s.phase.Awaiting?
    ensures var s' := DoTake(s); ServerOk(s') && PortsOk(s')
  {
    hide Matching;
  }

  lemma TakeAwaitingOther(s: Parties)
    requires ServerOk(s) && PortsOk(s) && ServerOk(Flip(s)) && PortsOk(Flip(s)) && CanAct(s, Take) && s.phase.Awaiting?
    ensures var s' := DoTake(s); ServerOk(Flip(s')) && PortsOk(Flip(s'))
  {
    hide Matching;
    MatchingSymmetric();
  }

  lemma MatchingSymmetric()
    ensures forall p, q :: Matching(p, q) == Matching(q, p)
  {
  }

  lemma DecisionShape(s: Parties)
    requires CanAct(s, Take) && s.phase.Awaiting? && ServerOk(s) && ServerOk(Flip(s))
    ensures var s' := DoTake(s);
            && s'.one == Taken(s.one) && s'.two == s.two && !s'.phase.Relaying? && (s'.alive ==> s.alive)
            && (s'.attempted != s.attempted ==> s'.attempted && |s.one.sent| == |s.two.sent| == 2)
  {
  }

  lemma TakeClients(s: Parties, s': Parties)
    requires Inv(s) && s.one.up != [] && s'.one == Taken(s.one) && s'.two == s.two
    requires s'.attempted != s.attempted ==> s'.attempted && |s.one.sent| == |s.two.sent| == 2
    ensures ClientOk(s'.one, StartsAt(s'.attempted)) && ClientOk(s'.two, StartsAt(s'.attempted))
  {
    TakenOk(s.one, StartsAt(s.attempted));
    hide ClientOk, SaidFailed, PortsOk, ServerOk, FifoOk;
    if s'.attempted != s.attempted {
      AtMoves(s'.one, 2, 3);
      AtMoves(s'.two, 2, 3);
    }
  }

  lemma TakeFifo(s: Parties, s': Parties)
    requires FifoOk(s) && FifoOk(Flip(s)) && s.one.up != [] && s'.one == Taken(s.one) && s'.two == s.two
             && !s'.phase.Relaying?
    ensures FifoOk(s') && FifoOk(Flip(s'))
  {
    ClientRelaysGrow(s.one.taken, s.one.up[0]);
    hide Relays, ClientRelays;
  }

  lemma TakeDecision(s: Parties)
    requires Inv(s) && CanAct(s, Take) && s.phase.Awaiting?
    ensures Inv(DoTake(s))
  {
    var s' := DoTake(s);
    DecisionShape(s);
    TakeAwaiting(s);
    TakeAwaitingOther(s);
    hide ClientOk, SaidFailed, PortsOk, ServerOk, FifoOk, DoTake;
    TakeClients(s, s');
    TakeFifo(s, s');
  }

  /** In the last phases, receiving and passing on change nothing the server stands on. */
  lemma LastPhases(s: Parties, s': Parties)
    requires ServerOk(s) && PortsOk(s) && (s.phase.Relaying? || s.phase.Direct?)
    requires s'.phase == s.phase && s'.attempted == s.attempted
    requires s.one.taken <= s'.one.taken && s.two.taken <= s'.two.taken && s.one.sent <= s'.one.sent
    requires s.phase.Direct? ==> s'.one.sent == s.one.sent
    ensures ServerOk(s') && PortsOk(s')
  {
    hide Matching;
  }

  lemma TakeLast(s: Parties, s': Parties)
    requires Inv(s) && s.one.up != [] && (s.phase.Relaying? || s.phase.Direct?)
    requires s'.phase == s.phase && s'.attempted == s.attempted && s'.one == Taken(s.one)
    requires s'.two == s.two || (s.phase.Relaying? && exists m :: s'.two == Sent(s.two, m))
    ensures ServerOk(s') && PortsOk(s') && ServerOk(Flip(s')) && PortsOk(Flip(s'))
    ensures ClientOk(s'.one, StartsAt(s.attempted))
  {
    TakenOk(s.one, StartsAt(s.attempted));
    hide ClientOk, ServerOk, PortsOk, FifoOk;
    LastPhases(s, s');
    LastPhases(Flip(s), Flip(s'));
  }

  lemma TakePassedOn(s: Parties)
    requires Inv(s) && CanAct(s, Take) && s.phase.Relaying? && s.one.up[0].RelayClient?
    ensures Inv(s.(one := Taken(s.one), two := Sent(s.two, Relay(s.one.up[0].data))))
  {
    var m := Relay(s.one.up[0].data);
    var s' := s.(one := Taken(s.one), two := Sent(s.two, m));
    SentOk(s.two, m, StartsAt(s.attempted));
    hide ClientOk, ServerOk, PortsOk, FifoOk;
    TakeLast(s, s');
    PassedFifo(s, s');
  }

  lemma PassedFifo(s: Parties, s': Parties)
    requires FifoOk(s) && FifoOk(Flip(s)) && s.alive && s.phase.Relaying? && s.one.up != [] && s.one.up[0].RelayClient?
    requires s' == s.(one := Taken(s.one), two := Sent(s.two, Relay(s.one.up[0].data)))
    ensures FifoOk(s') && FifoOk(Flip(s'))
  {
    RelaysGrow(s.two.sent, Relay(s.one.up[0].data));
    ClientRelaysGrow(s.one.taken, s.one.up[0]);
    hide Relays, ClientRelays;
  }

  lemma TakeEnds(s: Parties)
    requires Inv(s) && s.alive && s.one.up != [] && (s.phase.Relaying? || s.phase.Direct?)
    ensures Inv(s.(one := Taken(s.one), alive := false))
  {
    hide ClientOk, Relays, ClientRelays, ServerOk, PortsOk;
    TakeLast(s, s.(one := Taken(s.one), alive := false));
    ClientRelaysGrow(s.one.taken, s.one.up[0]);
  }

  lemma TakeRelay(s: Parties)
    requires Inv(s) && CanAct(s, Take) && !s.phase.Awaiting?
    ensures Inv(DoTake(s))
  {
    hide SideInv, Taken, Sent;
    if s.phase.Relaying? && s.one.up[0].RelayClient? {
      TakePassedOn(s);
    } else {
      TakeEnds(s);
    }
  }

  /** Only a close message can be unexpected to a client. */
  lemma AnswerExpected(s: Parties, ports: Option<PortBindings>, connected: bool)
    requires SideInv(s) && CanAct(s, Hear(ports, connected))
    ensures var l := s.one;
            && (!l.down[0].Close? ==>
                  && Answer(l.mode, l.down[0], ports, connected).Some? && |l.heard| < |l.sent|
                  && l.sent[|l.heard|] == l.down[0] && Talk(l.down[0], |l.heard|, StartsAt(s.attempted)))
            && (l.down[0].AttemptDirectConnect? ==>
                  && |l.heard| == 2 && |l.sent| > 2 && s.attempted && l.sent[2] == l.down[0]
                  && l.mode.Negotiating? && l.mode.bound.Some? && l.said == [DirectConnectBound(l.mode.bound.value)])
  {
    var l := s.one;
    assert (l.heard + l.down)[|l.heard|] == l.down[0];
    assert |l.heard| < |l.sent| || l.down[0] == Close;
    assert s.attempted ==> l.said[0] == l.taken[0];
    hide ServerOk, FifoOk, Matching;
  }

  lemma HearOk(s: Parties, ports: Option<PortBindings>, connected: bool)
    requires SideInv(s) && CanAct(s, Hear(ports, connected))
    ensures ClientOk(DoHear(s.one, ports, connected), StartsAt(s.attempted))
  {
    AnswerExpected(s, ports, connected);
    hide ServerOk, FifoOk, PortsOk;
    if !s.one.down[0].Close? {
      HeardMode(s.one, StartsAt(s.attempted), ports, connected);
      HeardHistory(s.one, StartsAt(s.attempted), ports, connected);
    }
  }

  lemma HeardHistory(l: Link, at: nat, ports: Option<PortBindings>, connected: bool)
    requires ClientOk(l, at) && !l.gone && l.down != [] && !l.down[0].Close? && ModeOk(DoHear(l, ports, connected), at)
    requires Answer(l.mode, l.down[0], ports, connected).Some? && |l.heard| < |l.sent| && l.sent[|l.heard|] == l.down[0]
    ensures ClientOk(DoHear(l, ports, connected), at)
  {
    hide ModeOk, Talk, Talks, Answer;
    assert l.heard + [l.down[0]] + l.down[1..] == l.heard + l.down;
    var reply := Answer(l.mode, l.down[0], ports, connected).value.1;
    assert l.taken + (l.up + reply) == l.taken + l.up + reply;
  }

  lemma HeardMode(l: Link, at: nat, ports: Option<PortBindings>, connected: bool)
    requires ModeOk(l, at) && l.down != [] && !l.down[0].Close? && Talk(l.down[0], |l.heard|, at) && !l.mode.InDirect?
    requires Answer(l.mode, l.down[0], ports, connected).Some? && (at == 2 || at == 3)
    ensures ModeOk(DoHear(l, ports, connected), at)
  {
  }

  /** What a client does by itself changes nothing for the others. */
  lemma ClientStep(s: Parties, l: Link)
    requires Inv(s) && ClientOk(l, StartsAt(s.attempted)) && l.sent == s.one.sent && l.taken == s.one.taken
    requires s.alive ==> !l.closed
    ensures Inv(s.(one := l))
  {
    hide ClientOk, Relays, ClientRelays, SaidFailed, Matching;
  }

  lemma OthersOk(s: Parties, act: Action)
    requires Inv(s) && CanAct(s, act) && !act.Write? && !act.Take? && !act.TakeLost?
    ensures Inv(Act(s, act))
  {
    var at := StartsAt(s.attempted);
    hide Relays, ClientRelays, SaidFailed, Answer, ServerOk, PortsOk, Talk;
    match act {
      case Hear(ports, connected) =>
        HearOk(s, ports, connected);
        hide ClientOk;
        ClientStep(s, DoHear(s.one, ports, connected));
      case Say(data) =>
        SaidOk(s.one, [RelayClient(data)], at);
        hide ClientOk;
        ClientStep(s, Said(s.one, [RelayClient(data)]));
      case Finish =>
        SaidOk(s.one, [CloseClient], at);
        ClientStep(s, Said(s.one, [CloseClient]).(gone := true));
      case Drop =>
        assert s.one.heard + (s.one.down + [Close]) == s.one.heard + s.one.down + [Close];
        ClientStep(s, s.one.(closed := true, down := s.one.down + [Close]));
      case Leave => ClientStep(s, s.one.(gone := true));
      case GiveUp => GiveUpOk(s);
    }
  }

  lemma GiveUpOk(s: Parties)
    requires Inv(s)
    ensures Inv(s.(alive := false))
  {
    hide ClientOk, Relays, ClientRelays, SaidFailed, Matching;
  }

  lemma ActOk(s: Parties, act: Action)
    requires Inv(s) && CanAct(s, act)
    ensures Inv(Act(s, act))
  {
    hide Inv, DoTake, DoWrite;
    match act
    case Write => WriteOk(s);
    case Take => if s.phase.Awaiting? { TakeDecision(s); } else { TakeRelay(s); }
    case TakeLost => TakeEnds(s);
    case _ => OthersOk(s, act);
  }

  lemma FlipOk(s: Parties)
    requires Inv(s)
    ensures Inv(Flip(s)) && Flip(Flip(s)) == s
  {
    hide SideInv;
  }

  lemma {:induction false} ReachesOk(s: Parties, steps: seq<(bool, Action)>, s': Parties)
    requires Inv(s) && Reaches(s, steps, s')
    ensures Inv(s')
    decreases steps
  {
    hide Inv, Act, Flip, CanAct;
    if steps != [] {
      var (first, act) := steps[0];
      if first {
        ActOk(s, act);
        ReachesOk(Act(s, act), steps[1..], s');
      } else {
        FlipOk(s);
        ActOk(Flip(s), act);
        FlipOk(Act(Flip(s), act));
        ReachesOk(Flip(Act(Flip(s), act)), steps[1..], s');
      }
    }
  }

  lemma ReachableOk(s: Parties)
    requires Reachable(s)
    ensures Inv(s)
  {
    var s0, steps :| Init(s0) && Reaches(s0, steps, s);
    ReachesOk(s0, steps, s);
  }

  // The theorems

  /** Never is one client in direct mode while the other is in relay mode. */
  lemma NoSplitModes(s: Parties)
    requires Reachable(s)
    ensures !(s.one.mode.InDirect? && s.two.mode.InRelay?) && !(s.two.mode.InDirect? && s.one.mode.InRelay?)
  {
    ReachableOk(s);
    NotSplit(s);
    FlipOk(s);
    NotSplit(Flip(s));
  }

  lemma RelayAgreed(s: Parties)
    requires Inv(s) && s.two.mode.InRelay?
    ensures SaidFailed(s.one.taken, StartsAt(s.attempted))
  {
    var at := StartsAt(s.attempted);
    assert Talk(s.two.sent[at], at, at);
  }

  lemma NotSplit(s: Parties)
    requires Inv(s)
    ensures !(s.one.mode.InDirect? && s.two.mode.InRelay?)
  {
    if s.two.mode.InRelay? {
      RelayAgreed(s);
      assert s.attempted ==> s.one.said[1] == s.one.taken[1];
    }
  }

  lemma MatchingIsShared(p: PortBindings, q: PortBindings)
    ensures Matching(p, q) <==> Shared(p, q)
  {
    assert PortOf(p, Tcp) == p.tcpPort && PortOf(q, Tcp) == q.tcpPort;
    assert PortOf(p, Udp) == p.udpPort && PortOf(q, Udp) == q.udpPort;
  }

  /** The server asks a client to connect only once it is bound, and to the ports its peer announced,
      of which one is for a transport it has bound itself. */
  lemma AttemptIsBound(s: Parties)
    requires Reachable(s) && s.one.down != [] && s.one.down[0].AttemptDirectConnect? && !s.one.gone
    requires !s.one.mode.InDirect?
    ensures s.one.mode.Negotiating? && s.one.mode.bound.Some? && |s.two.said| >= 1
    ensures s.two.said[0] == DirectConnectBound(s.one.down[0].ports)
    ensures Shared(s.one.mode.bound.value, s.one.down[0].ports)
  {
    ReachableOk(s);
    AnswerExpected(s, None, false);
    MatchingIsShared(s.one.mode.bound.value, s.one.down[0].ports);
    assert s.one.said[0] == s.one.taken[0] && s.two.said[0] == s.two.taken[0];
  }

  /** A client never hears what it does not expect, except that the server has closed. */
  lemma NeverUnexpected(s: Parties, ports: Option<PortBindings>, connected: bool)
    requires Reachable(s) && CanAct(s, Hear(ports, connected)) && !s.one.down[0].Close?
    ensures Answer(s.one.mode, s.one.down[0], ports, connected).Some?
  {
    ReachableOk(s);
    AnswerExpected(s, ports, connected);
  }

  /** What a client has received over the relay is, in order, a prefix of what its peer has sent. */
  lemma RelayIsFifo(s: Parties)
    requires Reachable(s)
    ensures Relays(s.one.heard) <= ClientRelays(s.two.said)
    ensures Relays(s.two.heard) <= ClientRelays(s.one.said)
  {
    ReachableOk(s);
    PrefixRelays(s.one.heard, s.one.sent);
    PrefixRelays(s.two.heard, s.two.sent);
    PrefixClientRelays(s.one.taken, s.one.said);
    PrefixClientRelays(s.two.taken, s.two.said);
  }

  lemma {:induction false} PrefixRelays(a: seq<ServerMessage>, b: seq<ServerMessage>)
    requires a <= b
    ensures Relays(a) <= Relays(b)
    decreases |b|
  {
    if a != b {
      PrefixRelays(a, b[..|b| - 1]);
    }
  }

  lemma {:induction false} PrefixClientRelays(a: seq<ClientMessage>, b: seq<ClientMessage>)
    requires a <= b
    ensures ClientRelays(a) <= ClientRelays(b)
    decreases |b|
  {
    if a != b {
      PrefixClientRelays(a, b[..|b| - 1]);
    }
  }
}
