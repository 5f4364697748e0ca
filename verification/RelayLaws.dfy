/**
 What the server decides and what the clients answer in any run of `RelayProtocol`, in terms of what
 was announced: a direct connection is attempted exactly when both clients have bound a common
 transport (tunshell-server/src/relay/server/relay.rs and tunshell-client/src/client.rs).
 */
module RelayLaws {
  import opened Wrappers
  import opened Messages
  import opened RelayProtocol

  /** Both are ports that were bound, for a common transport. */
  predicate BothShared(r1: ClientMessage, r2: ClientMessage) {
    r1.DirectConnectBound? && r2.DirectConnectBound? && Shared(r1.bound, r2.bound)
  }

  lemma SharedSymmetric(p: PortBindings, q: PortBindings)
    ensures Shared(p, q) <==> Shared(q, p)
  {
  }

  /** Binding is answered with the ports bound or with a failure. */
  predicate IsBinding(m: ClientMessage) { m.DirectConnectBound? || m.DirectConnectFailed? }

  /** Connecting is answered with success or failure. */
  predicate IsConnecting(m: ClientMessage) { m.DirectConnectSucceeded? || m.DirectConnectFailed? }

  // Relaying without an attempt is for want of a common transport

  predicate RelayChosen(s: Parties) { s.phase.Relaying? || (s.phase.Sending? && s.phase.stage == Relayed) }

  predicate Justified(s: Parties) {
    !s.attempted && RelayChosen(s) ==>
      |s.one.taken| >= 1 && |s.two.taken| >= 1 && !BothShared(s.one.taken[0], s.two.taken[0])
  }

  lemma DecidingJustified(s: Parties)
    requires Inv(s) && CanAct(s, Take) && s.phase.Awaiting?
    ensures Justified(DoTake(s))
  {
    hide ClientOk, PortsOk, FifoOk, SaidFailed, Matching, Shared;
    if s.phase.r2.Some? && s.phase.stage == Bind {
      var r1, r2 := s.one.up[0], s.phase.r2.value;
      assert DoTake(s).one.taken[0] == r1 && s.two.taken[0] == r2;
      if r1.DirectConnectBound? && r2.DirectConnectBound? {
        MatchingIsShared(r1.bound, r2.bound);
      }
    }
  }

  lemma ActJustified(s: Parties, act: Action)
    requires Inv(s) && CanAct(s, act) && Justified(s)
    ensures Justified(Act(s, act))
  {
    if act.Take? && s.phase.Awaiting? {
      DecidingJustified(s);
    } else {
      hide ClientOk, PortsOk, FifoOk, SaidFailed, Shared, Answer;
    }
  }

  lemma FlipJustified(s: Parties)
    ensures Justified(Flip(s)) <==> Justified(s)
  {
    if |s.one.taken| >= 1 && |s.two.taken| >= 1 && s.one.taken[0].DirectConnectBound?
       && s.two.taken[0].DirectConnectBound? {
      SharedSymmetric(s.one.taken[0].bound, s.two.taken[0].bound);
    }
    hide Shared;
  }

  lemma {:induction false} ReachesJustified(s: Parties, steps: seq<(bool, Action)>, s': Parties)
    requires Inv(s) && Justified(s) && Reaches(s, steps, s')
    ensures Justified(s')
    decreases steps
  {
    hide Inv, Act, Flip, CanAct, Justified;
    if steps != [] {
      var (first, act) := steps[0];
      if first {
        ActOk(s, act);
        ActJustified(s, act);
        ReachesJustified(Act(s, act), steps[1..], s');
      } else {
        FlipOk(s);
        FlipJustified(s);
        ActOk(Flip(s), act);
        ActJustified(Flip(s), act);
        FlipOk(Act(Flip(s), act));
        FlipJustified(Act(Flip(s), act));
        ReachesJustified(Flip(Act(Flip(s), act)), steps[1..], s');
      }
    }
  }

  lemma StartOk(s: Parties)
    requires Init(s)
    ensures Inv(s) && Justified(s)
  {
    ReachableOk(s) by {
      assert Reaches(s, [], s);
    }
  }

  lemma ReachableJustified(s: Parties)
    requires Reachable(s)
    ensures Inv(s) && Justified(s)
  {
    ReachableOk(s);
    hide Inv, Justified, Init;
    var s0, steps :| Init(s0) && Reaches(s0, steps, s);
    StartOk(s0);
    ReachesJustified(s0, steps, s);
  }

  // Side two is side one of the flipped run

  function FlipSteps(steps: seq<(bool, Action)>): seq<(bool, Action)> {
    if steps == [] then [] else [(!steps[0].0, steps[0].1)] + FlipSteps(steps[1..])
  }

  lemma FlipTwice(s: Parties)
    ensures Flip(Flip(s)) == s
  {
  }

  lemma {:induction false} FlipReaches(s: Parties, steps: seq<(bool, Action)>, s': Parties)
    requires Reaches(s, steps, s')
    ensures Reaches(Flip(s), FlipSteps(steps), Flip(s'))
    decreases steps
  {
    hide Act, Flip, CanAct;
    FlipTwice(s);
    if steps != [] {
      var (first, act) := steps[0];
      assert FlipSteps(steps)[1..] == FlipSteps(steps[1..]);
      if first {
        FlipReaches(Act(s, act), steps[1..], s');
      } else {
        FlipTwice(Act(Flip(s), act));
        FlipReaches(Flip(Act(Flip(s), act)), steps[1..], s');
      }
    }
  }

  lemma FlipReachable(s: Parties)
    requires Reachable(s)
    ensures Reachable(Flip(s))
  {
    var s0, steps :| Init(s0) && Reaches(s0, steps, s);
    FlipReaches(s0, steps, s);
    assert Init(Flip(s0)) by {
      var p1, p2 :| s0 == Parties(Sending(Join, Some(PeerJoined(p2)), Some(PeerJoined(p1))), true, false,
                                  NEW_LINK, NEW_LINK);
      assert Flip(s0) == Parties(Sending(Join, Some(PeerJoined(p1)), Some(PeerJoined(p2))), true, false,
                                 NEW_LINK, NEW_LINK);
    }
  }

  // What the server decides

  /** A client is only asked to connect when both have announced ports for a common transport, and it is
      asked to connect to the ports of its peer. */
  lemma AttemptIsShared(s: Parties, i: nat)
    requires Reachable(s) && i < |s.one.sent| && s.one.sent[i].AttemptDirectConnect?
    ensures s.one.said != [] && s.two.said != [] && BothShared(s.one.said[0], s.two.said[0])
    ensures s.one.sent[i].ports == s.two.said[0].bound
  {
    ReachableOk(s);
    assert Talk(s.one.sent[i], i, StartsAt(s.attempted));
    assert i == 2 && s.attempted;
    var m1, m2 := s.one.taken[0], s.two.taken[0];
    assert s.one.said[0] == m1 && s.two.said[0] == m2;
    MatchingIsShared(m1.bound, m2.bound);
  }

  lemma NotAttempted(s: Parties)
    requires Inv(s) && |s.one.sent| >= 3 && !s.one.sent[2].AttemptDirectConnect?
    ensures !s.attempted
  {
    assert Talk(s.one.sent[2], 2, StartsAt(s.attempted));
  }

  /** Both have announced their ports and relaying starts without an attempt: they share no transport. */
  lemma RelayIsUnshared(s: Parties, i: nat)
    requires Reachable(s) && i < |s.one.sent| && s.one.sent[i].StartRelayMode?
    requires forall k :: 0 <= k < |s.one.sent| ==> !s.one.sent[k].AttemptDirectConnect?
    ensures s.one.said != [] && s.two.said != [] && IsBinding(s.one.said[0]) && IsBinding(s.two.said[0])
    ensures !BothShared(s.one.said[0], s.two.said[0])
  {
    ReachableJustified(s);
    assert Talk(s.one.sent[i], i, StartsAt(s.attempted));
    NotAttempted(s);
    assert RelayChosen(s);
    assert SaidFailed(s.one.taken, 2) && SaidFailed(s.two.taken, 2);
    assert s.one.said[0] == s.one.taken[0] && s.two.said[0] == s.two.taken[0];
  }

  lemma AnswersFit(s: Parties)
    requires Inv(s) && CanAct(s, Take) && s.phase.Awaiting?
    ensures s.phase.stage == Bind ==> IsBinding(s.one.up[0])
    ensures s.phase.stage == Attempt ==> IsConnecting(s.one.up[0])
  {
    hide PortsOk, FifoOk, SaidFailed;
    assert s.one.said[|s.one.taken|] == s.one.up[0];
  }

  lemma WaitingFits(s: Parties)
    requires Inv(s) && s.phase.Awaiting? && s.phase.r1.Some?
    ensures s.phase.stage == Bind ==> IsBinding(s.phase.r1.value)
    ensures s.phase.stage == Attempt ==> IsConnecting(s.phase.r1.value)
  {
    hide PortsOk, FifoOk, SaidFailed;
    var k := |s.one.taken| - 1;
    assert s.one.said[k] == s.one.taken[k] == s.phase.r1.value;
  }

  /** What the server does with the second answer of a pair. After binding it never gives up: it asks for an
      attempt exactly when a transport is shared. After an attempt it gives up exactly when one
      client has succeeded and the other failed. */
  lemma DecisionExact(s: Parties)
    requires Reachable(s) && CanAct(s, Take) && s.phase.Awaiting? && s.phase.r2.Some?
    ensures var (s', r1, r2) := (Act(s, Take), s.one.up[0], s.phase.r2.value);
            match s.phase.stage
            case Bind =>
              && s'.alive
              && (BothShared(r1, r2) ==>
                    s'.phase == Sending(Attempt, Some(AttemptDirectConnect(r2.bound)),
                                        Some(AttemptDirectConnect(r1.bound))))
              && (!BothShared(r1, r2) ==> s'.phase == Sending(Relayed, Some(StartRelayMode), Some(StartRelayMode)))
            case _ =>
              && (s'.alive <==> r1 == r2) && (s'.alive && r1.DirectConnectSucceeded? ==> s'.phase == Direct)
              && (s'.alive && r1.DirectConnectFailed? ==>
                    s'.phase == Sending(Relayed, Some(StartRelayMode), Some(StartRelayMode)))
  {
    ReachableOk(s);
    AnswersFit(s);
    FlipOk(s);
    WaitingFits(Flip(s));
    assert s.phase.stage == Bind || s.phase.stage == Attempt;
    var r1, r2 := s.one.up[0], s.phase.r2.value;
    if r1.DirectConnectBound? && r2.DirectConnectBound? {
      MatchingIsShared(r1.bound, r2.bound);
    }
    hide Inv, Matching, Shared;
  }

  // What the server passes on

  /** While the server lives and relays, it has passed on everything it received. */
  lemma NothingWithheld(s: Parties)
    requires Reachable(s) && s.alive && s.phase.Relaying?
    ensures Relays(s.one.sent) == ClientRelays(s.two.taken) && Relays(s.two.sent) == ClientRelays(s.one.taken)
  {
    ReachableOk(s);
  }

  /** The session goes on with a payload to relay, which is the next message on its way to the peer, and
      ends with any other message. */
  lemma TakeExact(s: Parties)
    requires CanAct(s, Take) && !s.phase.Awaiting?
    ensures var (s', m) := (Act(s, Take), s.one.up[0]);
            && s'.one.up == s.one.up[1..] && s'.one.down == s.one.down && s'.phase == s.phase
            && (s'.alive <==> s.phase.Relaying? && m.RelayClient?)
            && s'.two.down == s.two.down + if s'.alive then [Relay(m.data)] else []
  {
  }

  // What a client does

  /** In any run a client answers as it bound and connected, and leaves the negotiation when it is connected or told
      to relay. */
  lemma HearExact(s: Parties, ports: Option<PortBindings>, connected: bool)
    requires Reachable(s) && CanAct(s, Hear(ports, connected))
    ensures var (l, l', m) := (s.one, Act(s, Hear(ports, connected)).one, s.one.down[0]);
            && l'.down == l.down[1..] && l.said <= l'.said && (l'.gone <==> m.Close?)
            && var said := l'.said[|l.said|..];
            match m
            case PeerJoined(_) => l'.mode == Negotiating(None) && said == []
            case BindForDirectConnect =>
              && l'.mode == Negotiating(ports)
              && said == [if ports.Some? then DirectConnectBound(ports.value) else DirectConnectFailed]
            case AttemptDirectConnect(_) =>
              && l'.mode == (if connected then InDirect else Negotiating(None))
              && said == [if connected then DirectConnectSucceeded else DirectConnectFailed]
            case StartRelayMode => l'.mode == InRelay && said == []
            case _ => l'.mode == l.mode && said == []
  {
    ReachableOk(s);
    AnswerExpected(s, ports, connected);
    var (l, m) := (s.one, s.one.down[0]);
    hide ServerOk, PortsOk, FifoOk, SaidFailed;
    if !m.Close? {
      assert ModeOk(l, StartsAt(s.attempted));
      hide ClientOk;
    }
  }
}
