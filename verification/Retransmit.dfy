/**
 Every data packet is accounted for, and is sent a bounded number of times.

 A ledger follows each log entry through the sending side: the event channel, the packets waiting
 for the window, the packet at the socket, the resend map and the resend tasks. It mirrors the steps
 of `UdpSystem` and counts how often each entry is handed to the socket.
 */
module Retransmit {
  import opened Wrappers
  import opened SeqNumber
  import opened Packet
  import opened Connection
  import opened Congestion
  import opened Stream
  import opened UdpSystem
  import opened UdpSafety
  import opened UdpRuns

  // The entry at a place, or NONE for a packet or event without data
  const NONE := -1

  datatype Ledger = Ledger(
    events: seq<int>,
    futures: seq<int>,
    slot: int,
    taken: seq<int>,
    sent: map<u32, int>,
    sends: seq<nat>) // for each log entry, how often it was handed to the socket

  ghost predicate Shape(n: Node, l: Ledger) {
    && |l.events| == |n.c.events| && |l.futures| == |n.futures| && |l.taken| == |n.taken|
    && l.sent.Keys == n.c.sentPackets.Keys && |l.sends| == |n.log|
    && l.slot < |l.sends|
  }

  // What each step does to the ledger

  ghost function Wrote(l: Ledger, n: Node, n': Node): Ledger {
    if |n'.log| > |n.log| then l.(events := l.events + [|n.log|], sends := l.sends + [0]) else l
  }

  /** Reading and receiving can add an update event. */
  ghost function Noticed(l: Ledger, n: Node, n': Node): Ledger {
    if |n'.c.events| > |n.c.events| then l.(events := l.events + [NONE]) else l
  }

  ghost function Pulled(l: Ledger, n: Node): Ledger
    requires Shape(n, l) && n.c.events != []
  {
    var ev := n.c.events[0];
    if ev.Send? || ev.Resend? then l.(events := l.events[1..], futures := l.futures + [l.events[0]])
    else if ev.CloseEvent? then l.(events := l.events[1..], futures := l.futures + [NONE], sends := l.sends + [0])
    else l.(events := l.events[1..])
  }

  ghost function AtSocket(l: Ledger): Ledger
    requires l.slot < |l.sends|
  {
    if l.slot < 0 then l else l.(sends := l.sends[l.slot := l.sends[l.slot] + 1])
  }

  ghost function Settled(l: Ledger, p: UdpPacket): Ledger {
    if p.packetType == Data && p.payload != [] then l.(sent := l.sent[p.sequenceNumber := l.slot], slot := NONE)
    else l.(slot := NONE)
  }

  ghost function Rescheduled(l: Ledger, n': Node, at: nat): Ledger
    requires at < |l.taken| && n'.c.events != []
  {
    var ev := n'.c.events[|n'.c.events| - 1];
    l.(taken := Remove(l.taken, at), events := l.events + [if ev.Resend? then l.taken[at] else NONE])
  }

  ghost function Received(l: Ledger, n: Node, n': Node): Ledger {
    Noticed(l, n, n').(sent := map key | key in l.sent && key in n'.c.sentPackets :: l.sent[key])
  }

  ghost function Follow(l: Ledger, n: Node, act: Action): Ledger
    requires CanAct(n, act) && Shape(n, l)
  {
    match act
    case Write(buff) => Wrote(l, n, DoWrite(n, buff))
    case Read(len) => Noticed(l, n, DoRead(n, len))
    case Pull => Pulled(l, n)
    case MakeUpdate => l.(futures := l.futures + [NONE])
    case KeepAlive => l.(slot := NONE)
    case Wait(_) => l
    case Release(at) => l.(slot := l.futures[at], futures := Remove(l.futures, at))
    case SocketSend => AtSocket(l)
    case Settle => Settled(l, n.slot.packet)
    case FireResend(key) => l.(taken := l.taken + [l.sent[key]], sent := l.sent - {key})
    case Reschedule(at) => Rescheduled(l, DoReschedule(n, at), at)
    case Receive(d) => Received(l, n, DoReceive(n, d))
    case Disconnect => l
  }

  /** p carries entry e, or no data if e is NONE. */
  ghost predicate Carries(n: Node, p: UdpPacket, e: int) {
    if p.payload == [] then e == NONE else e >= 0 && IsEntry(n.base, n.log, p, e)
  }

  function MaxSends(c: Conn): nat {
    if c.config.packetResendLimit <= 1 then 1 else c.config.packetResendLimit
  }

  /** A packet still to be sent: its resend count is how often it was sent before. */
  ghost predicate ToSend(n: Node, l: Ledger, p: UdpPacket, e: int) {
    Carries(n, p, e) && (0 <= e < |l.sends| ==> p.resendCount == l.sends[e] < MaxSends(n.c))
  }

  /** A packet that has been sent once more than its resend count says. */
  ghost predicate WasSent(n: Node, l: Ledger, p: UdpPacket, e: int) {
    Carries(n, p, e) && (0 <= e < |l.sends| ==> p.resendCount + 1 == l.sends[e])
  }

  ghost predicate EventOk(n: Node, l: Ledger, ev: SendEvent, e: int) {
    if ev.Send? || ev.Resend? then ToSend(n, l, ev.packet, e) else e == NONE
  }

  /** How many copies of entry e, numbered key, the ledger has. */
  ghost function Has(l: Ledger, key: u32, e: int): nat {
    multiset(l.events)[e] + multiset(l.futures)[e] + multiset(l.taken)[e]
    + (if l.slot == e then 1 else 0) + (if key in l.sent && l.sent[key] == e then 1 else 0)
  }

  ghost function EntryKey(n: Node, e: nat): u32
    requires e < |n.log|
  {
    Wrap(End(n.base, n.log, e) + 1)
  }

  /** How many copies of entry e the sending side has. */
  ghost function Copies(n: Node, l: Ledger, e: nat): nat
    requires e < |n.log|
  {
    Has(l, EntryKey(n, e), e)
  }

  ghost predicate EventsOk(n: Node, l: Ledger, evs: seq<SendEvent>, es: seq<int>) {
    |es| == |evs| && forall j :: 0 <= j < |es| ==> EventOk(n, l, evs[j], es[j])
  }

  ghost predicate AllToSend(n: Node, l: Ledger, ps: seq<UdpPacket>, es: seq<int>) {
    |es| == |ps| && forall j :: 0 <= j < |es| ==> ToSend(n, l, ps[j], es[j])
  }

  ghost predicate AllWereSent(n: Node, l: Ledger, ps: seq<UdpPacket>, es: seq<int>) {
    |es| == |ps| && forall j :: 0 <= j < |es| ==> es[j] >= 0 && WasSent(n, l, ps[j], es[j])
  }

  ghost predicate SentOk(n: Node, l: Ledger, sent: map<u32, UdpPacket>, es: map<u32, int>) {
    && es.Keys == sent.Keys
    && forall key :: key in es ==>
         es[key] >= 0 && WasSent(n, l, sent[key], es[key]) && sent[key].sequenceNumber == key
  }

  ghost predicate SlotOk(n: Node, l: Ledger) {
    && (n.slot.Idle? ==> l.slot == NONE)
    && (n.slot.Sending? ==> ToSend(n, l, n.slot.packet, l.slot))
    && (n.slot.Sent? ==> WasSent(n, l, n.slot.packet, l.slot))
  }

  ghost predicate PlacesOk(n: Node, l: Ledger) {
    && |l.sends| == |n.log|
    && EventsOk(n, l, n.c.events, l.events)
    && AllToSend(n, l, n.futures, l.futures)
    && AllWereSent(n, l, n.taken, l.taken)
    && SentOk(n, l, n.c.sentPackets, l.sent)
    && SlotOk(n, l)
  }

  ghost predicate SendsBounded(n: Node, l: Ledger) {
    |l.sends| == |n.log| && forall e :: 0 <= e < |n.log| ==> l.sends[e] <= MaxSends(n.c)
  }

  ghost predicate Unique(n: Node, l: Ledger) {
    forall e :: 0 <= e < |n.log| ==> Copies(n, l, e) <= 1
  }

  ghost predicate Tracked(n: Node, l: Ledger) {
    PlacesOk(n, l) && SendsBounded(n, l) && Unique(n, l)
  }

  lemma TrackedShape(n: Node, l: Ledger)
    requires Tracked(n, l)
    ensures Shape(n, l)
  {
  }

  // Steps

  /** The ledger and the node grow: what is known of a packet stays known. */
  ghost predicate LaterLedger(n: Node, l: Ledger, n': Node, l': Ledger) {
    && n'.base == n.base && n.log <= n'.log && n'.c.config == n.c.config
    && |l.sends| == |n.log| && |l'.sends| == |n'.log| && l.sends <= l'.sends
  }

  lemma CarriesKept(n: Node, n': Node, p: UdpPacket, e: int)
    requires Carries(n, p, e) && n'.base == n.base && n.log <= n'.log
    ensures Carries(n', p, e)
  {
    if e >= 0 {
      LogExtends(n.base, n.log, n'.log, e);
    }
  }

  lemma PlacesKept(n: Node, l: Ledger, n': Node, l': Ledger)
    requires LaterLedger(n, l, n', l') && PlacesOk(n, l)
    ensures EventsOk(n', l', n.c.events, l.events)
    ensures AllToSend(n', l', n.futures, l.futures)
    ensures AllWereSent(n', l', n.taken, l.taken)
    ensures SentOk(n', l', n.c.sentPackets, l.sent)
    ensures n'.slot == n.slot && l'.slot == l.slot ==> SlotOk(n', l')
    ensures forall e :: 0 <= e < |n.log| ==> End(n'.base, n'.log, e) == End(n.base, n.log, e)
  {
    forall p, e | Carries(n, p, e) ensures Carries(n', p, e) {
      CarriesKept(n, n', p, e);
    }
    LogExtendsAll(n.base, n.log, n'.log);
  }

  lemma Appended(s: seq<int>, x: int)
    ensures forall e :: multiset(s + [x])[e] == multiset(s)[e] + (if x == e then 1 else 0)
  {
  }

  lemma PoppedFront(s: seq<int>)
    requires s != []
    ensures forall e :: multiset(s)[e] == multiset(s[1..])[e] + (if s[0] == e then 1 else 0)
  {
    assert s == [s[0]] + s[1..];
  }

  lemma Removed(s: seq<int>, at: nat)
    requires at < |s|
    ensures forall e :: multiset(s)[e] == multiset(Remove(s, at))[e] + (if s[at] == e then 1 else 0)
  {
    assert s == s[..at] + [s[at]] + s[at + 1..];
    assert multiset(s) == multiset(s[..at]) + multiset{s[at]} + multiset(s[at + 1..]);
  }

  lemma NotYetThere(s: seq<int>, e: int)
    requires forall j :: 0 <= j < |s| ==> s[j] != e
    ensures multiset(s)[e] == 0
  {
    assert e !in s;
  }

  /** An entry not created yet has no copies. */
  lemma NoCopies(n: Node, l: Ledger, e: nat)
    requires PlacesOk(n, l) && e >= |n.log|
    ensures multiset(l.events)[e] == 0 && multiset(l.futures)[e] == 0 && multiset(l.taken)[e] == 0 && l.slot != e
    ensures forall key :: key in l.sent ==> l.sent[key] != e
  {
    forall j | 0 <= j < |l.events| ensures l.events[j] != e { assert EventOk(n, l, n.c.events[j], l.events[j]); }
    forall j | 0 <= j < |l.futures| ensures l.futures[j] != e { assert ToSend(n, l, n.futures[j], l.futures[j]); }
    forall j | 0 <= j < |l.taken| ensures l.taken[j] != e { assert WasSent(n, l, n.taken[j], l.taken[j]); }
    NotYetThere(l.events, e);
    NotYetThere(l.futures, e);
    NotYetThere(l.taken, e);
    forall key | key in l.sent ensures l.sent[key] != e { assert WasSent(n, l, n.c.sentPackets[key], l.sent[key]); }
  }

  /** Nothing of the old entries is lost or doubled, and nothing is had twice. */
  ghost predicate SameCopies(n: Node, l: Ledger, n': Node, l': Ledger) {
    |n.log| <= |n'.log| && forall e :: 0 <= e < |n.log| ==> Copies(n', l', e) == Copies(n, l, e)
  }

  lemma KeysKept(n: Node, l: Ledger, n': Node, l': Ledger)
    requires n'.base == n.base && n.log <= n'.log
    ensures forall e :: 0 <= e < |n.log| ==> EntryKey(n', e) == EntryKey(n, e)
  {
    LogExtendsAll(n.base, n.log, n'.log);
  }

  /** A step that keeps the copies keeps them unique. */
  lemma UniqueKept(n: Node, l: Ledger, n': Node, l': Ledger)
    requires Unique(n, l) && SameCopies(n, l, n', l') && |n'.log| <= |n.log| + 1
    requires |n'.log| > |n.log| ==> Copies(n', l', |n.log|) <= 1
    ensures Unique(n', l')
  {
    forall e | 0 <= e < |n'.log| ensures Copies(n', l', e) <= 1 {
      if e < |n.log| {
        assert Copies(n', l', e) == Copies(n, l, e);
      }
    }
  }

  /** Copies are the ledger's business: it is enough to compare the two ledgers. */
  lemma CopiesFromLedger(n: Node, l: Ledger, n': Node, l': Ledger)
    requires n'.base == n.base && n.log <= n'.log
    requires forall key, e: nat :: Has(l', key, e) == Has(l, key, e)
    ensures SameCopies(n, l, n', l')
  {
    KeysKept(n, l, n', l');
  }

  // Writing: one event more in the channel

  lemma EventAddedPlaces(n: Node, l: Ledger, n': Node, l': Ledger, ev: SendEvent, e: int)
    requires PlacesOk(n, l) && SameSide(n, n') && LaterLedger(n, l, n', l')
    requires n'.c.events == n.c.events + [ev] && l' == l.(events := l.events + [e], sends := l'.sends)
    requires EventOk(n', l', ev, e)
    ensures PlacesOk(n', l')
  {
    PlacesKept(n, l, n', l');
  }

  lemma EventAddedCopies(n: Node, l: Ledger, n': Node, l': Ledger)
    requires n'.base == n.base && n.log <= n'.log
    requires l' == l.(events := l.events + [NONE], sends := l'.sends)
    ensures SameCopies(n, l, n', l')
  {
    Appended(l.events, NONE);
    CopiesFromLedger(n, l, n', l');
  }

  lemma EntryAddedCopies(n: Node, l: Ledger, n': Node, l': Ledger)
    requires n'.base == n.base && n.log <= n'.log && |n'.log| == |n.log| + 1 && PlacesOk(n, l)
    requires l' == l.(events := l.events + [|n.log|], sends := l'.sends)
    ensures SameCopies(n, l, n', l') && Copies(n', l', |n.log|) == 1
  {
    NoCopies(n, l, |n.log|);
    hide PlacesOk, EntryKey;
    KeysKept(n, l, n', l');
    Appended(l.events, |n.log|);
  }

  /** The parts of the sending side that a step leaves alone. */
  ghost predicate SameSide(n: Node, n': Node) {
    && n'.base == n.base && n'.c.config == n.c.config
    && n'.futures == n.futures && n'.slot == n.slot && n'.taken == n.taken && n'.c.sentPackets == n.c.sentPackets
  }

  lemma WriteEffect(n: Node, buff: seq<byte>)
    ensures var n', p := DoWrite(n, buff), CreateData(n.c, buff).1;
            && SameSide(n, n')
            && (|n'.log| > |n.log| ==> n'.log == n.log + [p.payload] && n'.c.events == n.c.events + [Send(p)])
            && (|n'.log| <= |n.log| ==> n'.log == n.log && n'.c.events == n.c.events)
  {
  }

  lemma WrittenOk(n: Node, peer: Node, l: Ledger, buff: seq<byte>)
    requires |l.sends| == |n.log| && LocalInv(n, peer) && buff != [] && |DoWrite(n, buff).log| > |n.log|
    ensures ToSend(DoWrite(n, buff), l.(events := l.events + [|n.log|], sends := l.sends + [0]),
                   CreateData(n.c, buff).1, |n.log|)
  {
    hide Wrap, Add, Follow;
    WrapAddSmall(End(n.base, n.log, |n.log|), 1);
    LogGrows(n.base, n.log, CreateData(n.c, buff).1.payload);
  }

  lemma WriteTracked(n: Node, peer: Node, l: Ledger, buff: seq<byte>)
    requires Tracked(n, l) && LocalInv(n, peer) && buff != []
    ensures var n' := DoWrite(n, buff); var l' := Wrote(l, n, n');
            && Tracked(n', l') && SameCopies(n, l, n', l')
            && (|n'.log| > |n.log| ==> Copies(n', l', |n.log|) == 1)
  {
    WriteEffect(n, buff);
    var n' := DoWrite(n, buff);
    var l' := Wrote(l, n, n');
    if |n'.log| > |n.log| {
      WrittenOk(n, peer, l, buff);
      hide DoWrite, Create, LocalInv, Copies, SlotOk, EventsOk, AllToSend, AllWereSent, SentOk;
      EventAddedPlaces(n, l, n', l', n'.c.events[|n.c.events|], |n.log|);
      EntryAddedCopies(n, l, n', l');
    } else {
      hide DoWrite, Create, LocalInv;
      CopiesFromLedger(n, l, n', l');
      PlacesKept(n, l, n', l');
    }
    UniqueKept(n, l, n', l');
  }

  /** An update event more: reading, receiving, or giving up on a packet. */
  lemma NoticeTracked(n: Node, l: Ledger, n': Node, ev: SendEvent)
    requires Tracked(n, l) && SameSide(n, n') && n'.log == n.log
    requires n'.c.events == n.c.events + [ev] && !ev.Send? && !ev.Resend?
    ensures var l' := l.(events := l.events + [NONE]); Tracked(n', l') && SameCopies(n, l, n', l')
  {
    hide Copies, SlotOk, EventsOk, AllToSend, AllWereSent, SentOk;
    var l' := l.(events := l.events + [NONE]);
    EventAddedPlaces(n, l, n', l', ev, NONE);
    EventAddedCopies(n, l, n', l');
    UniqueKept(n, l, n', l');
  }

  lemma SameTracked(n: Node, l: Ledger, n': Node)
    requires Tracked(n, l) && SameSide(n, n') && n'.log == n.log && n'.c.events == n.c.events
    ensures Tracked(n', l) && SameCopies(n, l, n', l)
  {
    PlacesKept(n, l, n', l);
    CopiesFromLedger(n, l, n', l);
    UniqueKept(n, l, n', l);
  }

  lemma ReadTracked(n: Node, l: Ledger, len: nat)
    requires Tracked(n, l)
    ensures var n' := DoRead(n, len); var l' := Noticed(l, n, n'); Tracked(n', l') && SameCopies(n, l, n', l')
  {
    hide Wrap, Add, RecvWindow, Tracked, SameCopies;
    var n' := DoRead(n, len);
    if |n'.c.events| > |n.c.events| {
      NoticeTracked(n, l, n', WindowUpdate);
    } else {
      SameTracked(n, l, n');
    }
  }

  // The send loop

  lemma PulledPlaces(n: Node, l: Ledger)
    requires PlacesOk(n, l) && n.c.events != [] && Shape(n, l)
    ensures PlacesOk(DoPull(n), Pulled(l, n))
  {
    hide Wrap, Add, RecvWindow;
    var n', l' := DoPull(n), Pulled(l, n);
    assert EventOk(n, l, n.c.events[0], l.events[0]);
    PlacesKept(n, l, n', l');
    assert n'.c.events == n.c.events[1..];
    if n.c.events[0].Send? || n.c.events[0].Resend? {
      assert ToSend(n', l', n.c.events[0].packet, l.events[0]);
    }
  }

  lemma PullEffect(n: Node)
    requires n.c.events != []
    ensures var n' := DoPull(n);
            n'.base == n.base && n'.log == if n.c.events[0].CloseEvent? then n.log + [[]] else n.log
  {
    hide Wrap, Add, RecvWindow, Create;
  }

  lemma QueuedLedger(l: Ledger)
    requires l.events != []
    ensures forall key, e: nat ::
              Has(l.(events := l.events[1..], futures := l.futures + [l.events[0]]), key, e) == Has(l, key, e)
  {
    PoppedFront(l.events);
    Appended(l.futures, l.events[0]);
  }

  lemma DroppedLedger(l: Ledger)
    requires l.events != [] && l.events[0] == NONE
    ensures forall key, e: nat :: Has(l.(events := l.events[1..]), key, e) == Has(l, key, e)
    ensures forall key, e: nat ::
              Has(l.(events := l.events[1..], futures := l.futures + [NONE], sends := l.sends + [0]), key, e)
              == Has(l, key, e)
  {
    PoppedFront(l.events);
    Appended(l.futures, NONE);
  }

  lemma PulledLedger(l: Ledger, n: Node)
    requires Shape(n, l) && n.c.events != [] && EventOk(n, l, n.c.events[0], l.events[0])
    ensures forall key, e: nat :: Has(Pulled(l, n), key, e) == Has(l, key, e)
  {
    PulledNone(l, n);
    QueuedLedger(l);
    if l.events[0] == NONE {
      DroppedLedger(l);
    }
    hide EventOk, Has;
  }

  lemma PulledNone(l: Ledger, n: Node)
    requires Shape(n, l) && n.c.events != [] && EventOk(n, l, n.c.events[0], l.events[0])
    ensures n.c.events[0].Send? || n.c.events[0].Resend? || l.events[0] == NONE
  {
  }

  lemma PulledCopies(n: Node, l: Ledger)
    requires PlacesOk(n, l) && n.c.events != [] && Shape(n, l)
    ensures SameCopies(n, l, DoPull(n), Pulled(l, n))
    ensures |DoPull(n).log| > |n.log| ==> Copies(DoPull(n), Pulled(l, n), |n.log|) == 0
  {
    PullEffect(n);
    var n', l' := DoPull(n), Pulled(l, n);
    assert EventOk(n, l, n.c.events[0], l.events[0]);
    NoCopies(n, l, |n.log|);
    PulledLedger(l, n);
    hide PlacesOk, DoPull, EntryKey, EventOk, Pulled;
    CopiesFromLedger(n, l, n', l');
  }

  lemma PullTracked(n: Node, l: Ledger)
    requires Tracked(n, l) && n.c.events != [] && Shape(n, l)
    ensures Tracked(DoPull(n), Pulled(l, n)) && SameCopies(n, l, DoPull(n), Pulled(l, n))
  {
    PulledPlaces(n, l);
    PulledCopies(n, l);
    hide PlacesOk, Copies, Create;
    UniqueKept(n, l, DoPull(n), Pulled(l, n));
  }

  lemma UpdateTracked(n: Node, l: Ledger)
    requires Tracked(n, l)
    ensures var n', l' := DoUpdate(n), l.(futures := l.futures + [NONE]); Tracked(n', l') && SameCopies(n, l, n', l')
  {
    hide Wrap, Add, RecvWindow, Has;
    var n', l' := DoUpdate(n), l.(futures := l.futures + [NONE]);
    PlacesKept(n, l, n', l');
    assert ToSend(n', l', CreateData(n.c, []).1, NONE);
    LedgerMoves(l);
    CopiesFromLedger(n, l, n', l');
    UniqueKept(n, l, n', l');
  }

  /** Moves within the ledger that keep every copy. */
  lemma LedgerMoves(l: Ledger)
    ensures forall key, e: nat :: Has(l.(futures := l.futures + [NONE]), key, e) == Has(l, key, e)
    ensures l.slot == NONE ==> forall at: nat, key, e: nat | at < |l.futures| ::
              Has(l.(slot := l.futures[at], futures := Remove(l.futures, at)), key, e) == Has(l, key, e)
  {
    Appended(l.futures, NONE);
    if l.slot == NONE {
      forall at: nat, key, e: nat | at < |l.futures|
        ensures Has(l.(slot := l.futures[at], futures := Remove(l.futures, at)), key, e) == Has(l, key, e)
      {
        Removed(l.futures, at);
      }
    }
  }

  lemma KeepAliveTracked(n: Node, l: Ledger)
    requires Tracked(n, l) && n.slot.Idle?
    ensures var n', l' := DoKeepAlive(n), l.(slot := NONE); Tracked(n', l') && SameCopies(n, l, n', l')
  {
    hide Wrap, Add, RecvWindow, Has;
    var n', l' := DoKeepAlive(n), l.(slot := NONE);
    PlacesKept(n, l, n', l');
    assert ToSend(n', l', CreateData(n.c, []).1, NONE);
    CopiesFromLedger(n, l, n', l');
    UniqueKept(n, l, n', l');
  }

  lemma ReleaseTracked(n: Node, l: Ledger, at: nat)
    requires Tracked(n, l) && n.slot.Idle? && at < |n.futures| && Shape(n, l)
    ensures var n', l' := DoRelease(n, at), l.(slot := l.futures[at], futures := Remove(l.futures, at));
            Tracked(n', l') && SameCopies(n, l, n', l')
  {
    hide Wrap, Add, Has;
    var n', l' := DoRelease(n, at), l.(slot := l.futures[at], futures := Remove(l.futures, at));
    PlacesKept(n, l, n', l');
    assert ToSend(n', l', n.futures[at], l.futures[at]);
    LedgerMoves(l);
    CopiesFromLedger(n, l, n', l');
    UniqueKept(n, l, n', l');
  }

  /** An entry at the socket is nowhere else. */
  lemma OnlyInSlot(n: Node, l: Ledger)
    requires Tracked(n, l) && 0 <= l.slot < |n.log|
    ensures l.slot !in l.events && l.slot !in l.futures && l.slot !in l.taken
    ensures forall key :: key in l.sent ==> l.sent[key] != l.slot
  {
    hide Wrap;
    assert Copies(n, l, l.slot) <= 1;
    forall key | key in l.sent ensures l.sent[key] != l.slot {
      assert WasSent(n, l, n.c.sentPackets[key], l.sent[key]);
    }
  }

  lemma SocketSendTracked(n: Node, l: Ledger)
    requires Tracked(n, l) && n.slot.Sending? && Shape(n, l)
    ensures var n', l' := n.(slot := Sent(n.slot.packet)), AtSocket(l); Tracked(n', l') && SameCopies(n, l, n', l')
  {
    var n', l' := n.(slot := Sent(n.slot.packet)), AtSocket(l);
    if l.slot >= 0 {
      OnlyInSlot(n, l);
    }
    hide Wrap, Add, Has;
    if l.slot >= 0 {
      forall j | 0 <= j < |l.events| ensures EventOk(n', l', n.c.events[j], l.events[j]) {
        assert EventOk(n, l, n.c.events[j], l.events[j]) && l.events[j] in l.events;
      }
      forall j | 0 <= j < |l.futures| ensures ToSend(n', l', n.futures[j], l.futures[j]) {
        assert ToSend(n, l, n.futures[j], l.futures[j]) && l.futures[j] in l.futures;
      }
      forall j | 0 <= j < |l.taken| ensures WasSent(n', l', n.taken[j], l.taken[j]) {
        assert WasSent(n, l, n.taken[j], l.taken[j]) && l.taken[j] in l.taken;
      }
    }
    assert PlacesOk(n', l') && SendsBounded(n', l');
    AtSocketCopies(l);
    CopiesFromLedger(n, l, n', l');
    UniqueKept(n, l, n', l');
  }

  lemma AtSocketCopies(l: Ledger)
    requires l.slot < |l.sends|
    ensures forall key, e: nat :: Has(AtSocket(l), key, e) == Has(l, key, e)
  {
  }

  lemma EndsDiffer(base: nat, log: Log, i: nat, j: nat)
    requires i < |log| && j < |log| && i != j
    ensures End(base, log, i) != End(base, log, j)
  {
    if i < j { EndMonotone(base, log, i, j); } else { EndMonotone(base, log, j, i); }
  }

  lemma SettledPlaces(n: Node, l: Ledger)
    requires PlacesOk(n, l) && CanAct(n, Settle)
    ensures PlacesOk(DoSettle(n), Settled(l, n.slot.packet))
    ensures n.slot.packet.packetType == Data && n.slot.packet.payload != [] ==>
              0 <= l.slot < |n.log| && EntryKey(n, l.slot) == n.slot.packet.sequenceNumber
  {
    hide Wrap, Add, IncreaseWindow;
    var n', l', p := DoSettle(n), Settled(l, n.slot.packet), n.slot.packet;
    PlacesKept(n, l, n', l');
    assert WasSent(n', l', p, l.slot);
  }

  /** Whether putting entry e0 into the resend map under its number pushes out entry e. */
  ghost predicate PushesOut(n: Node, p: UdpPacket, e0: int, e: nat)
    requires e < |n.log|
  {
    p.packetType == Data && p.payload != [] && e != e0 && EntryKey(n, e) == p.sequenceNumber
  }

  lemma SettledCopies(n: Node, l: Ledger, p: UdpPacket, n': Node, e: nat)
    requires e < |n.log| == |n'.log| && EntryKey(n', e) == EntryKey(n, e)
    requires l.slot >= 0 ==> multiset(l.events)[l.slot] + multiset(l.futures)[l.slot] + multiset(l.taken)[l.slot] == 0
    requires forall key :: l.slot >= 0 && key in l.sent ==> l.sent[key] != l.slot
    requires p.packetType == Data && p.payload != [] ==>
               0 <= l.slot < |n.log| && EntryKey(n, l.slot) == p.sequenceNumber
    requires !(p.packetType == Data && p.payload != []) ==> l.slot == NONE
    ensures Copies(n', Settled(l, p), e) <= Copies(n, l, e)
    ensures !PushesOut(n, p, l.slot, e) ==> Copies(n', Settled(l, p), e) == Copies(n, l, e)
  {
    hide EntryKey;
  }

  /** A sent data packet joins the resend map. Another entry under the same number is forgotten. */
  lemma SettleTracked(n: Node, l: Ledger)
    requires Tracked(n, l) && CanAct(n, Settle) && (n.slot.packet.packetType == Data || n.slot.packet.payload == [])
    ensures var n', l' := DoSettle(n), Settled(l, n.slot.packet);
            && Tracked(n', l') && n'.log == n.log
            && (forall e :: 0 <= e < |n.log| && !PushesOut(n, n.slot.packet, l.slot, e) ==>
                  Copies(n', l', e) == Copies(n, l, e))
  {
    var n', l', p := DoSettle(n), Settled(l, n.slot.packet), n.slot.packet;
    hide Wrap, AfterSend, EntryKey, IncreaseWindow;
    SettledPlaces(n, l);
    assert WasSent(n, l, p, l.slot);
    if l.slot >= 0 {
      OnlyInSlot(n, l);
    }
    KeysKept(n, l, n', l');
    hide PlacesOk, Copies, Settled, PushesOut;
    forall e | 0 <= e < |n.log|
      ensures Copies(n', l', e) <= Copies(n, l, e)
      ensures !PushesOut(n, p, l.slot, e) ==> Copies(n', l', e) == Copies(n, l, e)
    {
      assert EntryKey(n', e) == EntryKey(n, e);
      SettledCopies(n, l, p, n', e);
    }
    assert Unique(n', l');
  }

  // Resending

  lemma FireTracked(n: Node, l: Ledger, key: u32)
    requires Tracked(n, l) && IsFirstDropped(n.c, key) && Shape(n, l)
    ensures var n', l' := DoFire(n, key), l.(taken := l.taken + [l.sent[key]], sent := l.sent - {key});
            Tracked(n', l') && SameCopies(n, l, n', l')
  {
    var n', l' := DoFire(n, key), l.(taken := l.taken + [l.sent[key]], sent := l.sent - {key});
    assert WasSent(n, l, n.c.sentPackets[key], l.sent[key]);
    var e0 := l.sent[key];
    assert EntryKey(n, e0) == key;
    PlacesKept(n, l, n', l');
    hide Wrap, Add, PlacesOk, EntryKey, WasSent;
    KeysKept(n, l, n', l');
    Appended(l.taken, e0);
    assert SameCopies(n, l, n', l');
    UniqueKept(n, l, n', l');
    FiredPlaces(n, l, key);
  }

  lemma FiredPlaces(n: Node, l: Ledger, key: u32)
    requires PlacesOk(n, l) && IsFirstDropped(n.c, key) && Shape(n, l)
    ensures PlacesOk(DoFire(n, key), l.(taken := l.taken + [l.sent[key]], sent := l.sent - {key}))
  {
    hide Wrap, Add;
    var n', l' := DoFire(n, key), l.(taken := l.taken + [l.sent[key]], sent := l.sent - {key});
    PlacesKept(n, l, n', l');
    assert WasSent(n, l, n.c.sentPackets[key], l.sent[key]);
  }

  lemma RescheduleEffect(n: Node, at: nat)
    requires at < |n.taken|
    ensures var n' := DoReschedule(n, at);
            && n'.base == n.base && n'.log == n.log && n'.c.config == n.c.config
            && n'.futures == n.futures && n'.slot == n.slot && n'.c.sentPackets == n.c.sentPackets
            && n'.taken == Remove(n.taken, at)
            && |n'.c.events| == |n.c.events| + 1 && n'.c.events[..|n.c.events|] == n.c.events
  {
    hide Wrap, Add, RecvWindow, DecreaseWindow, Refreshed;
  }

  lemma RescheduledEvent(n: Node, l: Ledger, at: nat)
    requires at < |n.taken| && at < |l.taken| && SendsBounded(n, l) && l.taken[at] >= 0
             && WasSent(n, l, n.taken[at], l.taken[at])
    ensures var n' := DoReschedule(n, at); n'.c.events != []
    ensures var n' := DoReschedule(n, at); var ev := n'.c.events[|n'.c.events| - 1];
            EventOk(n', l, ev, if ev.Resend? then l.taken[at] else NONE)
  {
    hide Wrap, Add, RecvWindow, DecreaseWindow;
  }

  lemma RescheduledPlaces(n: Node, l: Ledger, at: nat)
    requires PlacesOk(n, l) && SendsBounded(n, l) && at < |n.taken| && Shape(n, l)
    ensures var n' := DoReschedule(n, at); n'.c.events != [] && PlacesOk(n', Rescheduled(l, n', at))
  {
    var n' := DoReschedule(n, at);
    assert WasSent(n, l, n.taken[at], l.taken[at]) && 0 <= l.taken[at] < |l.sends|;
    RescheduleEffect(n, at);
    RescheduledEvent(n, l, at);
    hide DoReschedule, Carries;
    var l' := Rescheduled(l, n', at);
    PlacesKept(n, l, n', l');
    var ev := n'.c.events[|n.c.events|];
    assert n'.c.events == n.c.events + [ev];
    assert EventOk(n', l', ev, if ev.Resend? then l.taken[at] else NONE);
  }

  lemma RescheduledCopies(l: Ledger, at: nat, again: bool)
    requires at < |l.taken|
    ensures var l' := l.(taken := Remove(l.taken, at), events := l.events + [if again then l.taken[at] else NONE]);
            forall key, e: nat :: Has(l', key, e) <= Has(l, key, e) && (again ==> Has(l', key, e) == Has(l, key, e))
  {
    Removed(l.taken, at);
    Appended(l.events, if again then l.taken[at] else NONE);
  }

  /** The resend task gives up, or queues the packet once more with everything but its data
      refreshed. */
  lemma RescheduleTracked(n: Node, l: Ledger, at: nat)
    requires Tracked(n, l) && at < |n.taken| && Shape(n, l)
    ensures var n' := DoReschedule(n, at); var l' := Rescheduled(l, n', at);
            && Tracked(n', l') && n'.log == n.log
            && (CloseEvent !in n'.c.events ==> SameCopies(n, l, n', l'))
  {
    hide Wrap, Add, RecvWindow, DecreaseWindow, Refreshed;
    var n' := DoReschedule(n, at);
    var l' := Rescheduled(l, n', at);
    RescheduledPlaces(n, l, at);
    var ev := n'.c.events[|n.c.events|];
    assert ev in n'.c.events;
    RescheduledCopies(l, at, ev.Resend?);
    KeysKept(n, l, n', l');
    hide PlacesOk, Has, EntryKey, DoReschedule;
    forall e | 0 <= e < |n.log| ensures Copies(n', l', e) <= Copies(n, l, e) {
      assert EntryKey(n', e) == EntryKey(n, e);
    }
    assert Unique(n', l');
  }

  // Receiving

  lemma ReceiveEffect(n: Node, d: Datagram)
    ensures var n' := DoReceive(n, d);
            && n'.base == n.base && n'.log == n.log && n'.c.config == n.c.config
            && n'.futures == n.futures && n'.slot == n.slot && n'.taken == n.taken
            && (n'.c.events == n.c.events || n'.c.events == n.c.events + [AckUpdate])
            && (forall key :: key in n'.c.sentPackets ==>
                  key in n.c.sentPackets && n'.c.sentPackets[key] == n.c.sentPackets[key])
  {
    hide Wrap, Add, PartialCmp, Parse;
    if Parse(d.data).Ok? {
      var p := Parse(d.data).value;
      RecvProcessFrame(n.c, p);
      AckFrame(RecvProcessPacket(n.c, p).0, p);
    }
  }

  lemma ReceivedPlaces(n: Node, l: Ledger, d: Datagram)
    requires PlacesOk(n, l) && Shape(n, l)
    ensures var n' := DoReceive(n, d); PlacesOk(n', Received(l, n, n'))
  {
    ReceiveEffect(n, d);
    hide DoReceive;
    var n' := DoReceive(n, d);
    PlacesKept(n, l, n', Received(l, n, n'));
  }

  lemma ReceivedCopies(l: Ledger, n: Node, n': Node)
    ensures forall key, e: nat :: Has(Received(l, n, n'), key, e) ==
              if key in l.sent && l.sent[key] == e && key !in n'.c.sentPackets then Has(l, key, e) - 1
              else Has(l, key, e)
  {
    Appended(l.events, NONE);
  }

  /** The step takes the entry's number out of the resend map. */
  ghost predicate Cleared(n: Node, n': Node, e: nat)
    requires e < |n.log|
  {
    EntryKey(n, e) in n.c.sentPackets && EntryKey(n, e) !in n'.c.sentPackets
  }

  /** An acknowledgement forgets the entries it clears, and nothing else. */
  lemma ReceiveTracked(n: Node, l: Ledger, d: Datagram)
    requires Tracked(n, l) && Shape(n, l)
    ensures var n' := DoReceive(n, d); var l' := Received(l, n, n');
            && Tracked(n', l') && n'.log == n.log
            && forall e :: 0 <= e < |n.log| && !Cleared(n, n', e) ==> Copies(n', l', e) == Copies(n, l, e)
  {
    ReceivedPlaces(n, l, d);
    ReceiveEffect(n, d);
    var n' := DoReceive(n, d);
    var l' := Received(l, n, n');
    ReceivedCopies(l, n, n');
    KeysKept(n, l, n', l');
    hide PlacesOk, Has, EntryKey, DoReceive;
    forall e | 0 <= e < |n.log| ensures Copies(n', l', e) <= Copies(n, l, e) {
      assert EntryKey(n', e) == EntryKey(n, e);
    }
    assert Unique(n', l');
  }

  // Every step, every run

  /** The packet about to join the resend map is not older than the wrapping order can tell. */
  ghost predicate Prompt(n: Node, l: Ledger, act: Action) {
    act.Settle? && 0 <= l.slot < |n.log| && n.acked <= |n.log| ==>
      End(n.base, n.log, n.acked) - FAITHFUL <= End(n.base, n.log, l.slot)
  }

  ghost predicate Closing(n: Node) {
    n.closes > 0 || CloseEvent in n.c.events
  }

  /** Of every data entry not known to be acknowledged there is exactly one copy. */
  ghost predicate Accounted(n: Node, l: Ledger) {
    !Closing(n) ==>
      forall e :: n.acked <= e < |n.log| && n.log[e] != [] ==> Copies(n, l, e) == 1
  }

  lemma OnlyDataInSlot(n: Node, peer: Node)
    requires LocalInv(n, peer) && n.slot.Sent?
    ensures n.slot.packet.packetType == Data || n.slot.packet.payload == []
  {
    assert TagOk(n, peer, n.slot.packet, n.tags[n.slot.packet]);
  }

  lemma StepTracked(n: Node, peer: Node, l: Ledger, act: Action)
    requires Tracked(n, l) && LocalInv(n, peer) && CanAct(n, act)
    ensures Shape(n, l) && Tracked(Act(n, act), Follow(l, n, act))
  {
    hide Tracked, LocalInv, Shape, DoWrite, DoRead, DoPull, DoUpdate, DoKeepAlive, DoRelease, DoSettle, DoFire,
         DoReschedule, DoReceive, Wrote, Noticed, Pulled, AtSocket, Settled, Rescheduled, Received,
         SameCopies, Copies, EntryKey, PushesOut, Remove, SettlePanics, CanSend, IsFirstDropped, CreateData;
    TrackedShape(n, l);
    if act.Settle? {
      OnlyDataInSlot(n, peer);
    }
    match act
    case Write(buff) => WriteTracked(n, peer, l, buff);
    case Read(len) => ReadTracked(n, l, len);
    case Pull => PullTracked(n, l);
    case MakeUpdate => UpdateTracked(n, l);
    case KeepAlive => KeepAliveTracked(n, l);
    case Wait(at) => SameTracked(n, l, DoWait(n, at));
    case Release(at) => ReleaseTracked(n, l, at);
    case SocketSend => SocketSendTracked(n, l);
    case Settle => SettleTracked(n, l);
    case FireResend(key) => FireTracked(n, l, key);
    case Reschedule(at) => RescheduleTracked(n, l, at);
    case Receive(d) => ReceiveTracked(n, l, d);
    case Disconnect => SameTracked(n, l, n.(c := TryDisconnect(n.c)));
  }

  /** A step that keeps all copies keeps the account, if what it adds is accounted for. */
  lemma SameAccounted(n: Node, l: Ledger, n': Node, l': Ledger)
    requires Accounted(n, l) && SameCopies(n, l, n', l') && n'.acked == n.acked && n.log <= n'.log && n'.base == n.base
    requires !Closing(n') ==> !Closing(n)
    requires forall e :: |n.log| <= e < |n'.log| && n'.log[e] != [] ==> Copies(n', l', e) == 1
    ensures Accounted(n', l')
  {
    forall e | n'.acked <= e < |n'.log| && n'.log[e] != [] && !Closing(n') ensures Copies(n', l', e) == 1 {
      if e < |n.log| {
        assert Copies(n', l', e) == Copies(n, l, e);
      }
    }
  }

  lemma WriteAccounted(n: Node, peer: Node, l: Ledger, buff: seq<byte>)
    requires Tracked(n, l) && LocalInv(n, peer) && buff != [] && Accounted(n, l)
    ensures Accounted(DoWrite(n, buff), Wrote(l, n, DoWrite(n, buff)))
  {
    hide LocalInv, CreateData, PollWrite, DoWrite, Copies, Wrap, Add, Tracked;
    WriteTracked(n, peer, l, buff);
    WriteEffect(n, buff);
    WriteKeeps(n, buff);
    hide Wrote;
    SameAccounted(n, l, DoWrite(n, buff), Wrote(l, n, DoWrite(n, buff)));
  }

  lemma WriteKeeps(n: Node, buff: seq<byte>)
    ensures DoWrite(n, buff).acked == n.acked && DoWrite(n, buff).closes == n.closes
  {
    hide Wrap, Add, RecvWindow, Create;
  }

  /** The steps that touch neither the log nor the acknowledged position. */
  lemma QuietAccounted(n: Node, l: Ledger, act: Action)
    requires Tracked(n, l) && CanAct(n, act) && Shape(n, l) && Accounted(n, l)
    requires act.Read? || act.MakeUpdate? || act.KeepAlive? || act.Wait? || act.Release? || act.SocketSend?
             || act.FireResend? || act.Disconnect?
    ensures Accounted(Act(n, act), Follow(l, n, act))
  {
    var n', l' := Act(n, act), Follow(l, n, act);
    QuietKeeps(n, act);
    hide LocalInv, Tracked, Shape, DoRead, DoUpdate, DoKeepAlive, DoRelease, DoFire, Noticed, AtSocket;
    match act {
      case Read(len) => ReadTracked(n, l, len);
      case MakeUpdate => UpdateTracked(n, l);
      case KeepAlive => KeepAliveTracked(n, l);
      case Wait(at) => SameTracked(n, l, DoWait(n, at));
      case Release(at) => ReleaseTracked(n, l, at);
      case SocketSend => SocketSendTracked(n, l);
      case FireResend(key) => FireTracked(n, l, key);
      case _ => SameTracked(n, l, n.(c := TryDisconnect(n.c)));
    }
    assert SameCopies(n, l, n', l');
    SameAccounted(n, l, n', l');
  }

  lemma QuietKeeps(n: Node, act: Action)
    requires CanAct(n, act)
    requires act.Read? || act.MakeUpdate? || act.KeepAlive? || act.Wait? || act.Release? || act.SocketSend?
             || act.FireResend? || act.Disconnect?
    ensures var n' := Act(n, act);
            n'.log == n.log && n'.base == n.base && n'.acked == n.acked && n'.closes == n.closes
            && (CloseEvent in n.c.events ==> CloseEvent in n'.c.events)
  {
    hide Wrap, Add, RecvWindow, Create, PartialCmp;
  }

  lemma PullAccounted(n: Node, l: Ledger)
    requires Tracked(n, l) && CanAct(n, Pull) && Shape(n, l) && Accounted(n, l)
    ensures Accounted(DoPull(n), Pulled(l, n))
  {
    PullTracked(n, l);
    PullEffect(n);
    PullKeeps(n);
    hide Tracked, DoPull, Pulled, Copies;
    SameAccounted(n, l, DoPull(n), Pulled(l, n));
  }

  lemma PullKeeps(n: Node)
    requires n.c.events != []
    ensures var n' := DoPull(n);
            && n'.acked == n.acked
            && (!n.c.events[0].CloseEvent? ==> n'.closes == n.closes && n'.c.events == n.c.events[1..])
            && (n.c.events[0].CloseEvent? ==> n'.closes > 0)
            && (Closing(n) ==> Closing(n'))
  {
    hide Wrap, Add, RecvWindow, Create;
    assert n.c.events == [n.c.events[0]] + n.c.events[1..];
  }

  lemma RescheduleAccounted(n: Node, l: Ledger, at: nat)
    requires Tracked(n, l) && at < |n.taken| && Shape(n, l) && Accounted(n, l)
    ensures Accounted(DoReschedule(n, at), Rescheduled(l, DoReschedule(n, at), at))
  {
    RescheduleTracked(n, l, at);
    RescheduleKeeps(n, at);
    hide Tracked, DoReschedule, Copies, Rescheduled;
    var n' := DoReschedule(n, at);
    if !Closing(n') {
      SameAccounted(n, l, n', Rescheduled(l, n', at));
    }
  }

  lemma RescheduleKeeps(n: Node, at: nat)
    requires at < |n.taken|
    ensures var n' := DoReschedule(n, at);
            n'.acked == n.acked && n'.log == n.log && n'.base == n.base && n'.closes == n.closes && n'.c.events != []
            && (CloseEvent in n.c.events ==> CloseEvent in n'.c.events)
  {
    hide Wrap, Add, RecvWindow, DecreaseWindow;
  }

  lemma SettleAccounted(n: Node, peer: Node, l: Ledger)
    requires Tracked(n, l) && LocalInv(n, peer) && CanAct(n, Settle) && Accounted(n, l) && Prompt(n, l, Settle)
    ensures Accounted(DoSettle(n), Settled(l, n.slot.packet))
  {
    var p, n', l' := n.slot.packet, DoSettle(n), Settled(l, n.slot.packet);
    assert TagOk(n, peer, p, n.tags[p]);
    SettleTracked(n, l);
    SettleKeeps(n);
    SettledPlaces(n, l);
    forall e | n.acked <= e < |n.log| ensures !PushesOut(n, p, l.slot, e) {
      if PushesOut(n, p, l.slot, e) {
        NotPushedOut(n, l, e);
      }
    }
    hide Tracked, LocalInv, DoSettle, Settled, Copies, PushesOut;
  }

  lemma NotPushedOut(n: Node, l: Ledger, e: nat)
    requires SendInv(n) && n.acked <= e < |n.log| && 0 <= l.slot < |n.log| && e != l.slot
    requires End(n.base, n.log, n.acked) - FAITHFUL <= End(n.base, n.log, l.slot)
    ensures EntryKey(n, e) != EntryKey(n, l.slot)
  {
    EndBetween(n.base, n.log, n.acked, e);
    EndBetween(n.base, n.log, e, |n.log|);
    EndBetween(n.base, n.log, l.slot, |n.log|);
    EndsDiffer(n.base, n.log, e, l.slot);
    WrapInjective(End(n.base, n.log, e) + 1, End(n.base, n.log, l.slot) + 1);
  }

  lemma SettleKeeps(n: Node)
    requires CanAct(n, Settle)
    ensures var n' := DoSettle(n);
            n'.acked == n.acked && n'.log == n.log && n'.base == n.base && n'.closes == n.closes
            && n'.c.events == n.c.events
  {
    hide Wrap, Add, IncreaseWindow;
  }

  /** A genuine acknowledgement clears no entry beyond it. */
  lemma ReceiveAccounted(n: Node, peer: Node, l: Ledger, d: Datagram)
    requires Tracked(n, l) && LocalInv(n, peer) && Accounted(n, l) && Shape(n, l)
    requires LocalInv(peer, n) && Parse(d.data).Ok? && TagOk(peer, n, Parse(d.data).value, d.tag)
             && RecentDatagram(n, peer, d)
    ensures Accounted(DoReceive(n, d), Received(l, n, DoReceive(n, d)))
  {
    ReceiveTracked(n, l, d);
    ReceiveEffect(n, d);
    ReceiveAcks(n, peer, d);
    var n' := DoReceive(n, d);
    var l' := Received(l, n, n');
    forall e | n'.acked <= e < |n.log| && EntryKey(n, e) in n.c.sentPackets
      ensures EntryKey(n, e) in n'.c.sentPackets
    {
      KeyKept(n, peer, d, e);
    }
    assert n'.closes == n.closes && (CloseEvent in n.c.events ==> CloseEvent in n'.c.events);
    hide Tracked, LocalInv, DoReceive, Received, Copies, TagOk, Parse;
  }

  lemma ReceiveAcks(n: Node, peer: Node, d: Datagram)
    requires SendInv(n) && RecvInv(peer, n)
    requires Parse(d.data).Ok? && TagOk(peer, n, Parse(d.data).value, d.tag) && RecentDatagram(n, peer, d)
    ensures n.acked <= DoReceive(n, d).acked && DoReceive(n, d).closes == n.closes
    ensures DoReceive(n, d).acked > n.acked ==> DoReceive(n, d).acked == d.tag.acked
  {
    hide Wrap, Add, Parse, PartialCmp;
    var p := Parse(d.data).value;
    GotBound(peer, n);
    RecvProcessFrame(n.c, p);
    AckFrame(RecvProcessPacket(n.c, p).0, p);
    AckExact(n, peer, p, d.tag);
  }

  lemma KeyKept(n: Node, peer: Node, d: Datagram, e: nat)
    requires SendInv(n) && RecvInv(peer, n) && DoReceive(n, d).acked <= e < |n.log|
    requires Parse(d.data).Ok? && TagOk(peer, n, Parse(d.data).value, d.tag) && RecentDatagram(n, peer, d)
    requires EntryKey(n, e) in n.c.sentPackets
    ensures EntryKey(n, e) in DoReceive(n, d).c.sentPackets
  {
    var p := Parse(d.data).value;
    GotBound(peer, n);
    hide Wrap, Add, Parse, PartialCmp;
    if EntryKey(n, e) !in DoReceive(n, d).c.sentPackets {
      ClearedByAck(n.c, d.data, EntryKey(n, e));
      RecvProcessFrame(n.c, p);
      AckFrame(RecvProcessPacket(n.c, p).0, p);
      UnackedIsKept(n, peer, p, d.tag, e);
    }
  }

  lemma StepAccounted(n: Node, peer: Node, out: set<Datagram>, inbound: set<Datagram>, l: Ledger, act: Action)
    requires PairInv(n, peer, out, inbound) && Enabled(n, peer, inbound, act)
    requires Tracked(n, l) && Accounted(n, l) && Prompt(n, l, act)
    ensures Shape(n, l) && Accounted(Act(n, act), Follow(l, n, act))
  {
    TrackedShape(n, l);
    if act.Receive? {
      assert TagOk(peer, n, Parse(act.d.data).value, act.d.tag);
    }
    hide Tracked, LocalInv, Shape, Accounted, DoWrite, DoRead, DoPull, DoUpdate, DoKeepAlive, DoRelease, DoSettle,
         DoFire, DoReschedule, DoReceive, Wrote, Noticed, Pulled, AtSocket, Settled, Rescheduled, Received,
         TagOk, Parse;
    match act
    case Write(buff) => WriteAccounted(n, peer, l, buff);
    case Pull => PullAccounted(n, l);
    case Settle => SettleAccounted(n, peer, l);
    case Reschedule(at) => RescheduleAccounted(n, l, at);
    case Receive(d) => ReceiveAccounted(n, peer, l, d);
    case _ => QuietAccounted(n, l, act);
  }

  ghost const NewLedger := Ledger([], [], NONE, [], map[], [0])

  ghost function StepLedger(s: System, ofA: bool, l: Ledger, m: Move): Ledger
    requires CanMove(s, m)
  {
    if m.byA == ofA && Shape(Side(s, ofA), l) then Follow(l, Side(s, ofA), m.act) else l
  }

  /** The ledger of one side after a run. */
  ghost function LedgerAfter(s: System, ofA: bool, l: Ledger, moves: seq<Move>): Ledger
    decreases moves
  {
    if moves == [] || !CanMove(s, moves[0]) then l
    else LedgerAfter(Moved(s, moves[0]), ofA, StepLedger(s, ofA, l, moves[0]), moves[1..])
  }

  /** In the whole run, no packet that joins the resend map of the side is more than 2^31 - 2
      positions behind the acknowledged ones. */
  ghost predicate AllPrompt(s: System, ofA: bool, l: Ledger, moves: seq<Move>)
    decreases moves
  {
    moves == [] || !CanMove(s, moves[0]) ||
    (&& (moves[0].byA == ofA ==> Prompt(Side(s, ofA), l, moves[0].act))
     && AllPrompt(Moved(s, moves[0]), ofA, StepLedger(s, ofA, l, moves[0]), moves[1..]))
  }

  lemma InitTracked(n: Node, peer: Node)
    requires InitNode(n, peer)
    ensures Tracked(n, NewLedger) && Accounted(n, NewLedger)
  {
  }

  lemma MoveTracked(s: System, ofA: bool, l: Ledger, m: Move)
    requires Inv(s) && CanMove(s, m) && Tracked(Side(s, ofA), l)
    ensures Tracked(Side(Moved(s, m), ofA), StepLedger(s, ofA, l, m))
    ensures Accounted(Side(s, ofA), l) && (m.byA == ofA ==> Prompt(Side(s, ofA), l, m.act)) ==>
              Accounted(Side(Moved(s, m), ofA), StepLedger(s, ofA, l, m))
  {
    var n, peer := Side(s, ofA), Side(s, !ofA);
    var out, inbound := if ofA then s.ab else s.ba, if ofA then s.ba else s.ab;
    Swapped(s.a, s.b, s.ab, s.ba);
    hide Tracked, LocalInv, NetInv, Act, Outbound, Accounted, Follow, CanAct, Prompt, RecentDatagram;
    assert LocalInv(n, peer);
    if m.byA == ofA {
      StepTracked(n, peer, l, m.act);
      if Accounted(n, l) && Prompt(n, l, m.act) {
        StepAccounted(n, peer, out, inbound, l, m.act);
      }
    }
  }

  lemma {:induction false} RunTracked(s: System, ofA: bool, l: Ledger, moves: seq<Move>, s': System)
    requires Inv(s) && Reaches(s, moves, s') && Tracked(Side(s, ofA), l)
    ensures Tracked(Side(s', ofA), LedgerAfter(s, ofA, l, moves))
    ensures Accounted(Side(s, ofA), l) && AllPrompt(s, ofA, l, moves) ==>
              Accounted(Side(s', ofA), LedgerAfter(s, ofA, l, moves))
    decreases moves
  {
    hide Tracked, Accounted, CanMove, Moved, StepLedger, Prompt, Inv, Side;
    if moves != [] {
      MovePreserves(s, moves[0]);
      MoveTracked(s, ofA, l, moves[0]);
      RunTracked(Moved(s, moves[0]), ofA, StepLedger(s, ofA, l, moves[0]), moves[1..], s');
    }
  }

  lemma InitSides(s: System, ofA: bool)
    requires Init(s)
    ensures Inv(s) && Tracked(Side(s, ofA), NewLedger) && Accounted(Side(s, ofA), NewLedger)
  {
    InitLocal(s.a, s.b);
    InitLocal(s.b, s.a);
    InitTracked(Side(s, ofA), Side(s, !ofA));
  }

  /** In every run, every entry is handed to the socket at most max(1, packet_resend_limit) times, and
      what is handed to it is the entry the ledger counts, number and payload unchanged. */
  lemma BoundedSends(s0: System, moves: seq<Move>, s: System, ofA: bool)
    requires Init(s0) && Reaches(s0, moves, s)
    ensures var n, l := Side(s, ofA), LedgerAfter(s0, ofA, NewLedger, moves);
            && |l.sends| == |n.log| && (forall e :: 0 <= e < |n.log| ==> l.sends[e] <= MaxSends(n.c))
            && (n.slot.Sending? && n.slot.packet.payload != [] ==>
                  && 0 <= l.slot < |n.log| && IsEntry(n.base, n.log, n.slot.packet, l.slot)
                  && AtSocket(l).sends == l.sends[l.slot := l.sends[l.slot] + 1])
  {
    InitSides(s0, ofA);
    RunTracked(s0, ofA, NewLedger, moves, s);
    hide LedgerAfter, Inv;
  }

  /** The packet is given up, with a close event, exactly when the entry has been handed to the socket as
      often as the limit says; otherwise it is queued again. */
  ghost predicate GivenUpAtLimit(n: Node, l: Ledger, at: nat) {
    && at < |n.taken| && at < |l.taken| && 0 <= l.taken[at] < |l.sends|
    && var n', e := DoReschedule(n, at), l.taken[at];
    && |n'.c.events| == |n.c.events| + 1
    && var ev := n'.c.events[|n.c.events|];
    if l.sends[e] >= n.c.config.packetResendLimit then ev == CloseEvent
    else ev.Resend? && IsEntry(n.base, n.log, ev.packet, e) && ev.packet.resendCount == l.sends[e]
  }

  lemma GivesUp(n: Node, l: Ledger, at: nat)
    requires PlacesOk(n, l) && SendsBounded(n, l) && at < |n.taken|
    ensures GivenUpAtLimit(n, l, at)
  {
    assert WasSent(n, l, n.taken[at], l.taken[at]);
    hide EventsOk, AllToSend, AllWereSent, SentOk, SlotOk, RecvWindow, DecreaseWindow, Wrap;
  }

  /** In every run a resend task gives up exactly at the limit. */
  lemma GivesUpAtLimit(s0: System, moves: seq<Move>, s: System, ofA: bool, at: nat)
    requires Init(s0) && Reaches(s0, moves, s) && at < |Side(s, ofA).taken|
    ensures GivenUpAtLimit(Side(s, ofA), LedgerAfter(s0, ofA, NewLedger, moves), at)
  {
    hide LedgerAfter, Inv, PlacesOk, SendsBounded, Unique, GivenUpAtLimit, Reaches, Accounted;
    InitSides(s0, ofA);
    RunTracked(s0, ofA, NewLedger, moves, s);
    GivesUp(Side(s, ofA), LedgerAfter(s0, ofA, NewLedger, moves), at);
  }

  /** The packet is in the event channel, waiting for the window, at the socket, in the resend map or
      with a resend task. */
  ghost predicate Holds(n: Node, p: UdpPacket) {
    || Send(p) in n.c.events || Resend(p) in n.c.events || p in n.futures || p in n.taken
    || (!n.slot.Idle? && n.slot.packet == p)
    || (p.sequenceNumber in n.c.sentPackets && n.c.sentPackets[p.sequenceNumber] == p)
  }

  lemma CopyHeld(n: Node, l: Ledger, e: nat)
    requires PlacesOk(n, l) && e < |n.log| && Copies(n, l, e) > 0
    ensures exists p :: Holds(n, p) && IsEntry(n.base, n.log, p, e)
  {
    hide Wrap;
    var key := EntryKey(n, e);
    if e in multiset(l.events) {
      var j :| 0 <= j < |l.events| && l.events[j] == e;
      assert EventOk(n, l, n.c.events[j], e);
      assert n.c.events[j] in n.c.events && Holds(n, n.c.events[j].packet);
    } else if e in multiset(l.futures) {
      var j :| 0 <= j < |l.futures| && l.futures[j] == e;
      assert ToSend(n, l, n.futures[j], e) && Holds(n, n.futures[j]);
    } else if e in multiset(l.taken) {
      var j :| 0 <= j < |l.taken| && l.taken[j] == e;
      assert WasSent(n, l, n.taken[j], e) && Holds(n, n.taken[j]);
    } else if l.slot == e {
      assert Holds(n, n.slot.packet);
    } else {
      assert WasSent(n, l, n.c.sentPackets[key], l.sent[key]) && Holds(n, n.c.sentPackets[key]);
    }
  }

  /** Until the connection starts to close, every data packet not known to be acknowledged is in
      exactly one place of the sending side, with its number and payload. */
  lemma NothingForgotten(s0: System, moves: seq<Move>, s: System, ofA: bool, e: nat)
    requires Init(s0) && Reaches(s0, moves, s) && AllPrompt(s0, ofA, NewLedger, moves)
    requires var n := Side(s, ofA); !Closing(n) && n.acked <= e < |n.log| && n.log[e] != []
    ensures var n := Side(s, ofA);
            && Copies(n, LedgerAfter(s0, ofA, NewLedger, moves), e) == 1
            && exists p :: Holds(n, p) && IsEntry(n.base, n.log, p, e)
  {
    InitSides(s0, ofA);
    RunTracked(s0, ofA, NewLedger, moves, s);
    hide LedgerAfter, Inv, AllPrompt, Holds, PlacesOk, Copies;
    CopyHeld(Side(s, ofA), LedgerAfter(s0, ofA, NewLedger, moves), e);
  }

  ghost predicate Later(n: Node, n': Node) {
    n'.base == n.base && n.log <= n'.log
  }

  lemma MoveLater(s: System, m: Move, ofA: bool)
    requires Inv(s) && CanMove(s, m)
    ensures Inv(Moved(s, m)) && Later(Side(s, ofA), Side(Moved(s, m), ofA))
  {
    hide LocalInv, NetInv, Act, Outbound;
    Swapped(s.a, s.b, s.ab, s.ba);
    MovePreserves(s, m);
    if m.byA {
      StepPreserves(s.a, s.b, s.ab, s.ba, m.act);
    } else {
      StepPreserves(s.b, s.a, s.ba, s.ab, m.act);
    }
  }

  lemma PromptWhenShort(n: Node, l: Ledger, act: Action)
    requires End(n.base, n.log, |n.log|) - n.base <= FAITHFUL
    ensures Prompt(n, l, act)
  {
    if n.acked <= |n.log| {
      EndBetween(n.base, n.log, n.acked, |n.log|);
    }
    if 0 <= l.slot < |n.log| {
      EndBetween(n.base, n.log, 0, l.slot);
    }
  }

  /** A side that has used fewer than 2^31 - 1 sequence numbers has been prompt all along. */
  lemma {:induction false} ShortRunIsPrompt(s: System, ofA: bool, l: Ledger, moves: seq<Move>, s': System)
    requires Inv(s) && Reaches(s, moves, s')
    requires var n := Side(s', ofA); End(n.base, n.log, |n.log|) - n.base <= FAITHFUL
    ensures AllPrompt(s, ofA, l, moves) && Later(Side(s, ofA), Side(s', ofA))
    decreases moves
  {
    hide CanMove, Moved, StepLedger, Prompt, Inv, Side;
    if moves != [] {
      var s1 := Moved(s, moves[0]);
      MoveLater(s, moves[0], ofA);
      ShortRunIsPrompt(s1, ofA, StepLedger(s, ofA, l, moves[0]), moves[1..], s');
      var n, n' := Side(s, ofA), Side(s', ofA);
      LogExtendsAll(n.base, n.log, n'.log);
      EndBetween(n'.base, n'.log, |n.log|, |n'.log|);
      PromptWhenShort(n, l, moves[0].act);
    }
  }
}
