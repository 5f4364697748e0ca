/**
 Positions in the byte stream of one direction, and the receiver seen through them.

 A log lists what consumed sequence numbers, in order: the payload of every data packet, and the
 empty payload for an open or close packet. Entry i covers the positions End(i) + 1 .. End(i + 1),
 one for itself and one for each byte; these positions are unbounded, and the 32-bit numbers of the
 program are their representations.
 */
module Stream {
  import opened Wrappers
  import opened SeqNumber
  import opened Packet
  import opened Connection

  type Log = seq<seq<byte>>

  // The largest receive window for which every comparison among buffered packets is faithful
  const MAX_RECV_WINDOW := FAITHFUL - MAX_PAYLOAD

  /** The position after k entries. */
  function End(base: nat, log: Log, k: nat): nat
    requires k <= |log|
  {
    if k == 0 then base else End(base, log, k - 1) + 1 + |log[k - 1]|
  }

  /** The bytes of the first k entries. */
  function Bytes(log: Log, k: nat): seq<byte>
    requires k <= |log|
  {
    if k == 0 then [] else Bytes(log, k - 1) + log[k - 1]
  }

  lemma {:induction false} EndMonotone(base: nat, log: Log, i: nat, j: nat)
    requires i < j <= |log|
    ensures End(base, log, i + 1) <= End(base, log, j)
    decreases j
  {
    if i + 1 < j {
      EndMonotone(base, log, i, j - 1);
    }
  }

  lemma {:induction false} BytesPrefix(log: Log, i: nat, j: nat)
    requires i <= j <= |log|
    ensures Bytes(log, i) <= Bytes(log, j)
    decreases j
  {
    if i < j {
      BytesPrefix(log, i, j - 1);
    }
  }

  lemma {:induction false} LogExtends(base: nat, log: Log, more: Log, k: nat)
    requires log <= more && k <= |log|
    ensures End(base, more, k) == End(base, log, k) && Bytes(more, k) == Bytes(log, k)
  {
    if k > 0 {
      LogExtends(base, log, more, k - 1);
    }
  }

  lemma LogExtendsAll(base: nat, log: Log, more: Log)
    requires log <= more
    ensures forall k :: 0 <= k <= |log| ==> End(base, more, k) == End(base, log, k)
    ensures forall k :: 0 <= k <= |log| ==> Bytes(more, k) == Bytes(log, k)
  {
    forall k | 0 <= k <= |log|
      ensures End(base, more, k) == End(base, log, k) && Bytes(more, k) == Bytes(log, k)
    {
      LogExtends(base, log, more, k);
    }
  }

  ghost predicate ShortEntries(log: Log) {
    forall i :: 0 <= i < |log| ==> |log[i]| <= MAX_PAYLOAD
  }

  /** p carries entry i. */
  ghost predicate IsEntry(base: nat, log: Log, p: UdpPacket, i: nat) {
    && i < |log|
    && log[i] != []
    && p.payload == log[i]
    && p.length == |p.payload|
    && p.sequenceNumber == Wrap(End(base, log, i) + 1)
  }

  /** The representation of the range of entry i passes 2^32. */
  predicate Crosses(base: nat, log: Log, i: nat)
    requires i < |log|
  {
    Wrap(End(base, log, i) + 1) > Wrap(End(base, log, i + 1))
  }

  lemma EntryEnd(base: nat, log: Log, p: UdpPacket, i: nat)
    requires IsEntry(base, log, p, i)
    ensures EndSeq(p) == Wrap(End(base, log, i + 1))
  {
    WrapAddSmall(End(base, log, i) + 1, p.length);
  }

  lemma EndBetween(base: nat, log: Log, i: nat, j: nat)
    requires i <= j <= |log|
    ensures End(base, log, i) <= End(base, log, j)
  {
    if i < j {
      EndMonotone(base, log, i, j);
    }
  }

  // The receive buffer

  /** ps carries the entries idx of the log, in order, none before lo and all ending by limit.
      An entry follows itself, or follows lo, only if its range passes 2^32: there the overlap test
      of the program sees nothing. */
  ghost predicate Chain(base: nat, log: Log, lo: nat, limit: nat, ps: seq<UdpPacket>, idx: seq<nat>)
    decreases ps
  {
    if ps == [] then idx == [] else
      && idx != []
      && IsEntry(base, log, ps[0], idx[0])
      && lo <= idx[0]
      && (idx[0] == lo ==> Crosses(base, log, lo))
      && End(base, log, idx[0] + 1) <= limit
      && Chain(base, log, idx[0], limit, ps[1..], idx[1..])
  }

  /** ps buffers the entries idx for a receiver that has taken k entries. The index k - 1 is a
      repetition left behind. */
  ghost predicate Buffered(base: nat, log: Log, k: nat, recvWindow: nat, ps: seq<UdpPacket>, idx: seq<nat>) {
    1 <= k <= |log| && Chain(base, log, k - 1, End(base, log, k) + recvWindow, ps, idx)
  }

  /** Nothing at the front can be reassembled. */
  predicate Settled(k: nat, idx: seq<nat>) {
    idx != [] ==> idx[0] != k
  }

  lemma {:induction false} ChainWiden(base: nat, log: Log, lo: nat, limit: nat, limit': nat, ps: seq<UdpPacket>,
                                      idx: seq<nat>)
    requires Chain(base, log, lo, limit, ps, idx) && limit <= limit'
    ensures Chain(base, log, lo, limit', ps, idx)
    decreases ps
  {
    if ps != [] {
      ChainWiden(base, log, idx[0], limit, limit', ps[1..], idx[1..]);
    }
  }

  lemma {:induction false} ChainExtends(base: nat, log: Log, more: Log, lo: nat, limit: nat, ps: seq<UdpPacket>,
                                        idx: seq<nat>)
    requires Chain(base, log, lo, limit, ps, idx) && log <= more
    ensures Chain(base, more, lo, limit, ps, idx)
    decreases ps
  {
    if ps != [] {
      LogExtends(base, log, more, idx[0]);
      LogExtends(base, log, more, idx[0] + 1);
      ChainExtends(base, log, more, idx[0], limit, ps[1..], idx[1..]);
    }
  }

  lemma {:induction false} ChainAbove(base: nat, log: Log, lo: nat, limit: nat, ps: seq<UdpPacket>, idx: seq<nat>,
                                      i: nat)
    requires Chain(base, log, lo, limit, ps, idx) && i in idx
    ensures lo <= i < |log| && (i == lo ==> Crosses(base, log, lo))
    decreases ps
  {
    if i != idx[0] {
      ChainAbove(base, log, idx[0], limit, ps[1..], idx[1..], i);
    }
  }

  /** Two entries within a receive window of each other compare as their indices do. */
  lemma EntriesCompare(base: nat, log: Log, k: nat, recvWindow: nat, i: nat, j: nat)
    requires ShortEntries(log) && 1 <= k <= |log| && recvWindow <= MAX_RECV_WINDOW
    requires k - 1 <= i < |log| && k - 1 <= j < |log|
    requires End(base, log, i + 1) <= End(base, log, k) + recvWindow
    requires End(base, log, j + 1) <= End(base, log, k) + recvWindow
    ensures PartialCmp(Wrap(End(base, log, i) + 1), Wrap(End(base, log, j) + 1)) == Compare(i, j)
  {
    if i < j {
      EndMonotone(base, log, i, j);
    } else if j < i {
      EndMonotone(base, log, j, i);
    }
    assert End(base, log, k) == End(base, log, k - 1) + 1 + |log[k - 1]|;
    EndBetween(base, log, k - 1, i);
    EndBetween(base, log, k - 1, j);
    EndWithin(base, log, i);
    EndWithin(base, log, j);
    CmpFaithful(End(base, log, i) + 1, End(base, log, j) + 1);
  }

  lemma EndWithin(base: nat, log: Log, i: nat)
    requires i < |log|
    ensures End(base, log, i) + 1 + |log[i]| == End(base, log, i + 1)
  {
  }

  /** The front packet is the next one expected exactly when its index is k. */
  lemma FrontExpected(base: nat, log: Log, k: nat, recvWindow: nat, i: nat)
    requires ShortEntries(log) && 1 <= k <= |log| && recvWindow <= MAX_RECV_WINDOW
    requires k - 1 <= i < |log| && End(base, log, i + 1) <= End(base, log, k) + recvWindow
    ensures Wrap(End(base, log, i) + 1) == Add(Wrap(End(base, log, k)), 1) <==> i == k
  {
    WrapAddSmall(End(base, log, k), 1);
    EndWithin(base, log, k - 1);
    EndBetween(base, log, k - 1, i);
    if i < k {
      EndMonotone(base, log, i, k);
    } else if k < i {
      EndMonotone(base, log, k, i);
    }
    WrapInjective(End(base, log, i) + 1, End(base, log, k) + 1);
  }

  /** How many of the next expected entries are buffered at the front. */
  function Run(k: nat, idx: seq<nat>): (n: nat)
    ensures n <= |idx| && (n > 0 <==> idx != [] && idx[0] == k)
    decreases idx
  {
    if idx == [] || idx[0] != k then 0 else 1 + Run(k + 1, idx[1..])
  }

  lemma BufferedTail(base: nat, log: Log, k: nat, recvWindow: nat, ps: seq<UdpPacket>, idx: seq<nat>)
    requires Buffered(base, log, k, recvWindow, ps, idx) && ps != [] && idx[0] == k
    ensures Buffered(base, log, k + 1, recvWindow, ps[1..], idx[1..])
  {
    EndWithin(base, log, k);
    ChainWiden(base, log, k, End(base, log, k) + recvWindow, End(base, log, k + 1) + recvWindow, ps[1..], idx[1..]);
  }

  /** Reassembly takes the next entries, whole and in order, and leaves a settled buffer. */
  lemma {:induction false} ReassembleRefines(base: nat, log: Log, k: nat, recvWindow: nat, ps: seq<UdpPacket>,
                                        idx: seq<nat>)
    requires ShortEntries(log) && recvWindow <= MAX_RECV_WINDOW
    requires Buffered(base, log, k, recvWindow, ps, idx)
    ensures var n, r := Run(k, idx), Reassemble(Wrap(End(base, log, k)), ps);
            && k + n <= |log|
            && r.ack == Wrap(End(base, log, k + n))
            && (n > 0 <==> r.bytes != [])
            && |r.rest| == |ps| - n
            && Buffered(base, log, k + n, recvWindow, r.rest, idx[n..]) && Settled(k + n, idx[n..])
    decreases ps
  {
    hide Wrap, Add;
    if ps != [] {
      FrontExpected(base, log, k, recvWindow, idx[0]);
      if idx[0] == k {
        EntryEnd(base, log, ps[0], k);
        BufferedTail(base, log, k, recvWindow, ps, idx);
        ReassembleRefines(base, log, k + 1, recvWindow, ps[1..], idx[1..]);
        var n := Run(k, idx);
        assert idx[1..][n - 1..] == idx[n..];
      }
    }
  }

  lemma {:induction false} ReassembledBytes(base: nat, log: Log, k: nat, recvWindow: nat, ps: seq<UdpPacket>,
                                        idx: seq<nat>)
    requires ShortEntries(log) && recvWindow <= MAX_RECV_WINDOW
    requires Buffered(base, log, k, recvWindow, ps, idx) && k + Run(k, idx) <= |log|
    ensures Bytes(log, k) + Reassemble(Wrap(End(base, log, k)), ps).bytes == Bytes(log, k + Run(k, idx))
    decreases ps
  {
    hide Wrap, Add;
    if ps != [] {
      FrontExpected(base, log, k, recvWindow, idx[0]);
      if idx[0] == k {
        EntryEnd(base, log, ps[0], k);
        BufferedTail(base, log, k, recvWindow, ps, idx);
        ReassembledBytes(base, log, k + 1, recvWindow, ps[1..], idx[1..]);
        var r := Reassemble(Wrap(End(base, log, k + 1)), ps[1..]);
        AppendAssociates(Bytes(log, k), log[k], r.bytes);
      }
    }
  }

  // Inserting a packet

  /** Two disjoint ranges less than one turn apart never overlap in the program's raw comparison. */
  lemma DisjointRangesDoNotOverlap(a: nat, b: nat, c: nat, d: nat)
    requires a <= b < c <= d < a + TWO32
    ensures !(Wrap(a) <= Wrap(d) && Wrap(c) <= Wrap(b))
  {
    if b / TWO32 < c / TWO32 {
      assert d / TWO32 >= a / TWO32 + 1;
    }
  }

  /** For entries near each other the overlap test finds exactly an equal entry whose range does not
      pass 2^32. */
  lemma OverlapsExact(base: nat, log: Log, p: UdpPacket, i: nat, o: UdpPacket, j: nat)
    requires IsEntry(base, log, p, i) && IsEntry(base, log, o, j)
    requires End(base, log, i + 1) - End(base, log, j) < TWO32 && End(base, log, j + 1) - End(base, log, i) < TWO32
    ensures Overlaps(p, o) <==> i == j && !Crosses(base, log, i)
  {
    EntryEnd(base, log, p, i);
    EntryEnd(base, log, o, j);
    if i < j {
      EndMonotone(base, log, i, j);
      DisjointRangesDoNotOverlap(End(base, log, i) + 1, End(base, log, i + 1),
                                 End(base, log, j) + 1, End(base, log, j + 1));
    } else if j < i {
      EndMonotone(base, log, j, i);
      DisjointRangesDoNotOverlap(End(base, log, j) + 1, End(base, log, j + 1),
                                 End(base, log, i) + 1, End(base, log, i + 1));
    }
  }

  /** The overlap search misses a buffered copy of the packet exactly when its range passes 2^32,
      and reports nothing else. */
  lemma {:induction false} SearchExact(base: nat, log: Log, k: nat, recvWindow: nat, lo: nat, ps: seq<UdpPacket>,
                                       idx: seq<nat>,
                                       p: UdpPacket, i: nat)
    requires ShortEntries(log) && 1 <= k <= |log| && recvWindow <= MAX_RECV_WINDOW && k - 1 <= lo
    requires Chain(base, log, lo, End(base, log, k) + recvWindow, ps, idx)
    requires k <= i && IsEntry(base, log, p, i) && End(base, log, i + 1) <= End(base, log, k) + recvWindow
    ensures FirstOverlap(ps, p) == None <==> (i in idx ==> Crosses(base, log, i))
    decreases ps
  {
    hide Wrap, Add;
    if ps != [] {
      EndBetween(base, log, k, i);
      EndBetween(base, log, k - 1, idx[0]);
      EndWithin(base, log, k - 1);
      OverlapsExact(base, log, p, i, ps[0], idx[0]);
      SearchExact(base, log, k, recvWindow, idx[0], ps[1..], idx[1..], p, i);
      assert i in idx <==> i == idx[0] || i in idx[1..];
    }
  }

  /** idx with i put in before the first index not below it. */
  function Insert(idx: seq<nat>, i: nat): (r: seq<nat>)
    ensures r != [] && (r[0] == i || (idx != [] && r[0] == idx[0]))
    ensures r[0] == i <==> idx == [] || i <= idx[0]
  {
    if idx == [] || i <= idx[0] then [i] + idx else [idx[0]] + Insert(idx[1..], i)
  }

  function Placed(ps: seq<UdpPacket>, p: UdpPacket): seq<UdpPacket> {
    var at := InsertAt(ps, p);
    ps[..at] + [p] + ps[at..]
  }

  /** A new packet goes in before the first buffered entry that is not earlier, so the buffer stays
      in order. */
  lemma {:induction false} InsertRefines(base: nat, log: Log, k: nat, recvWindow: nat, lo: nat, ps: seq<UdpPacket>,
                                        idx: seq<nat>, p: UdpPacket, i: nat)
    requires ShortEntries(log) && 1 <= k <= |log| && recvWindow <= MAX_RECV_WINDOW && k - 1 <= lo
    requires Chain(base, log, lo, End(base, log, k) + recvWindow, ps, idx)
    requires k <= i && IsEntry(base, log, p, i) && End(base, log, i + 1) <= End(base, log, k) + recvWindow
    requires lo <= i && (i == lo || i in idx ==> Crosses(base, log, i))
    ensures Chain(base, log, lo, End(base, log, k) + recvWindow, Placed(ps, p), Insert(idx, i))
    decreases ps
  {
    hide Wrap, Add, Crosses, End, ShortEntries;
    var limit := End(base, log, k) + recvWindow;
    if ps == [] {
      assert Placed(ps, p) == [p] && Insert(idx, i) == [i];
      return;
    }
    EntriesCompare(base, log, k, recvWindow, idx[0], i);
    if i <= idx[0] {
      assert Placed(ps, p) == [p] + ps && Insert(idx, i) == [i] + idx;
      ChainHead(base, log, lo, i, limit, ps, idx);
      assert ([p] + ps)[1..] == ps && ([i] + idx)[1..] == idx;
    } else {
      assert i in idx <==> i in idx[1..];
      InsertRefines(base, log, k, recvWindow, idx[0], ps[1..], idx[1..], p, i);
      PlacedLater(ps, p);
      assert Insert(idx, i)[1..] == Insert(idx[1..], i);
    }
  }

  lemma ChainHead(base: nat, log: Log, lo: nat, lo': nat, limit: nat, ps: seq<UdpPacket>, idx: seq<nat>)
    requires ps != [] && Chain(base, log, lo, limit, ps, idx)
    requires lo' <= idx[0] && (lo' == idx[0] ==> Crosses(base, log, lo'))
    ensures Chain(base, log, lo', limit, ps, idx)
  {
  }

  lemma PlacedLater(ps: seq<UdpPacket>, p: UdpPacket)
    requires ps != [] && Lt(ps[0].sequenceNumber, p.sequenceNumber)
    ensures Placed(ps, p)[0] == ps[0] && Placed(ps, p)[1..] == Placed(ps[1..], p) && Placed(ps, p) != []
  {
    var at := InsertAt(ps[1..], p);
    assert ps[..at + 1] == [ps[0]] + ps[1..][..at] && ps[at + 1..] == ps[1..][at..];
  }

  // What one arriving data packet does

  /** The receiver has taken k entries and buffers the entries idx. */
  ghost predicate Receiving(base: nat, log: Log, k: nat, c: Conn, idx: seq<nat>) {
    && ShortEntries(log)
    && MAX_PACKET_SIZE <= c.config.recvWindow <= MAX_RECV_WINDOW
    && Buffered(base, log, k, c.config.recvWindow, c.recvPackets, idx)
    && Settled(k, idx)
    && c.ackNumber == Wrap(End(base, log, k))
  }

  /** Entry i is near enough to the window for the program's comparisons to be faithful: not too far
      ahead of what was acknowledged, and not too far behind the end of the window. */
  predicate Recent(base: nat, log: Log, k: nat, recvWindow: nat, i: nat)
    requires k <= |log| && i < |log|
  {
    End(base, log, k) + recvWindow - FAITHFUL <= End(base, log, i + 1) <= End(base, log, k) + FAITHFUL
  }

  predicate Fits(base: nat, log: Log, k: nat, recvWindow: nat, i: nat)
    requires k <= |log| && i < |log|
  {
    k <= i && End(base, log, i + 1) <= End(base, log, k) + recvWindow
  }

  /** The window test of the program is the window test on positions. */
  lemma WindowTestExact(base: nat, log: Log, k: nat, c: Conn, idx: seq<nat>, p: UdpPacket, i: nat)
    requires Receiving(base, log, k, c, idx) && IsEntry(base, log, p, i)
    requires Recent(base, log, k, c.config.recvWindow, i)
    ensures Le(p.sequenceNumber, c.ackNumber) || Gt(EndSeq(p), Add(c.ackNumber, c.config.recvWindow)) <==>
            !Fits(base, log, k, c.config.recvWindow, i)
  {
    EntryEnd(base, log, p, i);
    var ack := End(base, log, k);
    WrapAddSmall(ack, c.config.recvWindow);
    CmpFaithful(End(base, log, i) + 1, ack);
    CmpFaithful(End(base, log, i + 1), ack + c.config.recvWindow);
    if i < k {
      EndMonotone(base, log, i, k);
    } else {
      EndBetween(base, log, k, i);
    }
  }

  /** A data packet is accepted exactly when it lies in the window on positions and is not buffered
      already; one whose range passes 2^32 is accepted again even when it is. */
  lemma AcceptExact(base: nat, log: Log, k: nat, c: Conn, idx: seq<nat>, p: UdpPacket, i: nat)
    requires Receiving(base, log, k, c, idx) && IsEntry(base, log, p, i)
    requires Recent(base, log, k, c.config.recvWindow, i)
    ensures var fits := Fits(base, log, k, c.config.recvWindow, i);
            var r := RecvProcessPacket(c, p).1;
            && (r.Ok? <==> fits && (i in idx ==> Crosses(base, log, i)))
            && (r.Err? && r.error.OutOfWindow? <==> !fits)
    ensures RecvProcessPacket(c, p).1.Err? ==> RecvProcessPacket(c, p).0 == c
  {
    WindowTestExact(base, log, k, c, idx, p, i);
    if Fits(base, log, k, c.config.recvWindow, i) {
      SearchExact(base, log, k, c.config.recvWindow, k - 1, c.recvPackets, idx, p, i);
    }
  }

  /** What `RecvProcessPacket` does to an accepted packet. */
  lemma AcceptedEffect(c: Conn, p: UdpPacket)
    requires |p.payload| > 0 && RecvProcessPacket(c, p).1.Ok?
    ensures var r := Reassemble(c.ackNumber, Placed(c.recvPackets, p));
            var c' := RecvProcessPacket(c, p).0;
            && c'.config == c.config && c'.ackNumber == r.ack && c'.recvPackets == r.rest
            && c'.reassembled == c.reassembled + r.bytes
            && c'.events == c.events + if r.bytes != [] then [AckUpdate] else []
  {
  }

  /** How many buffered packets are reassembled when p arrives. */
  function TakenBy(c: Conn, p: UdpPacket): nat {
    if p.payload == [] || RecvProcessPacket(c, p).1.Err? then 0
    else var ps := Placed(c.recvPackets, p); |ps| - |Reassemble(c.ackNumber, ps).rest|
  }

  /** The bytes that accepting p adds to the stream. */
  function NewBytes(c: Conn, p: UdpPacket): seq<byte> {
    Reassemble(c.ackNumber, Placed(c.recvPackets, p)).bytes
  }

  /** An accepted packet of entry i: the entries buffered next in line are taken. */
  lemma AcceptedRefines(base: nat, log: Log, k: nat, c: Conn, idx: seq<nat>, p: UdpPacket, i: nat)
    requires Receiving(base, log, k, c, idx) && IsEntry(base, log, p, i)
    requires Fits(base, log, k, c.config.recvWindow, i) && (i in idx ==> Crosses(base, log, i))
    requires RecvProcessPacket(c, p).1.Ok?
    ensures var n := Run(k, Insert(idx, i)); var c' := RecvProcessPacket(c, p).0;
            && k + n <= |log| && n == TakenBy(c, p)
            && Receiving(base, log, k + n, c', Insert(idx, i)[n..])
            && c'.events == c.events + (if n > 0 then [AckUpdate] else [])
            && c'.reassembled == c.reassembled + NewBytes(c, p)
            && Bytes(log, k) + NewBytes(c, p) == Bytes(log, k + n)
  {
    hide Wrap, Add, Chain, Insert, InsertAt, Run, Crosses, Reassemble;
    AcceptedEffect(c, p);
    InsertRefines(base, log, k, c.config.recvWindow, k - 1, c.recvPackets, idx, p, i);
    ReassembleRefines(base, log, k, c.config.recvWindow, Placed(c.recvPackets, p), Insert(idx, i));
    ReassembledBytes(base, log, k, c.config.recvWindow, Placed(c.recvPackets, p), Insert(idx, i));
  }

  /** One data packet of entry i: nothing happens, or it is buffered and the next n entries are
      taken. The stream moves exactly when the packet is the next entry, fits in the window, and no
      repetition of entry k - 1 sits at the front of the buffer. */
  lemma ReceiveRefines(base: nat, log: Log, k: nat, c: Conn, idx: seq<nat>, p: UdpPacket, i: nat, drained: seq<byte>)
    returns (n: nat, idx': seq<nat>)
    requires Receiving(base, log, k, c, idx) && IsEntry(base, log, p, i) && drained + c.reassembled == Bytes(log, k)
    requires Recent(base, log, k, c.config.recvWindow, i)
    ensures k + n <= |log| && n == TakenBy(c, p)
    ensures var c' := RecvProcessPacket(c, p).0;
            && Receiving(base, log, k + n, c', idx')
            && drained + c'.reassembled == Bytes(log, k + n)
            && c'.events == c.events + (if n > 0 then [AckUpdate] else [])
    ensures n > 0 <==> i == k && Fits(base, log, k, c.config.recvWindow, k) && (idx == [] || idx[0] > k)
  {
    hide Wrap, Add, Insert, Recent, Crosses, InsertAt, FirstOverlap, Reassemble, RecvProcessPacket, NewBytes, Bytes,
         End;
    AcceptExact(base, log, k, c, idx, p, i);
    if RecvProcessPacket(c, p).1.Ok? {
      AcceptedRefines(base, log, k, c, idx, p, i);
      AppendAssociates(drained, c.reassembled, NewBytes(c, p));
      n, idx' := Run(k, Insert(idx, i)), Insert(idx, i)[Run(k, Insert(idx, i))..];
    } else {
      n, idx' := 0, idx;
      if i == k && Fits(base, log, k, c.config.recvWindow, k) && idx[0] > k {
        ChainAbove(base, log, idx[0], End(base, log, k) + c.config.recvWindow, c.recvPackets[1..], idx[1..], i);
        assert false;
      }
    }
  }

  // The receive buffer in the program's own terms

  lemma {:induction false} ChainMember(base: nat, log: Log, lo: nat, limit: nat, ps: seq<UdpPacket>, idx: seq<nat>,
                                       j: nat)
    requires Chain(base, log, lo, limit, ps, idx) && j < |ps|
    ensures |idx| == |ps| && lo <= idx[j] && (idx[j] == lo ==> Crosses(base, log, lo))
    ensures IsEntry(base, log, ps[j], idx[j]) && End(base, log, idx[j] + 1) <= limit
    ensures idx[0] <= idx[j]
    decreases ps
  {
    if j == 0 {
      ChainLength(base, log, lo, limit, ps, idx);
    } else {
      ChainMember(base, log, idx[0], limit, ps[1..], idx[1..], j - 1);
    }
  }

  lemma {:induction false} ChainLength(base: nat, log: Log, lo: nat, limit: nat, ps: seq<UdpPacket>, idx: seq<nat>)
    requires Chain(base, log, lo, limit, ps, idx)
    ensures |idx| == |ps|
    decreases ps
  {
    if ps != [] {
      ChainLength(base, log, idx[0], limit, ps[1..], idx[1..]);
    }
  }

  /** A buffered packet that repeats the last entry taken blocks the front of the buffer. */
  predicate Wedged(c: Conn) {
    c.recvPackets != [] && !Gt(c.recvPackets[0].sequenceNumber, c.ackNumber)
  }

  lemma WedgedExact(base: nat, log: Log, k: nat, c: Conn, idx: seq<nat>)
    requires Receiving(base, log, k, c, idx)
    ensures Wedged(c) <==> idx != [] && idx[0] < k
    ensures !Wedged(c) <==> idx == [] || idx[0] > k
    ensures Wedged(c) ==> idx[0] == k - 1 && Crosses(base, log, k - 1)
    ensures !Wedged(c) <==> forall p :: p in c.recvPackets ==> Gt(p.sequenceNumber, c.ackNumber)
  {
    var limit := End(base, log, k) + c.config.recvWindow;
    forall j | 0 <= j < |c.recvPackets|
      ensures |idx| == |c.recvPackets| && idx[0] <= idx[j]
      ensures Gt(c.recvPackets[j].sequenceNumber, c.ackNumber) <==> idx[j] >= k
    {
      ChainMember(base, log, k - 1, limit, c.recvPackets, idx, j);
      EndWithin(base, log, k - 1);
      EndBetween(base, log, k - 1, idx[j]);
      EndWithin(base, log, idx[j]);
      if k <= idx[j] {
        EndBetween(base, log, k, idx[j]);
      } else {
        EndBetween(base, log, idx[j] + 1, k);
      }
      CmpFaithful(End(base, log, idx[j]) + 1, End(base, log, k));
    }
    assert c.recvPackets != [] ==> c.recvPackets[0] in c.recvPackets;
  }

  /** Once wedged, no packet ever unblocks the receiver. */
  lemma {:induction false} WedgedStays(base: nat, log: Log, k: nat, c: Conn, idx: seq<nat>, p: UdpPacket, i: nat)
    requires Receiving(base, log, k, c, idx) && IsEntry(base, log, p, i)
    requires Recent(base, log, k, c.config.recvWindow, i)
    requires Wedged(c)
    ensures Wedged(RecvProcessPacket(c, p).0) && TakenBy(c, p) == 0
    ensures RecvProcessPacket(c, p).0.ackNumber == c.ackNumber
    ensures RecvProcessPacket(c, p).0.reassembled == c.reassembled
  {
    hide Wrap, Add;
    WedgedExact(base, log, k, c, idx);
    AcceptExact(base, log, k, c, idx, p, i);
    if RecvProcessPacket(c, p).1.Ok? {
      AcceptedEffect(c, p);
      FrontExpected(base, log, k, c.config.recvWindow, idx[0]);
      EntriesCompare(base, log, k, c.config.recvWindow, idx[0], i);
      PlacedLater(c.recvPackets, p);
    }
  }

  function SumSpans(ps: seq<UdpPacket>): nat {
    if ps == [] then 0 else 1 + |ps[0].payload| + SumSpans(ps[1..])
  }

  lemma {:induction false} ChainSpans(base: nat, log: Log, lo: nat, limit: nat, ps: seq<UdpPacket>, idx: seq<nat>)
    requires Chain(base, log, lo, limit, ps, idx) && lo < |log| && End(base, log, lo + 1) <= limit
    requires forall i :: 0 <= i < |log| ==> !Crosses(base, log, i)
    ensures SumSpans(ps) <= limit - End(base, log, lo + 1)
    decreases ps
  {
    if ps != [] {
      ChainSpans(base, log, idx[0], limit, ps[1..], idx[1..]);
      EndMonotone(base, log, lo, idx[0]);
      EndWithin(base, log, idx[0]);
    }
  }

  lemma {:induction false} ChainOrdered(base: nat, log: Log, lo: nat, limit: nat, ps: seq<UdpPacket>, idx: seq<nat>,
                                        i: nat, j: nat)
    requires ShortEntries(log) && Chain(base, log, lo, limit, ps, idx) && lo < |log|
    requires limit - End(base, log, lo + 1) <= FAITHFUL
    requires forall i :: 0 <= i < |log| ==> !Crosses(base, log, i)
    requires i < j < |ps|
    ensures Lt(ps[i].sequenceNumber, ps[j].sequenceNumber) && !Overlaps(ps[i], ps[j])
    decreases ps
  {
    EndMonotone(base, log, lo, idx[0]);
    EndWithin(base, log, idx[0]);
    if i > 0 {
      ChainOrdered(base, log, idx[0], limit, ps[1..], idx[1..], i - 1, j - 1);
    } else {
      ChainMember(base, log, idx[0], limit, ps[1..], idx[1..], j - 1);
      var later := idx[1..][j - 1];
      EndMonotone(base, log, idx[0], later);
      EndWithin(base, log, later);
      CmpFaithful(End(base, log, idx[0]) + 1, End(base, log, later) + 1);
      OverlapsExact(base, log, ps[0], idx[0], ps[j], later);
    }
  }

  /** With no range passing 2^32 the buffer is sorted, pairwise disjoint and inside the window, its
      front leaves a gap, and what it holds fits in the window. */
  lemma BufferShape(base: nat, log: Log, k: nat, c: Conn, idx: seq<nat>)
    requires Receiving(base, log, k, c, idx)
    requires forall i :: 0 <= i < |log| ==> !Crosses(base, log, i)
    ensures forall i, j :: 0 <= i < j < |c.recvPackets| ==>
              Lt(c.recvPackets[i].sequenceNumber, c.recvPackets[j].sequenceNumber)
              && !Overlaps(c.recvPackets[i], c.recvPackets[j])
    ensures forall j :: 0 <= j < |c.recvPackets| ==>
              Gt(c.recvPackets[j].sequenceNumber, Add(c.ackNumber, 1))
              && Le(EndSeq(c.recvPackets[j]), Add(c.ackNumber, c.config.recvWindow))
    ensures SumSpans(c.recvPackets) <= c.config.recvWindow
    ensures !Wedged(c)
  {
    var limit := End(base, log, k) + c.config.recvWindow;
    WedgedExact(base, log, k, c, idx);
    EndWithin(base, log, k - 1);
    ChainSpans(base, log, k - 1, limit, c.recvPackets, idx);
    forall i, j | 0 <= i < j < |c.recvPackets|
      ensures Lt(c.recvPackets[i].sequenceNumber, c.recvPackets[j].sequenceNumber)
      ensures !Overlaps(c.recvPackets[i], c.recvPackets[j])
    {
      ChainOrdered(base, log, k - 1, limit, c.recvPackets, idx, i, j);
    }
    forall j | 0 <= j < |c.recvPackets|
      ensures Gt(c.recvPackets[j].sequenceNumber, Add(c.ackNumber, 1))
      ensures Le(EndSeq(c.recvPackets[j]), Add(c.ackNumber, c.config.recvWindow))
    {
      BufferedBounds(base, log, k, c, idx, j);
    }
  }

  lemma BufferedBounds(base: nat, log: Log, k: nat, c: Conn, idx: seq<nat>, j: nat)
    requires Receiving(base, log, k, c, idx) && !Wedged(c) && j < |c.recvPackets|
    ensures Gt(c.recvPackets[j].sequenceNumber, Add(c.ackNumber, 1))
    ensures Le(EndSeq(c.recvPackets[j]), Add(c.ackNumber, c.config.recvWindow))
  {
    var ack := End(base, log, k);
    WedgedExact(base, log, k, c, idx);
    ChainMember(base, log, k - 1, ack + c.config.recvWindow, c.recvPackets, idx, j);
    EntryEnd(base, log, c.recvPackets[j], idx[j]);
    EndMonotone(base, log, k, idx[j]);
    EndWithin(base, log, k);
    EndWithin(base, log, idx[j]);
    WrapAddSmall(ack, 1);
    WrapAddSmall(ack, c.config.recvWindow);
    CmpFaithful(End(base, log, idx[j]) + 1, ack + 1);
    CmpFaithful(End(base, log, idx[j] + 1), ack + c.config.recvWindow);
  }
}
