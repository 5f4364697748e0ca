/**
 The transit window arithmetic (tunshell-client/src/p2p/udp/congestion.rs): its hard cap, and how
 much one window's worth of sends adds.
 */
module Congestion {
  import opened SeqNumber
  import opened Packet
  import opened Connection

  // 577 packets of 576 bytes: from here on a send adds nothing
  const WINDOW_CAP := 332352

  predicate WindowInRange(tw: u32) {
    MAX_PACKET_SIZE <= tw <= WINDOW_CAP
  }

  /** One change of the window: a packet was sent, or a packet was found dropped. */
  datatype WindowEvent = PacketSent | PacketDropped

  function Evolve(tw: u32, events: seq<WindowEvent>): u32
    requires WindowInRange(tw)
    ensures WindowInRange(Evolve(tw, events))
    decreases events
  {
    if events == [] then tw else
    WindowStep(tw);
    match events[0]
    case PacketSent => Evolve(IncreaseWindow(tw), events[1..])
    case PacketDropped => Evolve(DecreaseWindow(tw), events[1..])
  }

  /** Both changes stay in range and neither overflows 32 bits: the increase is the exact sum and
      the decrease is the exact three quarters, but for the floor of one packet. */
  lemma WindowStep(tw: u32)
    requires WindowInRange(tw)
    ensures WindowInRange(IncreaseWindow(tw)) && IncreaseWindow(tw) >= tw
    ensures IncreaseWindow(tw) == tw + MAX_PACKET_SIZE / (tw / MAX_PACKET_SIZE)
    ensures WindowInRange(DecreaseWindow(tw)) && DecreaseWindow(tw) <= tw
    ensures tw as int * 3 < TWO32
    ensures tw >= 768 ==> 4 * DecreaseWindow(tw) <= 3 * tw < 4 * DecreaseWindow(tw) + 4
    ensures tw < 768 ==> DecreaseWindow(tw) == MAX_PACKET_SIZE
  {
    var packets := tw / MAX_PACKET_SIZE;
    if packets < MAX_PACKET_SIZE {
      QuotientBound(packets);
    } else if packets == MAX_PACKET_SIZE {
      assert MAX_PACKET_SIZE / packets == 1;
    } else {
      assert MAX_PACKET_SIZE / packets == 0;
    }
  }

  function Times(n: nat, q: nat): nat {
    if n == 0 then 0 else Times(n - 1, q) + q
  }

  lemma {:induction false} TimesIsProduct(n: nat, q: nat)
    ensures Times(n, q) == n * q
  {
    if n > 0 {
      TimesIsProduct(n - 1, q);
    }
  }

  lemma {:induction false} TimesMonotone(a: nat, b: nat, q: nat)
    requires a <= b
    ensures Times(a, q) + (if a < b then q else 0) <= Times(b, q)
    decreases b
  {
    if a < b {
      TimesMonotone(a, b - 1, q);
    }
  }

  /** One packet shared out over the k packets of a window. */
  lemma QuotientBound(k: nat)
    requires k > 0
    ensures 0 <= MAX_PACKET_SIZE / k <= MAX_PACKET_SIZE
    ensures Times(k, MAX_PACKET_SIZE / k) <= MAX_PACKET_SIZE
    ensures Times(k, MAX_PACKET_SIZE / k) == MAX_PACKET_SIZE <==> MAX_PACKET_SIZE % k == 0
  {
    var q := MAX_PACKET_SIZE / k;
    TimesIsProduct(k, q);
    assert MAX_PACKET_SIZE == k * q + MAX_PACKET_SIZE % k;
    TimesMonotone(1, k, q);
    assert Times(1, q) == q;
  }

  function Grow(tw: u32, sends: nat): u32
    requires WindowInRange(tw)
    ensures WindowInRange(Grow(tw, sends))
  {
    if sends == 0 then tw else
    WindowStep(Grow(tw, sends - 1));
    IncreaseWindow(Grow(tw, sends - 1))
  }

  lemma {:induction false} GrowExact(k: nat, sends: nat)
    requires 1 <= k <= MAX_PACKET_SIZE && sends <= k
    ensures Grow(k * MAX_PACKET_SIZE, sends) == k * MAX_PACKET_SIZE + Times(sends, MAX_PACKET_SIZE / k)
  {
    if sends > 0 {
      GrowExact(k, sends - 1);
      QuotientBound(k);
      TimesMonotone(sends - 1, k, MAX_PACKET_SIZE / k);
      GrowStep(k, Times(sends - 1, MAX_PACKET_SIZE / k), sends - 1);
    }
  }

  lemma GrowStep(k: nat, added: nat, sends: nat)
    requires 1 <= k <= MAX_PACKET_SIZE && added < MAX_PACKET_SIZE
    requires Grow(k * MAX_PACKET_SIZE, sends) == k * MAX_PACKET_SIZE + added
    ensures Grow(k * MAX_PACKET_SIZE, sends + 1) == k * MAX_PACKET_SIZE + added + MAX_PACKET_SIZE / k
  {
    hide Wrap, IncreaseWindow;
    WindowStep(k * MAX_PACKET_SIZE + added);
    assert (k * MAX_PACKET_SIZE + added) / MAX_PACKET_SIZE == k;
  }

  /** From a window of exactly k packets, k sends add k * (576 / k): never more than one packet,
      and one packet exactly when k divides 576. */
  lemma AdditiveIncrease(k: nat)
    requires 1 <= k <= MAX_PACKET_SIZE
    ensures var start := k * MAX_PACKET_SIZE;
            && Grow(start, k) - start == k * (MAX_PACKET_SIZE / k)
            && Grow(start, k) <= start + MAX_PACKET_SIZE
            && (Grow(start, k) == start + MAX_PACKET_SIZE <==> MAX_PACKET_SIZE % k == 0)
  {
    GrowExact(k, k);
    QuotientBound(k);
    TimesIsProduct(k, MAX_PACKET_SIZE / k);
  }
}
