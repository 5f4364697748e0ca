/**
 Wrapping 32-bit sequence numbers (tunshell-client/src/p2p/udp/seq_number.rs).

 `Add` and `PartialCmp` are the code's own definitions on the 32-bit representation.
 `Wrap` sends an unbounded position to its representation; the lemmas say exactly when
 the wrapping comparison agrees with the order of the unbounded positions.
 */
module SeqNumber {

  const TWO32 := 0x1_0000_0000

  type u32 = x: int | 0 <= x < 0x1_0000_0000

  // The largest distance at which the wrapping order is the integer order.
  // The code compares against u32::MAX / 2, which is one less than 2^31.
  const FAITHFUL := 0x8000_0000 - 2

  datatype Ordering = Less | Equal | Greater

  function Add(a: u32, b: u32): u32 {
    (a + b) % 0x1_0000_0000
  }

  function PartialCmp(a: u32, b: u32): Ordering {
    if a == b then Equal
    else if a > b then
      if a - b < 0xFFFF_FFFF / 2 then Greater else Less
    else
      if b - a < 0xFFFF_FFFF / 2 then Less else Greater
  }

  predicate Lt(a: u32, b: u32) { PartialCmp(a, b) == Less }
  predicate Gt(a: u32, b: u32) { PartialCmp(a, b) == Greater }
  predicate Le(a: u32, b: u32) { PartialCmp(a, b) != Greater }
  predicate Ge(a: u32, b: u32) { PartialCmp(a, b) != Less }

  function Wrap(p: int): u32 {
    p % 0x1_0000_0000
  }

  function Compare(p: int, q: int): Ordering {
    if p < q then Less else if p == q then Equal else Greater
  }

  function Flip(o: Ordering): Ordering {
    match o
    case Less => Greater
    case Equal => Equal
    case Greater => Less
  }

  lemma WrapAdd(p: int, q: int)
    ensures Add(Wrap(p), Wrap(q)) == Wrap(p + q)
  {
  }

  lemma WrapAddSmall(p: int, n: u32)
    ensures Add(Wrap(p), n) == Wrap(p + n)
  {
    WrapAdd(p, n);
  }

  lemma AddZero(a: u32)
    ensures Add(0, a) == a && Add(a, 0) == a
  {
  }

  lemma AddAssociates(a: u32, n: nat, b: u32)
    ensures Add(a, Wrap(n + b)) == Add(Wrap(a + n), b) == Wrap(a + n + b)
  {
    assert Wrap(a) == a && Wrap(b) == b;
    WrapAdd(a, n + b);
    WrapAdd(a + n, b);
    assert a + (n + b) == (a + n) + b;
  }

  /** Equal representations are a whole number of turns apart. */
  lemma WrapInjective(p: int, q: int)
    requires -0x1_0000_0000 < p - q < 0x1_0000_0000
    ensures Wrap(p) == Wrap(q) <==> p == q
  {
  }

  /** The order is total and antisymmetric: swapping the arguments flips the answer. */
  lemma CmpAntisymmetric(a: u32, b: u32)
    ensures PartialCmp(b, a) == Flip(PartialCmp(a, b))
    ensures PartialCmp(a, b) == Equal <==> a == b
  {
  }

  /** Within FAITHFUL of each other, positions compare as their representations do. */
  lemma CmpFaithful(p: int, q: int)
    requires -FAITHFUL <= p - q <= FAITHFUL
    ensures PartialCmp(Wrap(p), Wrap(q)) == Compare(p, q)
  {
  }

  /** Beyond FAITHFUL the answer at distances 2^31 - 1, 2^31 and 2^31 + 1 depends on where the
      two representations lie, and at larger ones it is reversed. */
  lemma CmpExact(p: int, d: int)
    requires 0 < d < TWO32
    ensures PartialCmp(Wrap(p), Wrap(p + d)) == Less <==>
            d <= FAITHFUL || (d <= FAITHFUL + 3 && Wrap(p) > Wrap(p + d))
  {
  }

  /** The answer as a function of the modular distance from `a` to `b`. */
  lemma CmpByDistance(a: u32, b: u32)
    ensures var d := Wrap(b - a);
            PartialCmp(a, b) ==
              if d == 0 then Equal
              else if d <= FAITHFUL || (d <= FAITHFUL + 3 && a > b) then Less else Greater
  {
    assert Wrap(b - a) == if a <= b then b - a else b - a + TWO32;
  }

  lemma DistanceShift(a: u32, b: u32, n: u32)
    ensures Wrap(Add(b, n) - Add(a, n)) == Wrap(b - a)
  {
    var x, y := if a + n >= TWO32 then 1 else 0, if b + n >= TWO32 then 1 else 0;
    assert Add(b, n) - Add(a, n) == b - a + (x - y) * TWO32;
  }

  lemma CmpShiftsAgree(a: u32, b: u32, n: u32)
    requires !(FAITHFUL + 1 <= Wrap(b - a) <= FAITHFUL + 3)
    ensures PartialCmp(Add(a, n), Add(b, n)) == PartialCmp(a, b)
  {
    DistanceShift(a, b, n);
    CmpByDistance(a, b);
    CmpByDistance(Add(a, n), Add(b, n));
  }

  lemma CmpShiftsDiffer(a: u32, b: u32) returns (n: u32)
    requires FAITHFUL + 1 <= Wrap(b - a) <= FAITHFUL + 3
    ensures PartialCmp(Add(a, n), Add(b, n)) != PartialCmp(a, b)
  {
    // one of the two operands is put at zero
    if a > b {
      n := TWO32 - a;
      assert Add(a, n) == 0 && Add(b, n) == b - a + TWO32 == Wrap(b - a);
    } else {
      n := TWO32 - b;
      assert Add(b, n) == 0 && Add(a, n) == a - b + TWO32;
    }
  }

  /** Adding the same number to both sides never changes the answer, exactly when their modular
      distance is not one of the three in the middle. */
  lemma CmpShiftInvariant(a: u32, b: u32)
    ensures (forall n: u32 :: PartialCmp(Add(a, n), Add(b, n)) == PartialCmp(a, b)) <==>
            !(FAITHFUL + 1 <= Wrap(b - a) <= FAITHFUL + 3)
  {
    if FAITHFUL + 1 <= Wrap(b - a) <= FAITHFUL + 3 {
      var n := CmpShiftsDiffer(a, b);
    } else {
      forall n: u32 ensures PartialCmp(Add(a, n), Add(b, n)) == PartialCmp(a, b) {
        CmpShiftsAgree(a, b, n);
      }
    }
  }
}
