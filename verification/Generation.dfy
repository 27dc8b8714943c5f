/**
 Slot indices and truncated generations of the ring. A sequence number is a 64-bit signed
 integer; its slot is its low bits, its generation the remaining bits cut down to 32.
 */
module Generation {
  import opened Basics

  function Slot(q: int, cap: nat): (i: nat)
    requires cap > 0
    ensures i < cap
  {
    q % cap
  }

  /** The conversion of a wide signed integer to 32 bits. */
  function ToInt32(x: int): (r: int)
    ensures -TWO_31 <= r < TWO_31 && (x - r) % TWO_32 == 0
  {
    (x + TWO_31) % TWO_32 - TWO_31
  }

  function Gen(q: int, cap: nat): int
    requires cap > 0
  {
    ToInt32(q / cap)
  }

  // ------------------------------------------------------------------ bit operations

  /** `x & (2^k - 1)`, bit by bit. */
  function LowBits(x: nat, k: nat): nat {
    if k == 0 then 0 else x % 2 + 2 * LowBits(x / 2, k - 1)
  }

  /** `x >> k`, bit by bit. */
  function ShiftRight(x: nat, k: nat): nat {
    if k == 0 then x else ShiftRight(x / 2, k - 1)
  }

  lemma OneBitMore(x: nat, p: nat, s: nat, l: nat)
    requires x / 2 == p * s + l && l < p
    ensures x == (2 * p) * s + (x % 2 + 2 * l) && x % 2 + 2 * l < 2 * p
  {
    assert x == 2 * (x / 2) + x % 2;
    assert 2 * (p * s + l) == (2 * p) * s + 2 * l;
  }

  /** Masking with a power of two minus one is reduction modulo it, and shifting is division by it. */
  lemma {:induction false} MaskAndShift(x: nat, k: nat)
    ensures x == Pow2(k) * ShiftRight(x, k) + LowBits(x, k) && LowBits(x, k) < Pow2(k)
    ensures LowBits(x, k) == x % Pow2(k) && ShiftRight(x, k) == x / Pow2(k)
  {
    if k > 0 {
      MaskAndShift(x / 2, k - 1);
      OneBitMore(x, Pow2(k - 1), ShiftRight(x / 2, k - 1), LowBits(x / 2, k - 1));
    }
    DivModUnique(x, Pow2(k), ShiftRight(x, k), LowBits(x, k));
  }

  lemma QuotientBelow(d: int, cap: nat, m: int)
    requires cap > 0 && d < cap * m
    ensures d / cap < m
  {
    var e := d / cap;
    assert d == cap * e + d % cap;
    Difference(cap, e, m);
    Multiple(cap, e - m);
  }

  lemma MultiplyBoth(a: int, b: int, c: nat)
    requires a <= b
    ensures a * c <= b * c
  {
  }

  // ------------------------------------------------------------------ arithmetic of slots

  lemma SlotShift(q: int, cap: nat)
    requires cap > 0
    ensures Slot(q + cap, cap) == Slot(q, cap) && (q + cap) / cap == q / cap + 1
    ensures Slot(q - cap, cap) == Slot(q, cap) && (q - cap) / cap == q / cap - 1
  {
    var d, r := q / cap, q % cap;
    assert q + cap == cap * (d + 1) + r by { assert cap * (d + 1) == cap * d + cap; }
    DivModUnique(q + cap, cap, d + 1, r);
    assert q - cap == cap * (d - 1) + r by { assert cap * (d - 1) == cap * d - cap; }
    DivModUnique(q - cap, cap, d - 1, r);
  }

  /** Two sequences of one slot are a multiple of the capacity apart. */
  lemma SameSlot(q: int, p: int, cap: nat)
    requires cap > 0 && Slot(q, cap) == Slot(p, cap)
    ensures q - p == cap * (q / cap - p / cap)
    ensures q < p ==> q + cap <= p
  {
    assert q == cap * (q / cap) + q % cap && p == cap * (p / cap) + p % cap;
    var m := p / cap - q / cap;
    assert p - q == cap * m;
    Multiple(cap, m);
  }

  /** A generation differs from the next one: the scan cannot take the previous lap for this one. */
  lemma NextLapDiffers(q: int, cap: nat)
    requires cap > 0
    ensures Gen(q, cap) != Gen(q - cap, cap)
  {
    SlotShift(q, cap);
  }

  /** The truncated generations of one slot coincide exactly every 2^32 laps. */
  lemma GenEquality(q: int, p: int, cap: nat)
    requires cap > 0 && Slot(q, cap) == Slot(p, cap)
    ensures Gen(q, cap) == Gen(p, cap) <==> (q / cap - p / cap) % TWO_32 == 0
  {
  }

  /** A slot that never was published holds -1, the generation of the lap before the first. */
  lemma InitialGen(q: int, cap: nat)
    requires 0 <= q < cap
    ensures Gen(q - cap, cap) == -1
  {
    DivModUnique(q - cap, cap, -1, q);
  }
}
