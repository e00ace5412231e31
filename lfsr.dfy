/** The 16-bit Galois linear-feedback shift register of avrlib::Random, which
    the Grids port uses as its only source of randomness. */
module Lfsr {
  import opened FixedPoint

  /** Feedback taps applied when a 1 bit is shifted out. */
  const Taps: bv16 := 0xB400

  /** One step: `(s >> 1) ^ (uint16_t(-(s & 1)) & 0xB400)`. The shifted-out bit
      selects whether the taps are applied, and a nonzero state never becomes
      zero. */
  function Next(s: bv16): (n: bv16)
    ensures n == if s & 1 == 1 then (s >> 1) ^ Taps else s >> 1
    ensures s != 0 ==> n != 0
  {
    (s >> 1) ^ ((0 - (s & 1)) & Taps)
  }

  /** The step run backwards: the top bit of the new state tells whether the
      taps were applied (they set bit 15, which a plain shift clears). */
  function Prev(n: bv16): bv16
  {
    if n & 0x8000 != 0 then ((n ^ Taps) << 1) | 1 else n << 1
  }

  /** `Next` is a bijection on 16-bit states: `Prev` undoes it ... */
  lemma PrevNext(s: bv16)
    ensures Prev(Next(s)) == s
  {
  }

  /** ... and `Next` undoes `Prev`, so every state has exactly one predecessor
      and zero is reachable from zero only. */
  lemma NextPrev(n: bv16)
    ensures Next(Prev(n)) == n
  {
    if n & 0x8000 != 0 {
      NextUndoesTapped(n);
    } else {
      NextUndoesShift(n);
    }
  }

  lemma NextUndoesTapped(n: bv16)
    requires n & 0x8000 != 0
    ensures Next(((n ^ Taps) << 1) | 1) == n
  {
  }

  lemma NextUndoesShift(n: bv16)
    requires n & 0x8000 == 0
    ensures Next(n << 1) == n
  {
  }

  /** Two states with the same successor are equal. */
  lemma NextInjective(s: bv16, t: bv16)
    requires Next(s) == Next(t)
    ensures s == t
  {
    PrevNext(s);
    PrevNext(t);
  }

  /** The byte `RandByte` returns: the high byte of the new state
      (`n >> 8` of an unsigned 16-bit value). */
  function HighByte(n: bv16): (b: U8)
    ensures b == (n >> 8) as int
  {
    (n as int) / 256
  }
}
