/** Unsigned 8-bit fixed-point helpers of the Grids port (avrlib's U8Mix and
    U8U8MulShift8). Every intermediate product is 16 bits wide in the source;
    the casts are written out below and the lemmas show they never wrap. */
module FixedPoint {

  /** `uint8_t` */
  type U8 = x: int | 0 <= x < 0x100

  /** `static_cast<uint16_t>`: the low 16 bits */
  function ToU16(v: int): nat { v % 0x1_0000 }

  /** `static_cast<uint8_t>`: the low 8 bits */
  function ToU8(v: int): U8 { v % 0x100 }

  function Max(a: int, b: int): int { if a < b then b else a }
  function Min(a: int, b: int): int { if a < b then a else b }

  /** A product of two bytes fits in 16 bits. */
  lemma ByteProductBound(a: U8, b: U8)
    ensures 0 <= a * b <= 255 * b <= 255 * 255
  {
    MulMono(a, 255, b);
  }

  /** Multiplication by a non-negative factor is monotone. */
  lemma MulMono(x: int, y: int, k: nat)
    requires x <= y
    ensures x * k <= y * k
  {
    assert y * k - x * k == (y - x) * k;
  }

  /** floor(v * k / 256) is below v whenever 0 < v and k <= 255. */
  lemma ScaledBelow(v: nat, k: nat)
    requires k <= 255
    ensures (v * k) / 256 <= v
    ensures v > 0 ==> (v * k) / 256 < v
  {
    MulMono(k, 255, v);
    assert v * k <= v * 255;
  }

  /** The top byte of the 16-bit product: `(a * b) >> 8`. It never exceeds
      either factor, and is strictly smaller than a nonzero `b`. */
  function U8U8MulShift8(a: U8, b: U8): (r: U8)
    ensures r <= a && r <= b
    ensures b > 0 ==> r < b
    ensures r * 256 <= a * b < (r + 1) * 256
  {
    MulShiftFacts(a, b);
    ToU8(ToU16(a * b) / 256)
  }

  /** The facts behind `U8U8MulShift8`: the product fits in 16 bits, and its
      high byte is bounded by both factors. */
  lemma MulShiftFacts(a: U8, b: U8)
    ensures ToU16(a * b) == a * b
    ensures var q := (a * b) / 256;
            ToU8(q) == q && q <= a && q <= b && (b > 0 ==> q < b) &&
            q * 256 <= a * b < (q + 1) * 256
  {
    var p := a * b;
    ByteProductBound(a, b);
    ScaledBelow(b, a);
    ScaledBelow(a, b);
    assert p == b * a;
    var q := p / 256;
    assert q * 256 <= p < (q + 1) * 256;
  }

  /** The 16-bit crossfade sum `a * (255 - balance) + b * balance`. */
  function MixSum(a: U8, b: U8, balance: U8): int
  {
    a * (255 - balance) + b * balance
  }

  /** The crossfade sum lies between 255 times the smaller and 255 times the
      larger endpoint, so it never reaches 2^16. */
  lemma MixSumBounds(a: U8, b: U8, balance: U8)
    ensures 255 * Min(a, b) <= MixSum(a, b, balance) <= 255 * Max(a, b)
    ensures MixSum(a, b, balance) < 0x1_0000
  {
    var lo, hi := Min(a, b), Max(a, b);
    MulMono(lo, a, 255 - balance);
    MulMono(a, hi, 255 - balance);
    MulMono(lo, b, balance);
    MulMono(b, hi, balance);
    assert lo * (255 - balance) + lo * balance == 255 * lo;
    assert hi * (255 - balance) + hi * balance == 255 * hi;
    MulMono(hi, 255, 255);
  }

  /** Linear 8-bit crossfade from `a` (balance 0) towards `b` (balance 255),
      truncated. The result stays within [min(a, b) - 1, max(a, b)], is
      strictly below a nonzero max, and at either end it is the endpoint minus
      one (floored at 0) rather than the endpoint itself. */
  function U8Mix(a: U8, b: U8, balance: U8): (r: U8)
    ensures r <= Max(a, b)
    ensures Max(a, b) > 0 ==> r < Max(a, b)
    ensures Min(a, b) <= r + 1
    ensures balance == 0 ==> r == Max(a - 1, 0)
    ensures balance == 255 ==> r == Max(b - 1, 0)
  {
    var inv := ToU16(255 - balance);
    var sum := ToU16(a * inv + b * balance);
    MixCastsExact(a, b, balance);
    MixQuotient(a, b, balance);
    ToU8(sum / 256)
  }

  /** Neither `uint16_t` cast of the crossfade, nor the final `uint8_t` cast
      of its high byte, changes a value. */
  lemma MixCastsExact(a: U8, b: U8, balance: U8)
    ensures ToU16(a * ToU16(255 - balance) + b * balance) == MixSum(a, b, balance)
    ensures ToU8(MixSum(a, b, balance) / 256) == MixSum(a, b, balance) / 256
  {
    assert ToU16(255 - balance) == 255 - balance;
    var s := MixSum(a, b, balance);
    assert a * ToU16(255 - balance) + b * balance == s;
    MixSumBounds(a, b, balance);
    assert s / 256 < 256;
  }

  /** What truncating the crossfade sum to its high byte keeps. */
  lemma MixQuotient(a: U8, b: U8, balance: U8)
    ensures MixSum(a, b, balance) / 256 <= Max(a, b)
    ensures Max(a, b) > 0 ==> MixSum(a, b, balance) / 256 < Max(a, b)
    ensures Min(a, b) <= MixSum(a, b, balance) / 256 + 1
    ensures balance == 0 ==> MixSum(a, b, balance) / 256 == Max(a - 1, 0)
    ensures balance == 255 ==> MixSum(a, b, balance) / 256 == Max(b - 1, 0)
  {
    var sum := MixSum(a, b, balance);
    MixSumBounds(a, b, balance);
    ScaledBelow(Max(a, b), 255);
    assert sum / 256 <= (255 * Max(a, b)) / 256;
    EndpointScaled(Min(a, b));
    assert (255 * Min(a, b)) / 256 <= sum / 256;
    if balance == 0 {
      assert sum == a * 255;
      EndpointScaled(a);
    }
    if balance == 255 {
      assert sum == b * 255;
      EndpointScaled(b);
    }
  }

  /** floor(v * 255 / 256) is v - 1 for a nonzero byte, and 0 for 0. */
  lemma EndpointScaled(v: U8)
    ensures (v * 255) / 256 == Max(v - 1, 0)
  {
    if v > 0 {
      assert v * 255 == (v - 1) * 256 + (256 - v);
    }
  }

  /** The low byte of `c << 2`: the six low bits of `c`, scaled to 0..252. */
  function ShiftLeft2(c: U8): (w: U8)
    ensures w == (c % 64) * 4
  {
    var q, low := c / 64, c % 64;
    assert c * 4 == 256 * q + low * 4;
    ToU8(c * 4)
  }
}
