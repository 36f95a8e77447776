/** Unsigned 32-bit arithmetic and the arithmetic of a mip chain, shared by
    every other module.

    A right shift by `k` is `Shr(x, k)`, `k` halvings rounding down; the
    sums and products that `uint32_t` code computes wrap explicitly through
    `Wrap`. */
module MipMath {

  const LIMIT: int := 0x1_0000_0000

  /** The values of a `uint32_t`. */
  type u32 = x: int | 0 <= x < LIMIT

  /** `uint32_t` arithmetic keeps the value modulo 2^32. */
  function Wrap(x: int): (r: u32)
    ensures 0 <= x < LIMIT ==> r == x
    ensures LIMIT <= x < 2 * LIMIT ==> r == x - LIMIT
    ensures -LIMIT <= x < 0 ==> r == x + LIMIT
  {
    x % LIMIT
  }

  function Max(a: int, b: int): int
  {
    if a < b then b else a
  }

  function Min(a: int, b: int): int
  {
    if a < b then a else b
  }

  /** `x >> k`: `k` halvings, each rounding down. */
  function Shr(x: nat, k: nat): (r: nat)
    ensures r <= x
    ensures k >= 1 ==> r <= x / 2
  {
    if k == 0 then x else Shr(x / 2, k - 1)
  }

  /** The `v ? v : 1u` clamp used after every shift of an image extent. */
  function AtLeastOne(v: nat): nat
  {
    if v == 0 then 1 else v
  }

  /** The extent of mip level `level` of an image whose base extent is
      `base`: `max(1, base >> level)`. */
  function MipDim(base: nat, level: nat): (r: nat)
    ensures r >= 1
    ensures base >= 1 ==> r <= base
    ensures base < LIMIT ==> r < LIMIT
  {
    AtLeastOne(Shr(base, level))
  }

  /** The halving step `w >> 1 | (w == 1)` of the CPU mip chain. */
  function NextMipDim(w: nat): (r: nat)
    ensures w >= 1 ==> 1 <= r <= w
    ensures w >= 2 ==> r < w
  {
    if w == 1 then 1 else w / 2
  }

  /** `x` is a multiple of 2^n: it can be halved `n` times without a
      remainder. */
  predicate EvenTimes(x: nat, n: nat)
  {
    n == 0 || (x % 2 == 0 && EvenTimes(x / 2, n - 1))
  }

  /** Number of times a `while (w) w >>= 1` loop runs. */
  function BitLength(n: nat): nat
  {
    if n == 0 then 0 else 1 + BitLength(n / 2)
  }

  /** Number of levels of a full mip chain of a `w` x `h` image, as counted by
      the loop of `nvproCmdPyramidDispatch` and of the scoped image helper. */
  function LevelCount(w: nat, h: nat): nat
  {
    BitLength(Max(w, h))
  }

  /** Number of workgroups `(items + perGroup - 1) / perGroup` computed in
      `uint32_t`; it is the least count that covers every item unless the sum
      overflows. */
  function Groups(items: u32, perGroup: nat): (r: u32)
    requires 0 < perGroup <= LIMIT
    ensures items + perGroup - 1 < LIMIT ==> r * perGroup >= items
    ensures items + perGroup - 1 < LIMIT && r > 0 ==> (r - 1) * perGroup < items
  {
    DivBounds(items + perGroup - 1, perGroup);
    Wrap(items + perGroup - 1) / perGroup
  }

  lemma DivBounds(a: nat, d: nat)
    requires d > 0
    ensures d * (a / d) <= a < d * (a / d) + d
  {
  }

  lemma DivUnique(x: int, d: int, q: int, r: int)
    requires d > 0 && 0 <= r < d && x == d * q + r
    ensures x / d == q && x % d == r
  {
    var q0, r0 := x / d, x % d;
    assert d * (q - q0) == r0 - r;
    if q > q0 {
      MulAtLeast(d, q - q0);
    } else if q < q0 {
      MulAtLeast(d, q0 - q);
    }
  }

  lemma MulAtLeast(d: nat, k: int)
    requires k >= 1
    ensures d * k >= d
  {
    assert d * k == d + d * (k - 1);
  }

  /** Shifting right by `a` then by `b` is shifting right by `a + b`. */
  lemma {:induction false} ShrShr(x: nat, a: nat, b: nat)
    ensures Shr(Shr(x, a), b) == Shr(x, a + b)
    decreases a
  {
    if a > 0 {
      ShrShr(x / 2, a - 1, b);
    }
  }

  lemma {:induction false} ShrSmall(x: nat, k: nat)
    requires x <= 1 && k >= 1
    ensures Shr(x, k) == 0
  {
    if k > 1 {
      ShrSmall(0, k - 1);
    }
  }

  lemma {:induction false} ShrMono(a: nat, b: nat, k: nat)
    requires a <= b
    ensures Shr(a, k) <= Shr(b, k)
  {
    if k > 0 {
      ShrMono(a / 2, b / 2, k - 1);
    }
  }

  /** Clamping after each of two shifts gives the same extent as clamping
      once after the combined shift: the mip chain can be walked in steps of
      any size. */
  lemma MipDimCompose(base: nat, a: nat, b: nat)
    ensures MipDim(MipDim(base, a), b) == MipDim(base, a + b)
  {
    ShrShr(base, a, b);
    if Shr(base, a) == 0 && b >= 1 {
      ShrSmall(0, b);
      ShrSmall(1, b);
    }
  }

  lemma MipDimZero(base: nat)
    requires base >= 1
    ensures MipDim(base, 0) == base
  {
  }

  /** The CPU chain's halving step agrees with the GPU scheduler's clamped
      shift: level `l + 1` is `NextMipDim` of level `l`. */
  lemma NextMipDimIsMipDim(base: nat, level: nat)
    ensures NextMipDim(MipDim(base, level)) == MipDim(base, level + 1)
  {
    MipDimCompose(base, level, 1);
    assert Shr(MipDim(base, level), 1) == MipDim(base, level) / 2;
  }

  /** Shifting right by one less than the bit length leaves the top bit. */
  lemma {:induction false} BitLengthTop(n: nat)
    requires n >= 1
    ensures BitLength(n) >= 1 && Shr(n, BitLength(n) - 1) == 1
  {
    if n >= 2 {
      BitLengthTop(n / 2);
    }
  }

  lemma {:induction false} BitLengthMono(a: nat, b: nat)
    requires a <= b
    ensures BitLength(a) <= BitLength(b)
  {
    if a > 0 {
      BitLengthMono(a / 2, b / 2);
    }
  }

  lemma {:induction false} BitLengthAtMost(n: nat)
    ensures BitLength(n) <= n
  {
    if n > 0 {
      BitLengthAtMost(n / 2);
    }
  }

  /** The level count of a `uint32_t` extent is itself a `uint32_t`. */
  lemma LevelCountBound(w: u32, h: u32)
    ensures LevelCount(w, h) < LIMIT
  {
    BitLengthAtMost(Max(w, h));
  }

  lemma LevelCountPositive(w: nat, h: nat)
    ensures w >= 1 || h >= 1 ==> LevelCount(w, h) >= 1
  {
    if w >= 1 || h >= 1 {
      BitLengthTop(Max(w, h));
    }
  }

  /** A full chain ends at 1 x 1 and is no longer than needed: its last level
      is 1 x 1 and the one before it is not. */
  lemma LevelCountIsFullChain(w: nat, h: nat)
    requires w >= 1 || h >= 1
    ensures LevelCount(w, h) >= 1
    ensures MipDim(w, LevelCount(w, h) - 1) == 1 && MipDim(h, LevelCount(w, h) - 1) == 1
    ensures LevelCount(w, h) >= 2 ==>
              MipDim(w, LevelCount(w, h) - 2) >= 2 || MipDim(h, LevelCount(w, h) - 2) >= 2
  {
    var m, n := Max(w, h), LevelCount(w, h);
    BitLengthTop(m);
    assert MipDim(w, n - 1) == 1 by { ShrMono(w, m, n - 1); }
    assert MipDim(h, n - 1) == 1 by { ShrMono(h, m, n - 1); }
    if n >= 2 {
      assert Shr(m, n - 2) >= 2 by { ShrShr(m, n - 2, 1); }
    }
  }
}
