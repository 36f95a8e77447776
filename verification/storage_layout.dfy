/** The layout of a CPU mip pyramid of RGBA8 texels: the chain of level
    extents, the texel offset at which each level starts, and where texel
    `(x, y)` of a level lives in the one buffer that holds every level. */
module StorageLayout {
  import opened MipMath

  type u8 = x: int | 0 <= x < 256

  /** `std::array<uint8_t, 4>`. */
  datatype Texel = Texel(c0: u8, c1: u8, c2: u8, c3: u8)

  /** `texel[c]`, for the four channels. */
  function Channel(t: Texel, c: nat): u8
    requires c < 4
  {
    if c == 0 then t.c0 else if c == 1 then t.c1 else if c == 2 then t.c2 else t.c3
  }

  /** The value-initialised texel `resize` fills the buffer with. */
  const ZeroTexel: Texel := Texel(0, 0, 0, 0)

  /** Width and height of one level. */
  type Dims = (nat, nat)

  function Area(d: Dims): nat
  {
    d.0 * d.1
  }

  /** The number of texels of the levels in `dims`. */
  function SumAreas(dims: seq<Dims>): nat
  {
    if dims == [] then 0 else SumAreas(dims[..|dims| - 1]) + Area(dims[|dims| - 1])
  }

  /** Level `l` of a `w` x `h` base: `max(1, w >> l)` x `max(1, h >> l)`,
      for every level of the full chain. */
  function ChainDims(w: nat, h: nat): (r: seq<Dims>)
    ensures |r| == LevelCount(w, h)
  {
    seq(LevelCount(w, h), l requires 0 <= l => (MipDim(w, l), MipDim(h, l)))
  }

  /** The offset of each level: the number of texels of the levels before
      it. */
  function LevelOffsets(dims: seq<Dims>): (r: seq<nat>)
    ensures |r| == |dims|
  {
    seq(|dims|, l requires 0 <= l < |dims| => SumAreas(dims[..l]))
  }

  /** The chain starts at the base, steps each extent with `x >> 1 | (x ==
      1)`, ends at 1 x 1 and reaches 1 x 1 nowhere earlier, so it has as
      many levels as the dispatcher's bit-length count says. */
  lemma ChainDimsShape(w: nat, h: nat)
    requires w >= 1 && h >= 1
    ensures var dims := ChainDims(w, h);
            && |dims| >= 1 && dims[0] == (w, h) && dims[|dims| - 1] == (1, 1)
            && (forall l :: 0 <= l < |dims| - 1 ==> dims[l] != (1, 1))
            && (forall l :: 0 <= l < |dims| - 1 ==> dims[l + 1] == (NextMipDim(dims[l].0), NextMipDim(dims[l].1)))
    ensures ChainShaped(ChainDims(w, h))
  {
    var dims := ChainDims(w, h);
    var n := |dims|;
    LevelCountIsFullChain(w, h);
    MipDimZero(w);
    MipDimZero(h);
    forall l | 0 <= l < n - 1
      ensures dims[l] != (1, 1)
    {
      MipDimCompose(w, l, n - 2 - l);
      MipDimCompose(h, l, n - 2 - l);
    }
    forall l | 0 <= l < n - 1
      ensures dims[l + 1] == (NextMipDim(dims[l].0), NextMipDim(dims[l].1))
    {
      NextMipDimIsMipDim(w, l);
      NextMipDimIsMipDim(h, l);
    }
  }

  /** Appending a level adds its area. */
  lemma SumAreasAppend(dims: seq<Dims>, d: Dims)
    ensures SumAreas(dims + [d]) == SumAreas(dims) + Area(d)
  {
    assert (dims + [d])[..|dims + [d]| - 1] == dims;
  }

  /** Offsets as the storage keeps them for a buffer of `n` texels: the
      first level at 0, each level starting where the one before it ends,
      and the buffer ending where the last level does. */
  predicate Placed(dims: seq<Dims>, offs: seq<nat>, n: nat)
  {
    && |dims| >= 1 && |offs| == |dims| && offs[0] == 0
    && (forall l :: 0 <= l < |dims| - 1 ==> offs[l + 1] == offs[l] + Area(dims[l]))
    && offs[|dims| - 1] + Area(dims[|dims| - 1]) == n
  }

  lemma {:induction false} PlacedPrefix(dims: seq<Dims>, offs: seq<nat>, n: nat, l: nat)
    requires Placed(dims, offs, n) && l < |dims|
    ensures offs[l] == SumAreas(dims[..l])
    decreases l
  {
    if l > 0 {
      PlacedPrefix(dims, offs, n, l - 1);
      assert dims[..l] == dims[..l - 1] + [dims[l - 1]];
      SumAreasAppend(dims[..l - 1], dims[l - 1]);
    }
  }

  /** The placement is the running total of the areas, and nothing else
      is: offsets and size are placed exactly when the offsets are
      `LevelOffsets` and the size is the sum of all areas. */
  lemma PlacedIsPrefixSums(dims: seq<Dims>, offs: seq<nat>, n: nat)
    requires |dims| >= 1
    ensures Placed(dims, offs, n) <==> offs == LevelOffsets(dims) && n == SumAreas(dims)
  {
    var last := |dims| - 1;
    assert dims == dims[..last] + [dims[last]];
    SumAreasAppend(dims[..last], dims[last]);
    if Placed(dims, offs, n) {
      forall l | 0 <= l < |dims|
        ensures offs[l] == LevelOffsets(dims)[l]
      {
        PlacedPrefix(dims, offs, n, l);
      }
      PlacedPrefix(dims, offs, n, last);
    }
    if offs == LevelOffsets(dims) && n == SumAreas(dims) {
      forall l | 0 <= l < last
        ensures offs[l + 1] == offs[l] + Area(dims[l])
      {
        assert dims[..l + 1] == dims[..l] + [dims[l]];
        SumAreasAppend(dims[..l], dims[l]);
      }
    }
  }

  /** A level ends no later than any later level starts, and inside the
      buffer: distinct levels occupy disjoint ranges. */
  lemma {:induction false} PlacedDisjoint(dims: seq<Dims>, offs: seq<nat>, n: nat, l: nat, m: nat)
    requires Placed(dims, offs, n) && l < m <= |dims|
    ensures offs[l] + Area(dims[l]) <= if m == |dims| then n else offs[m]
    decreases m - l
  {
    if m > l + 1 {
      PlacedDisjoint(dims, offs, n, l + 1, m);
    }
  }

  /** `x + w * y` for a texel inside a `w` x `h` level lies inside the
      level. */
  lemma InLevel(w: nat, h: nat, x: nat, y: nat)
    requires x < w && y < h
    ensures x + w * y < w * h
    ensures w * y + w <= w * h
  {
    assert w * (y + 1) <= w * h by { MulAtMost(w, y + 1, h); }
  }

  lemma MulAtMost(a: nat, b: nat, c: nat)
    requires b <= c
    ensures a * b <= a * c
  {
  }

  /** Two texels of one level at the same position in the level are the
      same texel. */
  lemma InLevelUnique(w: nat, x: nat, y: nat, x': nat, y': nat)
    requires x < w && x' < w && x + w * y == x' + w * y'
    ensures x == x' && y == y'
  {
    DivUnique(x + w * y, w, y, x);
    DivUnique(x' + w * y', w, y', x');
  }

  /** A chain as the storage's constructor builds it: non-zero extents,
      each level the halving of the one before, ending at 1 x 1. */
  predicate ChainShaped(dims: seq<Dims>)
  {
    && |dims| >= 1 && dims[|dims| - 1] == (1, 1)
    && (forall l :: 0 <= l < |dims| ==> dims[l].0 >= 1 && dims[l].1 >= 1)
    && (forall l :: 0 <= l < |dims| - 1 ==> dims[l + 1] == (NextMipDim(dims[l].0), NextMipDim(dims[l].1)))
  }

  /** The layout of a buffer of `n` texels. That every level ends inside
      the buffer follows from the placement (`PlacedDisjoint`) and is
      spelt out so that contracts may index the buffer directly. */
  predicate LayoutOk(dims: seq<Dims>, offs: seq<nat>, n: nat)
  {
    && ChainShaped(dims) && Placed(dims, offs, n)
    && forall l :: 0 <= l < |dims| ==> offs[l] + Area(dims[l]) <= n
  }

  /** A placed chain is a layout. */
  lemma PlacedLayout(dims: seq<Dims>, offs: seq<nat>, n: nat)
    requires ChainShaped(dims) && Placed(dims, offs, n)
    ensures LayoutOk(dims, offs, n)
  {
    forall l | 0 <= l < |dims|
      ensures offs[l] + Area(dims[l]) <= n
    {
      PlacedDisjoint(dims, offs, n, l, |dims|);
    }
  }

  /** Every level lies inside the buffer, has a non-zero extent, and
      follows the level before it, both in extent and in place. */
  lemma LevelInBuffer(dims: seq<Dims>, offs: seq<nat>, n: nat, l: nat)
    requires LayoutOk(dims, offs, n) && l < |dims|
    ensures dims[l].0 >= 1 && dims[l].1 >= 1
    ensures offs[l] + Area(dims[l]) <= n
    ensures l + 1 < |dims| ==> offs[l + 1] == offs[l] + Area(dims[l])
    ensures l >= 1 ==> dims[l] == (NextMipDim(dims[l - 1].0), NextMipDim(dims[l - 1].1))
  {
  }

  /** The chain of a base is the only sequence that starts at the base,
      halves each extent from one level to the next and stops at the first
      1 x 1: the constructor's loop builds `ChainDims`. */
  lemma ChainUnique(w: nat, h: nat, dims: seq<Dims>)
    requires w >= 1 && h >= 1 && |dims| >= 1 && dims[0] == (w, h) && dims[|dims| - 1] == (1, 1)
    requires forall l :: 0 <= l < |dims| - 1 ==> dims[l] != (1, 1)
    requires forall l :: 0 <= l < |dims| - 1 ==> dims[l + 1] == (NextMipDim(dims[l].0), NextMipDim(dims[l].1))
    ensures dims == ChainDims(w, h)
  {
    var chain := ChainDims(w, h);
    ChainDimsShape(w, h);
    forall l | 0 <= l < |dims|
      ensures dims[l] == (MipDim(w, l), MipDim(h, l))
    {
      ChainStep(w, h, dims, l);
    }
    // A shorter or a longer sequence would meet 1 x 1 where the other does not.
    assert |dims| <= |chain| ==> chain[|dims| - 1] == (1, 1);
    assert |chain| <= |dims| ==> dims[|chain| - 1] == (1, 1);
  }

  lemma {:induction false} ChainStep(w: nat, h: nat, dims: seq<Dims>, l: nat)
    requires w >= 1 && h >= 1 && l < |dims| && dims[0] == (w, h)
    requires forall l :: 0 <= l < |dims| - 1 ==> dims[l + 1] == (NextMipDim(dims[l].0), NextMipDim(dims[l].1))
    ensures dims[l] == (MipDim(w, l), MipDim(h, l))
    decreases l
  {
    if l == 0 {
      MipDimZero(w);
      MipDimZero(h);
    } else {
      ChainStep(w, h, dims, l - 1);
      NextMipDimIsMipDim(w, l - 1);
      NextMipDimIsMipDim(h, l - 1);
    }
  }

  /** `offset + w * y + x`: texel `(x, y)` of a `w` x `h` level stored
      in `[y][x]` order from `offset` on; it lies inside the level. */
  function LevelIndex(offset: nat, w: nat, h: nat, x: nat, y: nat): (k: nat)
    requires x < w && y < h
    ensures offset <= k < offset + w * h
  {
    InLevel(w, h, x, y);
    offset + w * y + x
  }

  /** Every texel of level `l` has an address: the addressing covers the
      level. */
  lemma AddressCovers(dims: seq<Dims>, offs: seq<nat>, l: nat, k: nat) returns (x: nat, y: nat)
    requires |offs| == |dims| && l < |dims| && offs[l] <= k < offs[l] + Area(dims[l])
    ensures x < dims[l].0 && y < dims[l].1 && Address(dims, offs, l, x, y) == k
  {
    var w, h := dims[l].0, dims[l].1;
    var j := k - offs[l];
    assert w > 0;
    y, x := j / w, j % w;
    DivBounds(j, w);
    assert y < h by {
      if y >= h {
        MulAtMost(w, h, y);
      }
    }
  }

  /** `m_levelOffsets[l] + dim.x * y + x`: where texel `(x, y)` of level
      `l` lives; it lies inside that level. */
  function Address(dims: seq<Dims>, offs: seq<nat>, l: nat, x: nat, y: nat): (k: nat)
    requires |offs| == |dims| && l < |dims| && x < dims[l].0 && y < dims[l].1
    ensures offs[l] <= k < offs[l] + Area(dims[l])
  {
    LevelIndex(offs[l], dims[l].0, dims[l].1, x, y)
  }

  /** `coord` is a texel of the pyramid whose flat index is `k`. */
  predicate Locates(dims: seq<Dims>, offs: seq<nat>, coord: (nat, nat, nat), k: nat)
    requires |offs| == |dims|
  {
    && coord.2 < |dims| && coord.0 < dims[coord.2].0 && coord.1 < dims[coord.2].1
    && offs[coord.2] + dims[coord.2].0 * coord.1 + coord.0 == k
  }

  /** A texel of a level comes before every texel of a later level. */
  lemma LevelsOrdered(dims: seq<Dims>, offs: seq<nat>, n: nat, c: (nat, nat, nat), k: nat, c': (nat, nat, nat), k': nat)
    requires Placed(dims, offs, n) && Locates(dims, offs, c, k) && Locates(dims, offs, c', k')
    requires c.2 < c'.2
    ensures k < k'
  {
    InLevel(dims[c.2].0, dims[c.2].1, c.0, c.1);
    PlacedDisjoint(dims, offs, n, c.2, c'.2);
  }

  /** A flat index names at most one texel: the addressing is injective. */
  lemma LocatesUnique(dims: seq<Dims>, offs: seq<nat>, n: nat, c: (nat, nat, nat), c': (nat, nat, nat), k: nat)
    requires Placed(dims, offs, n) && Locates(dims, offs, c, k) && Locates(dims, offs, c', k)
    ensures c == c'
  {
    if c.2 < c'.2 {
      LevelsOrdered(dims, offs, n, c, k, c', k);
    } else if c'.2 < c.2 {
      LevelsOrdered(dims, offs, n, c', k, c, k);
    } else {
      InLevelUnique(dims[c.2].0, c.0, c.1, c'.0, c'.1);
    }
  }
}
