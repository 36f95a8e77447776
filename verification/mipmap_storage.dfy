/** `MipmapStorage<uint8_t, 4>`: the CPU-side mip pyramid the demo uses to
    check the GPU's output. All levels live in one buffer, each packed in
    `[y][x]` order at its own offset; the class builds that layout, answers
    addresses and sizes, compares two pyramids, and fills levels 1 and up
    from level 0 with a reference reduction. */
module MipmapStore {
  import opened MipMath
  import opened Optional
  import opened StorageLayout
  import opened TexelCompare
  import opened ReductionTaps
  import opened ReductionKernel

  /** The texel `generateLevel` writes for texel `(x, y)` of level `l`: the
      caller's conversion (linearise, weigh, convert back) applied to the
      kernel read out of level `l - 1` of `d`. */
  function Filtered(d: seq<Texel>, dims: seq<Dims>, offs: seq<nat>, l: nat, x: nat, y: nat,
                    filter: seq<Tap> -> Texel): Texel
    requires LayoutOk(dims, offs, |d|) && 1 <= l < |dims| && x < dims[l].0 && y < dims[l].1
  {
    var w, h := dims[l - 1].0, dims[l - 1].1;
    LevelInBuffer(dims, offs, |d|, l);
    filter(Kernel(d[offs[l - 1] .. offs[l - 1] + w * h], 0, w, h, x, y))
  }

  /** Every texel of level `l` of `d` is the filtered kernel of its
      footprint in level `l - 1` of `d`. */
  predicate LevelFiltered(d: seq<Texel>, dims: seq<Dims>, offs: seq<nat>, l: nat, filter: seq<Tap> -> Texel)
    requires LayoutOk(dims, offs, |d|) && 1 <= l < |dims|
  {
    forall x: nat, y: nat | x < dims[l].0 && y < dims[l].1 ::
      d[Address(dims, offs, l, x, y)] == Filtered(d, dims, offs, l, x, y, filter)
  }

  /** `Filtered` reads only the source level. */
  lemma FilteredReadsSource(d: seq<Texel>, d': seq<Texel>, dims: seq<Dims>, offs: seq<nat>, l: nat, x: nat, y: nat,
                            filter: seq<Tap> -> Texel)
    requires LayoutOk(dims, offs, |d|) && |d'| == |d| && 1 <= l < |dims| && x < dims[l].0 && y < dims[l].1
    requires SameRange(d, d', offs[l - 1], offs[l])
    ensures Filtered(d, dims, offs, l, x, y, filter) == Filtered(d', dims, offs, l, x, y, filter)
  {
    assert d[offs[l - 1] .. offs[l]] == d'[offs[l - 1] .. offs[l]];
  }

  /** Whether level `l` is filtered depends only on levels `l - 1` and
      `l`, which end where level `l` does. */
  lemma LevelFilteredFrame(d: seq<Texel>, d': seq<Texel>, dims: seq<Dims>, offs: seq<nat>, l: nat, end: nat,
                           filter: seq<Tap> -> Texel)
    requires LayoutOk(dims, offs, |d|) && |d'| == |d| && 1 <= l < |dims|
    requires offs[l] + Area(dims[l]) <= end && SameRange(d, d', 0, end)
    requires LevelFiltered(d, dims, offs, l, filter)
    ensures LevelFiltered(d', dims, offs, l, filter)
  {
    forall x: nat, y: nat | x < dims[l].0 && y < dims[l].1
      ensures d'[Address(dims, offs, l, x, y)] == Filtered(d', dims, offs, l, x, y, filter)
    {
      FilteredReadsSource(d, d', dims, offs, l, x, y, filter);
    }
  }

  /** Levels 1 to `level - 1` stay filtered while nothing from the start
      of `level` on changes. */
  lemma LevelsFilteredFrame(d: seq<Texel>, d': seq<Texel>, dims: seq<Dims>, offs: seq<nat>, level: nat,
                            filter: seq<Tap> -> Texel)
    requires LayoutOk(dims, offs, |d|) && |d'| == |d| && 1 <= level < |dims|
    requires SameRange(d, d', 0, offs[level])
    requires forall l | 1 <= l < level :: LevelFiltered(d, dims, offs, l, filter)
    ensures forall l | 1 <= l < level :: LevelFiltered(d', dims, offs, l, filter)
  {
    forall l | 1 <= l < level
      ensures LevelFiltered(d', dims, offs, l, filter)
    {
      PlacedDisjoint(dims, offs, |d|, l, level);
      LevelFilteredFrame(d, d', dims, offs, l, offs[level], filter);
    }
  }

  /** A level whose texels are the filtered kernels of `src` is filtered
      when `src` is what the level above holds. */
  lemma LevelFilledFromSource(d: seq<Texel>, dims: seq<Dims>, offs: seq<nat>, level: nat, src: seq<Texel>,
                              filter: seq<Tap> -> Texel)
    requires LayoutOk(dims, offs, |d|) && 1 <= level < |dims|
    requires offs[level - 1] + dims[level - 1].0 * dims[level - 1].1 <= |d|
    requires src == d[offs[level - 1] .. offs[level - 1] + dims[level - 1].0 * dims[level - 1].1]
    requires forall x: nat, y: nat | x < dims[level].0 && y < dims[level].1 ::
               d[LevelIndex(offs[level], dims[level].0, dims[level].1, x, y)]
               == (if x < NextMipDim(dims[level - 1].0) && y < NextMipDim(dims[level - 1].1)
                   then filter(Kernel(src, 0, dims[level - 1].0, dims[level - 1].1, x, y)) else ZeroTexel)
    ensures LevelFiltered(d, dims, offs, level, filter)
  {
    LevelInBuffer(dims, offs, |d|, level);
  }

  /** Two buffers whose level `l` is filtered and that agree on level
      `l - 1` agree on level `l`. */
  lemma LevelDetermined(d: seq<Texel>, d': seq<Texel>, dims: seq<Dims>, offs: seq<nat>, l: nat,
                        filter: seq<Tap> -> Texel)
    requires LayoutOk(dims, offs, |d|) && |d'| == |d| && 1 <= l < |dims|
    requires SameRange(d, d', offs[l - 1], offs[l])
    requires LevelFiltered(d, dims, offs, l, filter) && LevelFiltered(d', dims, offs, l, filter)
    ensures SameRange(d, d', offs[l], offs[l] + Area(dims[l]))
  {
    forall k | offs[l] <= k < offs[l] + Area(dims[l])
      ensures d[k] == d'[k]
    {
      var x, y := AddressCovers(dims, offs, l, k);
      FilteredReadsSource(d, d', dims, offs, l, x, y, filter);
    }
  }

  lemma {:induction false} PrefixDetermined(d: seq<Texel>, d': seq<Texel>, dims: seq<Dims>, offs: seq<nat>, level: nat,
                                            filter: seq<Tap> -> Texel)
    requires LayoutOk(dims, offs, |d|) && |d'| == |d| && level < |dims|
    requires SameRange(d, d', 0, Area(dims[0]))
    requires forall l | 1 <= l < |dims| :: LevelFiltered(d, dims, offs, l, filter) && LevelFiltered(d', dims, offs, l, filter)
    ensures SameRange(d, d', 0, offs[level] + Area(dims[level]))
    decreases level
  {
    if level > 0 {
      PrefixDetermined(d, d', dims, offs, level - 1, filter);
      LevelDetermined(d, d', dims, offs, level, filter);
    }
  }

  /** A pyramid whose levels 1 and up are all filtered is determined by
      its base: two such buffers with the same base are the same buffer.
      So `GenerateMipmaps` computes the one such pyramid of its base, and
      running it again changes nothing. */
  lemma PyramidDetermined(d: seq<Texel>, d': seq<Texel>, dims: seq<Dims>, offs: seq<nat>, filter: seq<Tap> -> Texel)
    requires LayoutOk(dims, offs, |d|) && |d'| == |d|
    requires SameRange(d, d', 0, Area(dims[0]))
    requires forall l | 1 <= l < |dims| :: LevelFiltered(d, dims, offs, l, filter) && LevelFiltered(d', dims, offs, l, filter)
    ensures d == d'
  {
    PrefixDetermined(d, d', dims, offs, |dims| - 1, filter);
  }

  /** Comparing `b` with `a` reports what comparing `a` with `b` does:
      the same difference, channel and coordinate. */
  lemma CompareSymmetric(a: seq<Texel>, b: seq<Texel>, dims: seq<Dims>, offs: seq<nat>,
                         c: (nat, nat, nat), c': (nat, nat, nat))
    requires LayoutOk(dims, offs, |a|) && |b| == |a|
    requires Locates(dims, offs, c, Scan(a, b, Area(dims[0]), |a|).texel)
    requires Locates(dims, offs, c', Scan(b, a, Area(dims[0]), |a|).texel)
    ensures Scan(a, b, Area(dims[0]), |a|).delta == Scan(b, a, Area(dims[0]), |a|).delta
    ensures Scan(a, b, Area(dims[0]), |a|).channel == Scan(b, a, Area(dims[0]), |a|).channel
    ensures c == c'
  {
    ScanSymmetric(a, b, Area(dims[0]), |a|);
    LocatesUnique(dims, offs, |a|, c, c', Scan(a, b, Area(dims[0]), |a|).texel);
  }

  /** The worst difference found so far and the coordinate the loops
      recorded with it. */
  predicate Tracks(dims: seq<Dims>, offs: seq<nat>, acc: Worst, coord: (nat, nat, nat))
    requires |offs| == |dims|
  {
    Locates(dims, offs, coord, acc.texel) && (acc.delta == 0 ==> coord == (0, 0, 0))
  }

  /** The channel loop of `compare` for texel `k`, which is texel `(x, y)`
      of `level`. */
  method CompareTexel(a: seq<Texel>, b: seq<Texel>, dims: seq<Dims>, offs: seq<nat>, lo: nat, k: nat,
                      x: nat, y: nat, level: nat, acc: Worst, coord: (nat, nat, nat))
    returns (acc': Worst, coord': (nat, nat, nat))
    requires |offs| == |dims| && lo <= k < |a| <= |b|
    requires acc == Scan(a, b, lo, k) && Tracks(dims, offs, acc, coord)
    requires Locates(dims, offs, (x, y, level), k)
    ensures acc' == Scan(a, b, lo, k + 1) && Tracks(dims, offs, acc', coord')
  {
    acc', coord' := acc, coord;
    var c := 0;
    while c < 4
      invariant c <= 4
      invariant acc' == ScanChannels(acc, a, b, k, c) && Tracks(dims, offs, acc', coord')
    {
      var delta := Delta(Channel(a[k], c), Channel(b[k], c));
      if delta > acc'.delta {
        acc' := Worst(delta, k, c);
        coord' := (x, y, level);
      }
      c := c + 1;
    }
  }

  /** The `x` loop of `compare` over row `y` of `level`, which starts at
      texel `rowStart`. */
  method CompareRow(a: seq<Texel>, b: seq<Texel>, dims: seq<Dims>, offs: seq<nat>, lo: nat, level: nat, y: nat,
                    rowStart: nat, acc: Worst, coord: (nat, nat, nat))
    returns (acc': Worst, coord': (nat, nat, nat))
    requires |offs| == |dims| && level < |dims| && y < dims[level].1 && |a| <= |b|
    requires rowStart == offs[level] + dims[level].0 * y && rowStart + dims[level].0 <= |a|
    requires lo <= rowStart && acc == Scan(a, b, lo, rowStart) && Tracks(dims, offs, acc, coord)
    ensures acc' == Scan(a, b, lo, rowStart + dims[level].0) && Tracks(dims, offs, acc', coord')
  {
    acc', coord' := acc, coord;
    var x := 0;
    while x < dims[level].0
      invariant x <= dims[level].0
      invariant acc' == Scan(a, b, lo, rowStart + x) && Tracks(dims, offs, acc', coord')
    {
      acc', coord' := CompareTexel(a, b, dims, offs, lo, rowStart + x, x, y, level, acc', coord');
      x := x + 1;
    }
  }

  /** The `y` loop of `compare` over `level`. */
  method CompareLevel(a: seq<Texel>, b: seq<Texel>, dims: seq<Dims>, offs: seq<nat>, lo: nat, level: nat,
                      acc: Worst, coord: (nat, nat, nat))
    returns (acc': Worst, coord': (nat, nat, nat))
    requires |offs| == |dims| && level < |dims| && dims[level].0 >= 1 && |a| <= |b|
    requires lo <= offs[level] && offs[level] + Area(dims[level]) <= |a|
    requires acc == Scan(a, b, lo, offs[level]) && Tracks(dims, offs, acc, coord)
    ensures acc' == Scan(a, b, lo, offs[level] + Area(dims[level])) && Tracks(dims, offs, acc', coord')
  {
    var w, h := dims[level].0, dims[level].1;
    acc', coord' := acc, coord;
    var y, rowStart := 0, offs[level];
    while y < h
      invariant y <= h && rowStart == offs[level] + w * y
      invariant acc' == Scan(a, b, lo, rowStart) && Tracks(dims, offs, acc', coord')
    {
      assert rowStart + w <= offs[level] + Area(dims[level]) by { InLevel(w, h, 0, y); }
      acc', coord' := CompareRow(a, b, dims, offs, lo, level, y, rowStart, acc', coord');
      assert rowStart + w == offs[level] + w * (y + 1) by { MulAddLeft(w, y, 1); }
      y, rowStart := y + 1, rowStart + w;
    }
  }

  /** The loop of the storage's constructor: halve each extent with
      `x >> 1 | (x == 1u)` until the level is 1 x 1, recording each level's
      extent and offset. It builds the full chain of the base, placed as
      the running total of the areas; the buffer then holds
      `lastOffset + 1` texels. */
  method BuildLayout(width: nat, height: nat) returns (dims: seq<Dims>, offs: seq<nat>, lastOffset: nat)
    requires width >= 1 && height >= 1
    ensures dims == ChainDims(width, height) && LayoutOk(dims, offs, lastOffset + 1)
    ensures offs == LevelOffsets(dims) && lastOffset + 1 == SumAreas(dims)
  {
    var w, h := width, height;
    lastOffset := 0;
    dims, offs := [(w, h)], [0];
    while w != 1 || h != 1
      invariant |dims| >= 1 && |offs| == |dims| && dims[0] == (width, height) && offs[0] == 0
      invariant w >= 1 && h >= 1 && (w, h) == dims[|dims| - 1] && lastOffset == offs[|dims| - 1]
      invariant forall l :: 0 <= l < |dims| - 1 ==> dims[l] != (1, 1)
      invariant forall l :: 0 <= l < |dims| - 1 ==> dims[l + 1] == (NextMipDim(dims[l].0), NextMipDim(dims[l].1))
      invariant forall l :: 0 <= l < |dims| - 1 ==> offs[l + 1] == offs[l] + Area(dims[l])
      decreases w + h
    {
      lastOffset := lastOffset + Area((w, h));
      // `x >> 1 | (x == 1u)`: the shifted value is 0 exactly when x is 1.
      w := w / 2 + (if w == 1 then 1 else 0);
      h := h / 2 + (if h == 1 then 1 else 0);
      dims := dims + [(w, h)];
      offs := offs + [lastOffset];
    }
    BuiltLayout(width, height, dims, offs, lastOffset + 1);
  }

  /** What the constructor's loop leaves behind is the full chain of the
      base, placed as the running total of the areas. */
  lemma BuiltLayout(width: nat, height: nat, dims: seq<Dims>, offs: seq<nat>, size: nat)
    requires width >= 1 && height >= 1 && |dims| >= 1 && |offs| == |dims|
    requires dims[0] == (width, height) && dims[|dims| - 1] == (1, 1) && offs[0] == 0
    requires offs[|dims| - 1] + 1 == size
    requires forall l :: 0 <= l < |dims| - 1 ==> dims[l] != (1, 1)
    requires forall l :: 0 <= l < |dims| - 1 ==> dims[l + 1] == (NextMipDim(dims[l].0), NextMipDim(dims[l].1))
    requires forall l :: 0 <= l < |dims| - 1 ==> offs[l + 1] == offs[l] + Area(dims[l])
    ensures dims == ChainDims(width, height) && LayoutOk(dims, offs, size)
    ensures offs == LevelOffsets(dims) && size == SumAreas(dims)
  {
    ChainUnique(width, height, dims);
    ChainDimsShape(width, height);
    PlacedIsPrefixSums(dims, offs, size);
    PlacedLayout(dims, offs, size);
  }

  /** The `x` loop of `generateLevel` over row `y` of a `w`-texel-wide
      destination level: texel `x` of the row, which starts at `rowStart`,
      becomes `texel(x, y)`. */
  method FillRow(data: array<Texel>, rowStart: nat, w: nat, y: nat, texel: (nat, nat) -> Texel)
    requires rowStart + w <= data.Length
    modifies data
    ensures forall x: nat | x < w :: data[rowStart + x] == texel(x, y)
    ensures forall k | 0 <= k < data.Length && !(rowStart <= k < rowStart + w) :: data[k] == old(data[k])
  {
    var x := 0;
    while x < w
      invariant x <= w
      invariant forall x': nat | x' < x :: data[rowStart + x'] == texel(x', y)
      invariant forall k | 0 <= k < data.Length && !(rowStart <= k < rowStart + x) :: data[k] == old(data[k])
    {
      data[rowStart + x] := texel(x, y);
      x := x + 1;
    }
  }

  /** The `y` loop of `generateLevel`: texel `(x, y)` of the `w` x `h`
      level stored from `dstOff` on becomes `texel(x, y)`; nothing outside
      the level changes. */
  method FillLevel(data: array<Texel>, dstOff: nat, w: nat, h: nat, texel: (nat, nat) -> Texel)
    requires dstOff + w * h <= data.Length
    modifies data
    ensures forall x: nat, y: nat | x < w && y < h :: data[LevelIndex(dstOff, w, h, x, y)] == texel(x, y)
    ensures forall k | 0 <= k < data.Length && !(dstOff <= k < dstOff + w * h) :: data[k] == old(data[k])
  {
    var y, rowStart := 0, dstOff;
    while y < h
      invariant y <= h && rowStart == dstOff + w * y
      invariant forall x: nat, y': nat | x < w && y' < y :: data[LevelIndex(dstOff, w, h, x, y')] == texel(x, y')
      invariant forall k | 0 <= k < data.Length && !(dstOff <= k < rowStart) :: data[k] == old(data[k])
    {
      MulAtMost(w, y + 1, h);
      MulAddLeft(w, y, 1);
      ghost var before := data[..];
      FillRow(data, rowStart, w, y, texel);
      forall x: nat, y': nat | x < w && y' <= y
        ensures data[LevelIndex(dstOff, w, h, x, y')] == texel(x, y')
      {
        if y' < y {
          InLevel(w, y, x, y');
          assert data[LevelIndex(dstOff, w, h, x, y')] == before[LevelIndex(dstOff, w, h, x, y')];
        } else {
          assert LevelIndex(dstOff, w, h, x, y') == rowStart + x;
        }
      }
      y, rowStart := y + 1, rowStart + w;
    }
  }

  class MipmapStorage {
    var widthHeight: seq<Dims>
    var levelOffsets: seq<nat>
    var data: array<Texel>

    /** The layout the constructor builds. */
    predicate Valid()
      reads this
    {
      LayoutOk(widthHeight, levelOffsets, data.Length)
    }

    /** Builds the full chain of a `width` x `height` base, the offsets of
        its levels, and a zero-filled buffer of `offsets.back() + 1`
        texels. The base extent must not be zero. */
    constructor (width: u32, height: u32)
      requires width != 0 && height != 0
      ensures Valid() && widthHeight == ChainDims(width, height)
      ensures levelOffsets == LevelOffsets(widthHeight) && data.Length == SumAreas(widthHeight)
      ensures forall k :: 0 <= k < data.Length ==> data[k] == ZeroTexel
      ensures fresh(data)
    {
      var dims, offs, lastOffset := BuildLayout(width, height);
      widthHeight := dims;
      levelOffsets := offs;
      data := new Texel[lastOffset + 1](_ => ZeroTexel);
    }

    /** `operator[]`: the buffer index of texel `(x, y)` of `level`, or
        `None` where the source's asserts fail. */
    function TexelIndex(x: nat, y: nat, level: nat): (r: Option<nat>)
      reads this
      requires Valid()
      ensures r.Some? <==> level < |widthHeight| && x < widthHeight[level].0 && y < widthHeight[level].1
      ensures r.Some? ==> r.value < data.Length && Locates(widthHeight, levelOffsets, (x, y, level), r.value)
    {
      if level < |widthHeight| && x < widthHeight[level].0 && y < widthHeight[level].1 then
        LevelInBuffer(widthHeight, levelOffsets, data.Length, level);
        Some(Address(widthHeight, levelOffsets, level, x, y))
      else None
    }

    /** `levelData`: the index of the first texel of `level`, or `None`
        where the source's assert fails. */
    function LevelStart(level: nat): (r: Option<nat>)
      reads this
      requires Valid()
      ensures r.Some? <==> level < |levelOffsets|
      ensures r.Some? ==> r.value == SumAreas(widthHeight[..level]) && r.value + Area(widthHeight[level]) <= data.Length
    {
      if level < |levelOffsets| then
        LevelInBuffer(widthHeight, levelOffsets, data.Length, level);
        PlacedPrefix(widthHeight, levelOffsets, data.Length, level);
        Some(levelOffsets[level])
      else None
    }

    /** `getLevelByteSize`: four bytes per texel of `level`, which is the
        distance to the next level's data, or 4 for the last, 1 x 1,
        level. */
    function LevelByteSize(level: nat): (r: Option<nat>)
      reads this
      requires Valid()
      ensures r.Some? <==> level < |widthHeight|
      ensures r.Some? && level + 1 < |widthHeight| ==> 4 * levelOffsets[level] + r.value == 4 * levelOffsets[level + 1]
      ensures r.Some? && level + 1 == |widthHeight| ==> r.value == 4
    {
      if level < |widthHeight| then
        LevelInBuffer(widthHeight, levelOffsets, data.Length, level);
        Some(4 * Area(widthHeight[level]))
      else None
    }

    /** `getByteSize`: four bytes per texel of every level. */
    function ByteSize(): (r: nat)
      reads this
      requires Valid()
      ensures r == 4 * SumAreas(widthHeight)
    {
      PlacedIsPrefixSums(widthHeight, levelOffsets, data.Length);
      4 * data.Length
    }

    /** `compare(pBuffer, ...)`: the largest channel difference between
        this pyramid and `other`, read in the same layout, over every level
        but the base, with the first texel and channel holding it, or 0 at
        (0, 0, 0), channel 0, when they agree. */
    method CompareBuffer(other: seq<Texel>) returns (worstDelta: u8, worstCoordinate: (nat, nat, nat), worstChannel: nat)
      requires Valid() && data.Length <= |other|
      ensures var w := Scan(data[..], other, Area(widthHeight[0]), data.Length);
              worstDelta == w.delta && worstChannel == w.channel
              && Locates(widthHeight, levelOffsets, worstCoordinate, w.texel)
      ensures worstDelta == 0 ==> worstCoordinate == (0, 0, 0) && worstChannel == 0
    {
      var a := data[..];
      var dims, offs := widthHeight, levelOffsets;
      var lo := Area(dims[0]);
      LevelInBuffer(dims, offs, |a|, 0);
      var acc := NoDifference;
      worstCoordinate := (0, 0, 0);
      var level := 1;
      while level != |offs|
        invariant 1 <= level <= |dims|
        invariant level < |dims| ==> lo <= offs[level] <= |a|
        invariant level < |dims| ==> acc == Scan(a, other, lo, offs[level])
        invariant level == |dims| ==> acc == Scan(a, other, lo, |a|)
        invariant Tracks(dims, offs, acc, worstCoordinate)
      {
        LevelInBuffer(dims, offs, |a|, level);
        acc, worstCoordinate := CompareLevel(a, other, dims, offs, lo, level, acc, worstCoordinate);
        level := level + 1;
      }
      ScanIsFirstMaximum(a, other, lo, |a|);
      worstDelta, worstChannel := acc.delta, acc.channel;
    }

    /** `compare(other, ...)`: `ok` is false where the source's asserts
        fail (the two pyramids differ in extents or offsets); otherwise the
        result of comparing with the other pyramid's buffer. */
    method Compare(other: MipmapStorage) returns (ok: bool, worstDelta: u8, worstCoordinate: (nat, nat, nat), worstChannel: nat)
      requires Valid() && other.Valid()
      ensures ok <==> widthHeight == other.widthHeight && levelOffsets == other.levelOffsets
      ensures ok ==> var w := Scan(data[..], other.data[..], Area(widthHeight[0]), data.Length);
                     worstDelta == w.delta && worstChannel == w.channel
                     && Locates(widthHeight, levelOffsets, worstCoordinate, w.texel)
    {
      if widthHeight != other.widthHeight || levelOffsets != other.levelOffsets {
        return false, 0, (0, 0, 0), 0;
      }
      ok := true;
      worstDelta, worstCoordinate, worstChannel := CompareBuffer(other.data[..]);
    }

    /** `generateLevel`: every texel of `level` becomes the filtered
        kernel of its footprint in `level - 1`; no other texel changes. */
    method GenerateLevel(level: nat, filter: seq<Tap> -> Texel)
      requires Valid() && 1 <= level < |widthHeight|
      modifies data
      ensures LevelFiltered(data[..], widthHeight, levelOffsets, level, filter)
      ensures forall k | 0 <= k < data.Length && !(levelOffsets[level] <= k < levelOffsets[level] + Area(widthHeight[level])) ::
                data[k] == old(data[k])
    {
      var dims, offs := widthHeight, levelOffsets;
      var srcW, srcH := dims[level - 1].0, dims[level - 1].1;
      LevelInBuffer(dims, offs, data.Length, level);
      var srcEnd := offs[level - 1] + srcW * srcH;
      var src := data[offs[level - 1] .. srcEnd];
      var reduced := (x: nat, y: nat) =>
        if x < NextMipDim(srcW) && y < NextMipDim(srcH) then filter(Kernel(src, 0, srcW, srcH, x, y)) else ZeroTexel;
      FillLevel(data, offs[level], dims[level].0, dims[level].1, reduced);
      // The source level lies before the destination level: it is unchanged.
      assert data[offs[level - 1] .. srcEnd] == src;
      LevelFilledFromSource(data[..], dims, offs, level, src, filter);
    }

    /** `generateMipmaps`: levels 1 and up are generated in increasing
        order, so that in the end every level is the filtered reduction of
        the final level above it; the base level is left as it was. */
    method GenerateMipmaps(filter: seq<Tap> -> Texel)
      requires Valid()
      modifies data
      ensures Valid()
      ensures forall l | 1 <= l < |widthHeight| :: LevelFiltered(data[..], widthHeight, levelOffsets, l, filter)
      ensures forall k | 0 <= k < Area(widthHeight[0]) :: data[k] == old(data[k])
    {
      var dims, offs := widthHeight, levelOffsets;
      var level := 1;
      while level < |offs|
        invariant 1 <= level <= |dims|
        invariant forall l | 1 <= l < level :: LevelFiltered(data[..], dims, offs, l, filter)
        invariant forall k | 0 <= k < Area(dims[0]) :: data[k] == old(data[k])
      {
        ghost var before := data[..];
        PlacedDisjoint(dims, offs, data.Length, 0, level);
        GenerateLevel(level, filter);
        assert SameRange(before, data[..], 0, offs[level]);
        LevelsFilteredFrame(before, data[..], dims, offs, level, filter);
        level := level + 1;
      }
    }
  }
}
