/** The texels one destination texel of `generateLevel` is made from: the
    separable kernel that pairs every y-tap with every x-tap, read out of
    the source level of a texel buffer. Each tap carries the product of its
    two axis weights; over the product of the two denominators these sum to
    one. */
module ReductionKernel {
  import opened MipMath
  import opened StorageLayout
  import opened ReductionTaps

  /** A source texel and its weight over `Denominator(srcW) *
      Denominator(srcH)`. */
  datatype Tap = Tap(texel: Texel, weight: nat)

  /** The source level occupies `src[srcOff .. srcOff + srcW * srcH]`. */
  predicate SourceFits(src: seq<Texel>, srcOff: nat, srcW: nat, srcH: nat)
  {
    srcW >= 1 && srcH >= 1 && srcOff + srcW * srcH <= |src|
  }

  predicate TapsBelow(taps: seq<AxisTap>, i: nat, size: nat)
  {
    forall k :: 0 <= k < |taps| ==> 2 * i + taps[k].offset < size
  }

  /** The taps of the source row starting at `rowStart`. */
  function KernelRow(src: seq<Texel>, rowStart: nat, srcW: nat, wy: nat, x: nat, tx: seq<AxisTap>): (r: seq<Tap>)
    requires rowStart + srcW <= |src| && TapsBelow(tx, x, srcW)
    ensures |r| == |tx|
    decreases |tx|
  {
    if tx == [] then []
    else [Tap(src[rowStart + 2 * x + tx[0].offset], wy * tx[0].weight)]
         + KernelRow(src, rowStart, srcW, wy, x, tx[1..])
  }

  /** Where source row `row` starts, and that it lies inside the source
      level. */
  function RowStart(srcOff: nat, srcW: nat, srcH: nat, row: nat): (r: nat)
    requires srcW >= 1 && row < srcH
    ensures srcOff <= r && r + srcW <= srcOff + srcW * srcH
  {
    InLevel(srcW, srcH, 0, row);
    srcOff + srcW * row
  }

  /** The rows of the kernel, one per y-tap. */
  function KernelRows(src: seq<Texel>, srcOff: nat, srcW: nat, srcH: nat, x: nat, tx: seq<AxisTap>, y: nat, ty: seq<AxisTap>): (r: seq<Tap>)
    requires SourceFits(src, srcOff, srcW, srcH) && TapsBelow(tx, x, srcW) && TapsBelow(ty, y, srcH)
    decreases |ty|
  {
    if ty == [] then []
    else
      KernelRow(src, RowStart(srcOff, srcW, srcH, 2 * y + ty[0].offset), srcW, ty[0].weight, x, tx)
      + KernelRows(src, srcOff, srcW, srcH, x, tx, y, ty[1..])
  }

  /** The kernel of destination texel `(x, y)`. */
  function Kernel(src: seq<Texel>, srcOff: nat, srcW: nat, srcH: nat, x: nat, y: nat): seq<Tap>
    requires SourceFits(src, srcOff, srcW, srcH) && x < NextMipDim(srcW) && y < NextMipDim(srcH)
  {
    AxisTapsInside(srcW, x);
    AxisTapsInside(srcH, y);
    KernelRows(src, srcOff, srcW, srcH, x, AxisTaps(srcW, x), y, AxisTaps(srcH, y))
  }

  function TapWeightSum(taps: seq<Tap>): nat
  {
    if taps == [] then 0 else taps[0].weight + TapWeightSum(taps[1..])
  }

  lemma {:induction false} TapWeightSumAppend(a: seq<Tap>, b: seq<Tap>)
    ensures TapWeightSum(a + b) == TapWeightSum(a) + TapWeightSum(b)
    decreases |a|
  {
    if a != [] {
      assert (a + b)[1..] == a[1..] + b;
      assert TapWeightSum(a + b) == a[0].weight + TapWeightSum(a[1..] + b);
      TapWeightSumAppend(a[1..], b);
    } else {
      assert a + b == b;
    }
  }

  lemma MulAddLeft(a: nat, b: nat, c: nat)
    ensures a * (b + c) == a * b + a * c
  {
  }

  lemma MulAddRight(a: nat, b: nat, c: nat)
    ensures (b + c) * a == b * a + c * a
  {
  }

  lemma {:induction false} KernelRowWeights(src: seq<Texel>, rowStart: nat, srcW: nat, wy: nat, x: nat, tx: seq<AxisTap>)
    requires rowStart + srcW <= |src| && TapsBelow(tx, x, srcW)
    ensures TapWeightSum(KernelRow(src, rowStart, srcW, wy, x, tx)) == wy * WeightSum(tx)
    decreases |tx|
  {
    if tx != [] {
      KernelRowWeights(src, rowStart, srcW, wy, x, tx[1..]);
      assert KernelRow(src, rowStart, srcW, wy, x, tx)[1..] == KernelRow(src, rowStart, srcW, wy, x, tx[1..]);
      MulAddLeft(wy, tx[0].weight, WeightSum(tx[1..]));
    }
  }

  lemma {:induction false} KernelRowsWeights(src: seq<Texel>, srcOff: nat, srcW: nat, srcH: nat, x: nat, tx: seq<AxisTap>, y: nat, ty: seq<AxisTap>)
    requires SourceFits(src, srcOff, srcW, srcH) && TapsBelow(tx, x, srcW) && TapsBelow(ty, y, srcH)
    ensures TapWeightSum(KernelRows(src, srcOff, srcW, srcH, x, tx, y, ty)) == WeightSum(ty) * WeightSum(tx)
    decreases |ty|
  {
    if ty != [] {
      var rowStart := RowStart(srcOff, srcW, srcH, 2 * y + ty[0].offset);
      var row := KernelRow(src, rowStart, srcW, ty[0].weight, x, tx);
      var rest := KernelRows(src, srcOff, srcW, srcH, x, tx, y, ty[1..]);
      TapWeightSumAppend(row, rest);
      KernelRowWeights(src, rowStart, srcW, ty[0].weight, x, tx);
      KernelRowsWeights(src, srcOff, srcW, srcH, x, tx, y, ty[1..]);
      MulAddRight(WeightSum(tx), ty[0].weight, WeightSum(ty[1..]));
    }
  }

  lemma {:induction false} KernelRowsCount(src: seq<Texel>, srcOff: nat, srcW: nat, srcH: nat, x: nat, tx: seq<AxisTap>, y: nat, ty: seq<AxisTap>)
    requires SourceFits(src, srcOff, srcW, srcH) && TapsBelow(tx, x, srcW) && TapsBelow(ty, y, srcH)
    ensures |KernelRows(src, srcOff, srcW, srcH, x, tx, y, ty)| == |ty| * |tx|
    decreases |ty|
  {
    if ty != [] {
      KernelRowsCount(src, srcOff, srcW, srcH, x, tx, y, ty[1..]);
      MulAddRight(|tx|, 1, |ty| - 1);
    }
  }

  /** One destination texel is made from 1, 2, 3, 4, 6 or 9 source texels
      (the product of the axis tap counts), with weights that sum to the
      product of the two denominators: the weights sum to one. */
  lemma KernelWeights(src: seq<Texel>, srcOff: nat, srcW: nat, srcH: nat, x: nat, y: nat)
    requires SourceFits(src, srcOff, srcW, srcH) && x < NextMipDim(srcW) && y < NextMipDim(srcH)
    ensures |Kernel(src, srcOff, srcW, srcH, x, y)| == |AxisTaps(srcH, y)| * |AxisTaps(srcW, x)|
    ensures TapWeightSum(Kernel(src, srcOff, srcW, srcH, x, y)) == Denominator(srcH) * Denominator(srcW)
  {
    AxisTapsInside(srcW, x);
    AxisTapsInside(srcH, y);
    AxisTapsShape(srcW, x);
    AxisTapsShape(srcH, y);
    KernelRowsWeights(src, srcOff, srcW, srcH, x, AxisTaps(srcW, x), y, AxisTaps(srcH, y));
    KernelRowsCount(src, srcOff, srcW, srcH, x, AxisTaps(srcW, x), y, AxisTaps(srcH, y));
  }

  /** `src` and `src'` agree on `[lo, hi)`. */
  predicate SameRange(src: seq<Texel>, src': seq<Texel>, lo: nat, hi: nat)
  {
    hi <= |src| && hi <= |src'| && forall k :: lo <= k < hi ==> src[k] == src'[k]
  }

  lemma {:induction false} KernelRowReadsSource(src: seq<Texel>, src': seq<Texel>, rowStart: nat, srcW: nat,
                                                wy: nat, x: nat, tx: seq<AxisTap>)
    requires rowStart + srcW <= |src| && |src'| == |src| && TapsBelow(tx, x, srcW)
    requires SameRange(src, src', rowStart, rowStart + srcW)
    ensures KernelRow(src, rowStart, srcW, wy, x, tx) == KernelRow(src', rowStart, srcW, wy, x, tx)
    decreases |tx|
  {
    if tx != [] {
      KernelRowReadsSource(src, src', rowStart, srcW, wy, x, tx[1..]);
    }
  }

  lemma {:induction false} KernelRowsReadSource(src: seq<Texel>, src': seq<Texel>, srcOff: nat, srcW: nat, srcH: nat,
                                                x: nat, tx: seq<AxisTap>, y: nat, ty: seq<AxisTap>)
    requires SourceFits(src, srcOff, srcW, srcH) && |src'| == |src|
    requires SameRange(src, src', srcOff, srcOff + srcW * srcH)
    requires TapsBelow(tx, x, srcW) && TapsBelow(ty, y, srcH)
    ensures KernelRows(src, srcOff, srcW, srcH, x, tx, y, ty) == KernelRows(src', srcOff, srcW, srcH, x, tx, y, ty)
    decreases |ty|
  {
    if ty != [] {
      var rowStart := RowStart(srcOff, srcW, srcH, 2 * y + ty[0].offset);
      KernelRowReadsSource(src, src', rowStart, srcW, ty[0].weight, x, tx);
      KernelRowsReadSource(src, src', srcOff, srcW, srcH, x, tx, y, ty[1..]);
    }
  }

  /** The kernel reads nothing but the source level: buffers that agree
      there give the same kernel, whatever the other levels hold. */
  lemma KernelReadsSource(src: seq<Texel>, src': seq<Texel>, srcOff: nat, srcW: nat, srcH: nat, x: nat, y: nat)
    requires SourceFits(src, srcOff, srcW, srcH) && |src'| == |src|
    requires SameRange(src, src', srcOff, srcOff + srcW * srcH)
    requires x < NextMipDim(srcW) && y < NextMipDim(srcH)
    ensures Kernel(src, srcOff, srcW, srcH, x, y) == Kernel(src', srcOff, srcW, srcH, x, y)
  {
    AxisTapsInside(srcW, x);
    AxisTapsInside(srcH, y);
    KernelRowsReadSource(src, src', srcOff, srcW, srcH, x, AxisTaps(srcW, x), y, AxisTaps(srcH, y));
  }
}
