/** The footprint of the CPU reference reduction: which texels of level
    `l - 1` one texel of level `l` is made from, with what weights, and
    which texels the reduction loads. The weights are kept as integers over
    a per-axis denominator; the floating-point sums themselves are not part
    of this model. */
module ReductionTaps {
  import opened MipMath

  /** One tap along an axis: destination texel `i` reads source texel
      `2 * i + offset` with weight `weight / Denominator(srcSize)`. */
  datatype AxisTap = AxisTap(offset: nat, weight: nat)

  /** The common denominator of one axis' weights: 2 for an even source
      size, the source size itself for an odd one (`2n + 1`, or 1). */
  function Denominator(srcSize: nat): (r: nat)
    ensures srcSize >= 1 ==> r >= 1
  {
    if srcSize % 2 == 0 then 2 else srcSize
  }

  /** The taps of destination texel `i` along an axis whose source size is
      `srcSize`: two halves for an even size, a copy for size 1, and the
      weights `(n - i, n, 1 + i) / (2n + 1)` for an odd size `2n + 1`. */
  function AxisTaps(srcSize: nat, i: nat): (r: seq<AxisTap>)
    requires srcSize >= 1 && i < NextMipDim(srcSize)
  {
    if srcSize % 2 == 0 then [AxisTap(0, 1), AxisTap(1, 1)]
    else if srcSize == 1 then [AxisTap(0, 1)]
    else
      var n := srcSize / 2;
      [AxisTap(0, n - i), AxisTap(1, n), AxisTap(2, 1 + i)]
  }

  function WeightSum(taps: seq<AxisTap>): nat
  {
    if taps == [] then 0 else taps[0].weight + WeightSum(taps[1..])
  }

  /** Two taps for an even source, one for a source of size 1, three for
      any other odd source; every weight is positive and they sum to the
      denominator, so the weights sum to one. */
  lemma AxisTapsShape(srcSize: nat, i: nat)
    requires srcSize >= 1 && i < NextMipDim(srcSize)
    ensures var taps := AxisTaps(srcSize, i);
            && |taps| == (if srcSize % 2 == 0 then 2 else if srcSize == 1 then 1 else 3)
            && (forall k :: 0 <= k < |taps| ==> taps[k].weight >= 1 && taps[k].offset == k)
            && WeightSum(taps) == Denominator(srcSize)
  {
    var taps := AxisTaps(srcSize, i);
    if srcSize % 2 == 0 {
      assert taps[1..][1..] == [];
    } else if srcSize == 1 {
      assert taps[1..] == [];
    } else {
      var n := srcSize / 2;
      assert taps[1..][1..][1..] == [];
      assert WeightSum(taps[1..][1..]) == 1 + i;
      assert WeightSum(taps[1..]) == n + 1 + i;
      assert srcSize == 2 * n + 1 && i < n;
    }
  }

  /** Every tap reads inside the source level. */
  lemma AxisTapsInside(srcSize: nat, i: nat)
    requires srcSize >= 1 && i < NextMipDim(srcSize)
    ensures forall k :: 0 <= k < |AxisTaps(srcSize, i)| ==> 2 * i + AxisTaps(srcSize, i)[k].offset < srcSize
  {
  }

  /** The destination texel whose taps include source texel `j`. */
  function CoveringTexel(srcSize: nat, j: nat): nat
  {
    if srcSize % 2 == 1 && srcSize > 1 && j == srcSize - 1 then j / 2 - 1 else j / 2
  }

  /** Every source texel contributes to a destination texel: none is
      skipped by the reduction. */
  lemma AxisTapsCover(srcSize: nat, j: nat)
    requires j < srcSize
    ensures var i := CoveringTexel(srcSize, j);
            && i < NextMipDim(srcSize)
            && exists k :: 0 <= k < |AxisTaps(srcSize, i)| && 2 * i + AxisTaps(srcSize, i)[k].offset == j
  {
    var i := CoveringTexel(srcSize, j);
    if srcSize % 2 == 1 && srcSize > 1 && j == srcSize - 1 {
      assert 2 * i + AxisTaps(srcSize, i)[2].offset == j;
    } else if srcSize == 1 {
      assert 2 * i + AxisTaps(srcSize, i)[0].offset == j;
    } else {
      assert 2 * i + AxisTaps(srcSize, i)[j % 2].offset == j;
    }
  }

  /** The tap offsets along an axis, whatever the destination texel. */
  function AxisOffsets(srcSize: nat): set<nat>
  {
    if srcSize % 2 == 0 then {0, 1} else if srcSize == 1 then {0} else {0, 1, 2}
  }

  lemma AxisOffsetsOfTaps(srcSize: nat, i: nat)
    requires srcSize >= 1 && i < NextMipDim(srcSize)
    ensures AxisOffsets(srcSize) == set k | 0 <= k < |AxisTaps(srcSize, i)| :: AxisTaps(srcSize, i)[k].offset
  {
    var taps := AxisTaps(srcSize, i);
    AxisTapsShape(srcSize, i);
    forall o | o in AxisOffsets(srcSize)
      ensures o in set k | 0 <= k < |taps| :: taps[k].offset
    {
      assert taps[o].offset == o;
    }
  }

  /** The `(xOffset, yOffset)` pairs `generateLevel` passes to `loadSample`,
      as written: `sample21` and `sample12` are loaded without the guard
      on the other axis. */
  function LoadsAsWritten(srcW: nat, srcH: nat): set<(nat, nat)>
  {
    var wEven, hEven := srcW % 2 == 0, srcH % 2 == 0;
    {(0, 0)}
    + (if wEven || srcW != 1 then {(1, 0)} else {})
    + (if hEven || srcH != 1 then {(0, 1)} + (if wEven || srcW != 1 then {(1, 1)} else {}) else {})
    + (if !wEven && srcW != 1 then {(2, 0), (2, 1)} + (if !hEven && srcH != 1 then {(2, 2)} else {}) else {})
    + (if !hEven && srcH != 1 then {(0, 2), (1, 2)} else {})
  }

  /** The loads with `sample21` guarded by the height test and `sample12`
      by the width test, as every other load is. */
  function Loads(srcW: nat, srcH: nat): set<(nat, nat)>
  {
    var wEven, hEven := srcW % 2 == 0, srcH % 2 == 0;
    {(0, 0)}
    + (if wEven || srcW != 1 then {(1, 0)} else {})
    + (if hEven || srcH != 1 then {(0, 1)} + (if wEven || srcW != 1 then {(1, 1)} else {}) else {})
    + (if !wEven && srcW != 1 then {(2, 0)} + (if hEven || srcH != 1 then {(2, 1)} else {})
                                  + (if !hEven && srcH != 1 then {(2, 2)} else {}) else {})
    + (if !hEven && srcH != 1 then {(0, 2)} + (if wEven || srcW != 1 then {(1, 2)} else {}) else {})
  }

  /** The guarded loads are exactly the taps of the separable kernel: one
      per pair of an x-tap and a y-tap. */
  lemma LoadsAreKernel(srcW: nat, srcH: nat)
    ensures Loads(srcW, srcH) == set ox, oy | ox in AxisOffsets(srcW) && oy in AxisOffsets(srcH) :: (ox, oy)
  {
    var kernel := set ox, oy | ox in AxisOffsets(srcW) && oy in AxisOffsets(srcH) :: (ox, oy);
    forall p | p in kernel
      ensures p in Loads(srcW, srcH)
    {
    }
  }

  /** Every guarded load of destination texel `(x, y)` is inside the source
      level. */
  lemma LoadsInside(srcW: nat, srcH: nat, x: nat, y: nat)
    requires srcW >= 1 && srcH >= 1 && x < NextMipDim(srcW) && y < NextMipDim(srcH)
    ensures forall p :: p in Loads(srcW, srcH) ==> 2 * x + p.0 < srcW && 2 * y + p.1 < srcH
  {
    LoadsAreKernel(srcW, srcH);
  }

  /** The two loads are the only difference: as written, the loads are the
      guarded ones plus `(2, 1)` for an odd width above 1 over a height of
      1, and `(1, 2)` for a width of 1 over an odd height above 1. */
  lemma LoadsAsWrittenExtra(srcW: nat, srcH: nat)
    ensures LoadsAsWritten(srcW, srcH) ==
              Loads(srcW, srcH)
              + (if srcW % 2 == 1 && srcW != 1 && srcH == 1 then {(2, 1)} else {})
              + (if srcH % 2 == 1 && srcH != 1 && srcW == 1 then {(1, 2)} else {})
  {
  }

  /** `LoadsInside` fails for the loads as written: for a 3 x 1 source the
      `sample21` load of texel (0, 0) reads row 1, below the only row, and
      for a 1 x 3 source `sample12` reads column 1, right of the only
      column. */
  lemma UnguardedLoadsLeaveLevel()
    ensures !(forall p :: p in LoadsAsWritten(3, 1) ==> 2 * 0 + p.0 < 3 && 2 * 0 + p.1 < 1)
    ensures !(forall p :: p in LoadsAsWritten(1, 3) ==> 2 * 0 + p.0 < 1 && 2 * 0 + p.1 < 3)
  {
    assert (2, 1) in LoadsAsWritten(3, 1);
    assert (1, 2) in LoadsAsWritten(1, 3);
  }
}
