/** The dispatcher callbacks of nvpro_pyramid: given the scheduling state,
    each records at most one bind, one push constant and one dispatch, and
    returns the number of mip levels that dispatch fills.

    Each dispatcher template or function of the repository is one
    constructor; template arguments are constructor fields, and the
    `static_assert`s on them are `FastWf` / `GeneralWf`. */
module Dispatchers {
  import opened MipMath
  import opened Commands

  /** `NvproPyramidState`: the input level of the next dispatch, the levels
      still to fill, and the extent of the input level. */
  datatype State = State(currentLevel: u32, remainingLevels: u32, currentX: u32, currentY: u32)

  /** What a dispatcher call leaves behind: the levels it reports and the
      commands it recorded, or a failed `assert` after recording `cmds`. */
  datatype Call =
    | Returned(levels: u32, cmds: seq<Command>)
    | AssertFailed(cmds: seq<Command>)

  datatype FastDispatcher =
      /** `nvproPyramidDefaultFastDispatcher<divisibility, maxLevels>` */
    | DefaultFast(divisibility: nat, maxLevels: nat)
      /** `workgroup1024_dispatch<divisibility, maxLevels>` */
    | Workgroup1024(divisibility: nat, maxLevels: nat)
      /** `noshared_dispatch<divisibility, maxLevels>` */
    | NoShared(divisibility: nat, maxLevels: nat)
      /** `quadshared_dispatch<divisibility>` */
    | QuadShared(divisibility: nat)
    | Quad3
    | Fixed3Levels
    | Quad4
      /** the fast `onelevel_dispatch` */
    | FastOneLevel
      /** `nullDispatcher` registered as a fast dispatcher */
    | FastNull

  datatype GeneralDispatcher =
      /** `nvproPyramidDefaultGeneralDispatcher` */
    | DefaultGeneral
      /** `py2_dispatch_impl<warps, tileWidth, tileHeight, maxLevels>` */
    | Py2(warps: nat, tileWidth: nat, tileHeight: nat, maxLevels: nat)
    | General2(maxLevels: nat)
    | General2S(maxLevels: nat)
    | General3Level
      /** the general `onelevel_dispatch` */
    | GeneralOneLevel
    | Baseline
      /** `nullDispatcher` registered as a general dispatcher */
    | GeneralNull

  /** The template arguments the `static_assert`s admit; in addition a
      halving dispatcher must be allowed at least one level, and the
      divisibility of `quadshared` must be even as it is where it is
      instantiated. */
  predicate FastWf(d: FastDispatcher)
  {
    match d
    case DefaultFast(div, max) => div > 0 && div % 2 == 0 && 1 <= max <= 6
    case Workgroup1024(div, max) => div > 0 && div % 2 == 0 && 1 <= max <= 6
    case NoShared(div, max) => div > 0 && div % 2 == 0 && 1 <= max <= 3
    case QuadShared(div) => div > 0 && div % 2 == 0
    case _ => true
  }

  predicate GeneralWf(d: GeneralDispatcher)
  {
    match d
    case Py2(warps, tw, th, max) =>
      1 <= warps && warps * 32 <= LIMIT && 1 <= tw < LIMIT && 1 <= th < LIMIT && 1 <= max <= 2
    case General2(max) => 1 <= max <= 2
    case General2S(max) => 1 <= max <= 2
    case _ => true
  }

  /** `srcLevel << 5 | levels` for `levels < 32`: the low five bits of the
      shifted level are zero, so the `|` adds. */
  function PushWord(srcLevel: u32, levels: nat): (w: u32)
    requires levels < 32
  {
    Wrap(srcLevel * 32) + levels
  }

  /** The shader reads the input level as `pc >> 5` and the level count as
      `pc & 31`; both come back out of the word, the level modulo 2^27. */
  lemma PushWordDecode(srcLevel: u32, levels: nat)
    requires levels < 32
    ensures PushWord(srcLevel, levels) % 32 == levels
    ensures PushWord(srcLevel, levels) / 32 == srcLevel % 0x800_0000
  {
    var k := srcLevel % 0x800_0000;
    assert srcLevel * 32 == (srcLevel / 0x800_0000) * LIMIT + k * 32;
    DivUnique(srcLevel * 32, LIMIT, srcLevel / 0x800_0000, k * 32);
    DivUnique(PushWord(srcLevel, levels), 32, k, levels);
  }

  function BindIf(pipelineIfNeeded: Pipeline): seq<Command>
  {
    if pipelineIfNeeded != NullPipeline then [BindPipeline(pipelineIfNeeded)] else []
  }

  /** The contract of a dispatcher callback about what it records: at most
      one bind, of the pipeline handed to it and only if that is not null;
      then one push constant at the given offset; then one dispatch; and no
      barrier. */
  predicate OneDispatch(cmds: seq<Command>, pipelineIfNeeded: Pipeline, offset: u32, word: u32)
  {
    var b := |BindIf(pipelineIfNeeded)|;
    |cmds| == b + 2 && cmds[..b] == BindIf(pipelineIfNeeded)
    && cmds[b] == PushConstant(offset, word) && cmds[b + 1].Dispatch?
  }

  function Emit(pipelineIfNeeded: Pipeline, offset: u32, word: u32, groups: u32): (cmds: seq<Command>)
    ensures OneDispatch(cmds, pipelineIfNeeded, offset, word)
  {
    BindIf(pipelineIfNeeded) + [PushConstant(offset, word), Dispatch(groups)]
  }

  lemma OneDispatchHasNoBarrier(cmds: seq<Command>, p: Pipeline, offset: u32, word: u32)
    requires OneDispatch(cmds, p, offset, word)
    ensures forall i :: 0 <= i < |cmds| ==> !cmds[i].Barrier?
  {
    var b := |BindIf(p)|;
    forall i | 0 <= i < |cmds|
      ensures !cmds[i].Barrier?
    {
      if i < b {
        assert cmds[i] == cmds[..b][i];
      }
    }
  }

  /** Number of 2x2 reductions the fast pipeline can chain: halve both extents
      while both are even, at most `cap` times. */
  function EvenHalvings(x: nat, y: nat, cap: nat): (n: nat)
    ensures n <= cap
    ensures EvenTimes(x, n) && EvenTimes(y, n)
    ensures n < cap ==> Shr(x, n) % 2 == 1 || Shr(y, n) % 2 == 1
    decreases cap
  {
    if cap > 0 && x % 2 == 0 && y % 2 == 0 then 1 + EvenHalvings(x / 2, y / 2, cap - 1) else 0
  }

  lemma EvenMultiple(x: nat, div: nat)
    requires div > 0
    ensures div % 2 == 0 && x % div == 0 ==> x % 2 == 0
  {
    if div % 2 == 0 && x % div == 0 {
      var k, j := x / div, div / 2;
      assert x == div * k;
      assert x == 2 * (j * k);
    }
  }

  /** The `while` loop of the halving fast dispatchers. */
  method CountEvenHalvings(x0: u32, y0: u32, remainingLevels: u32, maxLevels: nat)
    returns (levels: u32)
    ensures levels == EvenHalvings(x0, y0, Min(remainingLevels, maxLevels))
    ensures levels <= remainingLevels && levels <= maxLevels
    ensures EvenTimes(x0, levels) && EvenTimes(y0, levels)
  {
    var x, y := x0, y0;
    levels := 0;
    while x % 2 == 0 && y % 2 == 0 && levels < remainingLevels && levels < maxLevels
      invariant levels <= Min(remainingLevels, maxLevels)
      invariant EvenHalvings(x0, y0, Min(remainingLevels, maxLevels))
                == levels + EvenHalvings(x, y, Min(remainingLevels, maxLevels) - levels)
      decreases remainingLevels - levels
    {
      x := x / 2;
      y := y / 2;
      levels := levels + 1;
    }
  }

  /** The halving fast dispatchers: gate on divisibility, then fill as many
      levels as 2x2 reduction allows; `perGroup` input samples per
      workgroup, `perGroupDeep` when more than five levels are filled. */
  function HalvingFast(div: nat, maxLevels: nat, perGroup: nat, perGroupDeep: nat,
                       offset: u32, pipelineIfNeeded: Pipeline, s: State): (r: Call)
    requires div > 0 && maxLevels <= 6 && 0 < perGroup <= LIMIT && 0 < perGroupDeep <= LIMIT
    ensures r.Returned? && r.levels <= Min(s.remainingLevels, maxLevels)
    ensures EvenTimes(s.currentX, r.levels) && EvenTimes(s.currentY, r.levels)
    ensures r.cmds != [] ==> OneDispatch(r.cmds, pipelineIfNeeded, offset, PushWord(s.currentLevel, r.levels))
    ensures r.cmds == [] <==> s.currentX % div != 0 || s.currentY % div != 0
    ensures r.levels == 0 && s.remainingLevels >= 1 && maxLevels >= 1 && div % 2 == 0 ==> r.cmds == []
  {
    EvenMultiple(s.currentX, div);
    EvenMultiple(s.currentY, div);
    if s.currentX % div == 0 && s.currentY % div == 0 then
      var levels := EvenHalvings(s.currentX, s.currentY, Min(s.remainingLevels, maxLevels));
      var samples := Wrap(s.currentX * s.currentY);
      var groups := if levels > 5 then Groups(samples, perGroupDeep) else Groups(samples, perGroup);
      Returned(levels, Emit(pipelineIfNeeded, offset, PushWord(s.currentLevel, levels), groups))
    else
      Returned(0, [])
  }

  /** A multiple of `2 * m` is an even number whose half is a multiple of
      `m`. */
  lemma HalfMultiple(x: nat, m: nat)
    requires m in {1, 2, 4, 8}
    ensures x % (2 * m) == 0 <==> x % 2 == 0 && (x / 2) % m == 0
  {
    if x % 2 == 0 {
      DivUnique(x, 2 * m, (x / 2) / m, 2 * ((x / 2) % m));
    }
  }

  /** `x % 2^levels == 0` for the moduli the fixed-depth dispatchers test. */
  lemma EvenTimesMod(x: nat, levels: nat, modulus: nat)
    requires (levels, modulus) in {(1, 2), (3, 8), (4, 16)}
    ensures EvenTimes(x, levels) <==> x % modulus == 0
  {
    var x1: nat, x2: nat, x3: nat := x / 2, x / 2 / 2, x / 2 / 2 / 2;
    HalfMultiple(x2, 1);
    HalfMultiple(x1, 2);
    HalfMultiple(x, 4);
    HalfMultiple(x, 8);
    HalfMultiple(x1, 4);
    HalfMultiple(x2, 2);
    HalfMultiple(x, 1);
    assert EvenTimes(x2, 1) <==> x2 % 2 == 0;
    assert EvenTimes(x3, 1) <==> x3 % 2 == 0;
    assert EvenTimes(x2, 2) <==> x2 % 2 == 0 && EvenTimes(x3, 1);
    assert EvenTimes(x1, 2) <==> x1 % 2 == 0 && EvenTimes(x2, 1);
    assert EvenTimes(x1, 3) <==> x1 % 2 == 0 && EvenTimes(x2, 2);
  }

  /** The fixed-depth fast dispatchers: fill exactly `levels` levels when
      both extents are multiples of `modulus` (2^levels) and at least
      `minRemaining` levels remain, or decline. */
  function FixedFast(levels: nat, modulus: nat, minRemaining: nat, groups: u32,
                     offset: u32, pipelineIfNeeded: Pipeline, s: State): (r: Call)
    requires (levels, modulus) in {(1, 2), (3, 8), (4, 16)}
    ensures r.Returned? && (r.levels == 0 || r.levels == levels)
    ensures EvenTimes(s.currentX, r.levels) && EvenTimes(s.currentY, r.levels)
    ensures r.levels == levels <==>
              EvenTimes(s.currentX, levels) && EvenTimes(s.currentY, levels) && s.remainingLevels >= minRemaining
    ensures r.cmds == [] <==> r.levels == 0
    ensures r.cmds != [] ==> OneDispatch(r.cmds, pipelineIfNeeded, offset, PushWord(s.currentLevel, levels))
  {
    EvenTimesMod(s.currentX, levels, modulus);
    EvenTimesMod(s.currentY, levels, modulus);
    if s.currentX % modulus == 0 && s.currentY % modulus == 0 && s.remainingLevels >= minRemaining then
      Returned(levels, Emit(pipelineIfNeeded, offset, PushWord(s.currentLevel, levels), groups))
    else
      Returned(0, [])
  }

  /** One call of a fast dispatcher. */
  function FastCall(d: FastDispatcher, offset: u32, pipelineIfNeeded: Pipeline, s: State): (r: Call)
    requires FastWf(d)
    ensures r.Returned?
    ensures r.levels <= Max(s.remainingLevels, 1)
    ensures s.remainingLevels >= 1 ==> r.levels <= s.remainingLevels
    ensures r.levels == 0 && s.remainingLevels >= 1 ==> r.cmds == []
    ensures d == FastNull ==> r.cmds == []
  {
    if d.FastNull? then Returned(s.remainingLevels, [])
    else if d.Quad3? || d.Fixed3Levels? || d.Quad4? || d.FastOneLevel? then
      FixedDepthCall(d, offset, pipelineIfNeeded, s)
    else
      HalvingCall(d, offset, pipelineIfNeeded, s)
  }

  /** A fast dispatcher other than the null one only fills levels whose
      extents halve exactly, and what it records is one dispatch with the
      input level and the level count packed into the push constant. */
  lemma FastCallShape(d: FastDispatcher, offset: u32, pipelineIfNeeded: Pipeline, s: State)
    requires FastWf(d) && d != FastNull
    ensures var r := FastCall(d, offset, pipelineIfNeeded, s);
            && EvenTimes(s.currentX, r.levels) && EvenTimes(s.currentY, r.levels)
            && (r.cmds != [] ==>
                  r.levels < 32 && OneDispatch(r.cmds, pipelineIfNeeded, offset, PushWord(s.currentLevel, r.levels)))
  {
  }

  /** The default fast dispatcher, `workgroup1024`, `noshared` and
      `quadshared`. */
  function HalvingCall(d: FastDispatcher, offset: u32, pipelineIfNeeded: Pipeline, s: State): (r: Call)
    requires FastWf(d) && (d.DefaultFast? || d.Workgroup1024? || d.NoShared? || d.QuadShared?)
    ensures r.Returned? && r.levels <= s.remainingLevels && r.levels <= 6
    ensures EvenTimes(s.currentX, r.levels) && EvenTimes(s.currentY, r.levels)
    ensures r.cmds != [] ==> OneDispatch(r.cmds, pipelineIfNeeded, offset, PushWord(s.currentLevel, r.levels))
    ensures r.levels == 0 && s.remainingLevels >= 1 ==> r.cmds == []
  {
    match d
    case DefaultFast(div, max) => HalvingFast(div, max, 1024, 4096, offset, pipelineIfNeeded, s)
    case Workgroup1024(div, max) => HalvingFast(div, max, 4096, 4096, offset, pipelineIfNeeded, s)
    case NoShared(div, max) => HalvingFast(div, max, 1024, 1024, offset, pipelineIfNeeded, s)
    case QuadShared(div) => HalvingFast(div, 6, 4096, 4096, offset, pipelineIfNeeded, s)
  }

  /** `quad3`, `fixed3levels`, `quad4` and the fast `onelevel`. */
  function FixedDepthCall(d: FastDispatcher, offset: u32, pipelineIfNeeded: Pipeline, s: State): (r: Call)
    requires d.Quad3? || d.Fixed3Levels? || d.Quad4? || d.FastOneLevel?
    ensures r.Returned? && r.levels <= 4
    ensures r.levels > 0 && !d.FastOneLevel? ==> s.remainingLevels >= r.levels
    ensures d.FastOneLevel? ==> r.levels <= 1
    ensures r.cmds == [] <==> r.levels == 0
    ensures EvenTimes(s.currentX, r.levels) && EvenTimes(s.currentY, r.levels)
    ensures r.cmds != [] ==> OneDispatch(r.cmds, pipelineIfNeeded, offset, PushWord(s.currentLevel, r.levels))
  {
    var samples := Wrap(s.currentX * s.currentY);
    match d
    case Quad3 =>
      var dstSamples := Wrap(MipDim(s.currentX, 3) * MipDim(s.currentY, 3));
      FixedFast(3, 8, 3, Groups(dstSamples, 64), offset, pipelineIfNeeded, s)
    case Fixed3Levels => FixedFast(3, 8, 3, Groups(samples, 1024), offset, pipelineIfNeeded, s)
    case Quad4 => FixedFast(4, 16, 4, Groups(samples / 256, 16), offset, pipelineIfNeeded, s)
    case FastOneLevel =>
      // the gate of onelevel does not look at remainingLevels
      FixedFast(1, 2, 0, Groups(samples, 1024), offset, pipelineIfNeeded, s)
  }

  /** The general dispatchers that fill one or two levels (the default one,
      `py2`, `general2` and `general2s`): `threads` samples per workgroup for
      one level, a `tileWidth` x `tileHeight` tile per workgroup for two. */
  function TwoLevelGeneral(maxLevels: nat, threads: nat, tileWidth: nat, tileHeight: nat,
                           offset: u32, pipelineIfNeeded: Pipeline, s: State): (r: Call)
    requires 1 <= maxLevels <= 2 && 0 < threads <= LIMIT
    requires 0 < tileWidth < LIMIT && 0 < tileHeight < LIMIT
  {
    var levels := Min(s.remainingLevels, maxLevels);
    var dstWidth, dstHeight := MipDim(s.currentX, levels), MipDim(s.currentY, levels);
    var groups :=
      if levels == 1 then Groups(Wrap(dstWidth * dstHeight), threads)
      else Wrap(Groups(dstWidth, tileWidth) * Groups(dstHeight, tileHeight));
    Returned(levels, Emit(pipelineIfNeeded, offset, PushWord(s.currentLevel, levels), groups))
  }

  /** One call of a general dispatcher. */
  function GeneralCall(d: GeneralDispatcher, offset: u32, pipelineIfNeeded: Pipeline, s: State): (r: Call)
    requires GeneralWf(d)
    ensures r.AssertFailed? <==> d == Baseline && s.currentLevel != 0
    ensures r.Returned? && s.remainingLevels >= 1 ==> 1 <= r.levels <= s.remainingLevels
    ensures r.Returned? && s.remainingLevels == 0 && d != GeneralOneLevel ==> r.levels == 0
    ensures r.AssertFailed? ==> r.cmds == BindIf(pipelineIfNeeded)
    ensures d == GeneralNull ==> r.cmds == []
  {
    match d
    case DefaultGeneral => TwoLevelGeneral(2, 4 * 32, 8, 8, offset, pipelineIfNeeded, s)
    case Py2(warps, tw, th, max) => TwoLevelGeneral(max, warps * 32, tw, th, offset, pipelineIfNeeded, s)
    case General2(max) => TwoLevelGeneral(max, 384, 16, 16, offset, pipelineIfNeeded, s)
    case General2S(max) => TwoLevelGeneral(max, 256, 12, 12, offset, pipelineIfNeeded, s)
    case General3Level =>
      var levels := Min(s.remainingLevels, 3);
      var dstWidth, dstHeight := MipDim(s.currentX, levels), MipDim(s.currentY, levels);
      var groups := Wrap(Groups(dstWidth, 8) * Groups(dstHeight, 8));
      Returned(levels, Emit(pipelineIfNeeded, offset, PushWord(s.currentLevel, levels), groups))
    case GeneralOneLevel =>
      var dstWidth, dstHeight := MipDim(s.currentX, 1), MipDim(s.currentY, 1);
      Returned(1, Emit(pipelineIfNeeded, offset, PushWord(s.currentLevel, 1),
                       Groups(Wrap(dstWidth * dstHeight), 256)))
    case Baseline =>
      if s.currentLevel != 0 then
        AssertFailed(BindIf(pipelineIfNeeded))
      else
        var dstWidth := if s.currentX >= 1 then s.currentX / 2 else 1;
        var dstHeight := if s.currentY >= 1 then s.currentY / 2 else 1;
        Returned(s.remainingLevels,
                 Emit(pipelineIfNeeded, offset, s.remainingLevels, Groups(Wrap(dstWidth * dstHeight), 256)))
    case GeneralNull => Returned(s.remainingLevels, [])
  }

  /** The default fast dispatcher declines (no levels, no commands)
      exactly when an extent is not a multiple of its divisibility, and
      fills no more than its template cap. */
  lemma DefaultFastGate(div: nat, maxLevels: nat, offset: u32, pipelineIfNeeded: Pipeline, s: State)
    requires FastWf(DefaultFast(div, maxLevels))
    ensures var r := HalvingCall(DefaultFast(div, maxLevels), offset, pipelineIfNeeded, s);
            && (r.cmds == [] <==> s.currentX % div != 0 || s.currentY % div != 0)
            && r.levels <= maxLevels
  {
  }

  /** `workgroup1024` declines exactly when an extent is not a multiple of
      its divisibility, and fills no more than its template cap. */
  lemma Workgroup1024Gate(div: nat, maxLevels: nat, offset: u32, pipelineIfNeeded: Pipeline, s: State)
    requires FastWf(Workgroup1024(div, maxLevels))
    ensures var r := HalvingCall(Workgroup1024(div, maxLevels), offset, pipelineIfNeeded, s);
            && (r.cmds == [] <==> s.currentX % div != 0 || s.currentY % div != 0)
            && r.levels <= maxLevels
  {
  }

  /** `noshared` declines exactly when an extent is not a multiple of its
      divisibility, and fills no more than its template cap, at most 3. */
  lemma NoSharedGate(div: nat, maxLevels: nat, offset: u32, pipelineIfNeeded: Pipeline, s: State)
    requires FastWf(NoShared(div, maxLevels))
    ensures var r := HalvingCall(NoShared(div, maxLevels), offset, pipelineIfNeeded, s);
            && (r.cmds == [] <==> s.currentX % div != 0 || s.currentY % div != 0)
            && r.levels <= maxLevels <= 3
  {
  }

  /** `quadshared` declines exactly when an extent is not a multiple of its
      divisibility, and fills at most 6 levels. */
  lemma QuadSharedGate(div: nat, offset: u32, pipelineIfNeeded: Pipeline, s: State)
    requires FastWf(QuadShared(div))
    ensures var r := HalvingCall(QuadShared(div), offset, pipelineIfNeeded, s);
            && (r.cmds == [] <==> s.currentX % div != 0 || s.currentY % div != 0)
            && r.levels <= 6
  {
  }

  /** `quad3` fills 3 levels or none: 3 exactly when both extents halve
      exactly three times and at least 3 levels remain. */
  lemma Quad3Gate(offset: u32, pipelineIfNeeded: Pipeline, s: State)
    ensures var r := FixedDepthCall(Quad3, offset, pipelineIfNeeded, s);
            && (r.levels == 0 || r.levels == 3)
            && (r.levels == 3 <==> EvenTimes(s.currentX, 3) && EvenTimes(s.currentY, 3) && s.remainingLevels >= 3)
  {
  }

  /** `fixed3levels` fills 3 levels or none, on the same condition as
      `quad3`. */
  lemma Fixed3LevelsGate(offset: u32, pipelineIfNeeded: Pipeline, s: State)
    ensures var r := FixedDepthCall(Fixed3Levels, offset, pipelineIfNeeded, s);
            && (r.levels == 0 || r.levels == 3)
            && (r.levels == 3 <==> EvenTimes(s.currentX, 3) && EvenTimes(s.currentY, 3) && s.remainingLevels >= 3)
  {
  }

  /** `quad4` fills 4 levels or none: 4 exactly when both extents halve
      exactly four times and at least 4 levels remain. */
  lemma Quad4Gate(offset: u32, pipelineIfNeeded: Pipeline, s: State)
    ensures var r := FixedDepthCall(Quad4, offset, pipelineIfNeeded, s);
            && (r.levels == 0 || r.levels == 4)
            && (r.levels == 4 <==> EvenTimes(s.currentX, 4) && EvenTimes(s.currentY, 4) && s.remainingLevels >= 4)
  {
  }

  /** The fast `onelevel` fills one level exactly when both extents are
      even, whatever remains, and none otherwise. */
  lemma FastOneLevelGate(offset: u32, pipelineIfNeeded: Pipeline, s: State)
    ensures var r := FixedDepthCall(FastOneLevel, offset, pipelineIfNeeded, s);
            && (r.levels == 0 || r.levels == 1)
            && (r.levels == 1 <==> s.currentX % 2 == 0 && s.currentY % 2 == 0)
  {
  }

  /** The default general dispatcher fills as many levels as remain, up
      to 2. */
  lemma DefaultGeneralFills(offset: u32, pipelineIfNeeded: Pipeline, s: State)
    ensures GeneralCall(DefaultGeneral, offset, pipelineIfNeeded, s).levels == Min(s.remainingLevels, 2)
  {
  }

  /** `py2_dispatch_impl` fills as many levels as remain, up to its
      template cap. */
  lemma Py2Fills(warps: nat, tileWidth: nat, tileHeight: nat, maxLevels: nat,
                 offset: u32, pipelineIfNeeded: Pipeline, s: State)
    requires GeneralWf(Py2(warps, tileWidth, tileHeight, maxLevels))
    ensures GeneralCall(Py2(warps, tileWidth, tileHeight, maxLevels), offset, pipelineIfNeeded, s).levels
            == Min(s.remainingLevels, maxLevels)
  {
  }

  /** `general2` fills as many levels as remain, up to its template cap. */
  lemma General2Fills(maxLevels: nat, offset: u32, pipelineIfNeeded: Pipeline, s: State)
    requires GeneralWf(General2(maxLevels))
    ensures GeneralCall(General2(maxLevels), offset, pipelineIfNeeded, s).levels == Min(s.remainingLevels, maxLevels)
  {
  }

  /** `general2s` fills as many levels as remain, up to its template cap. */
  lemma General2SFills(maxLevels: nat, offset: u32, pipelineIfNeeded: Pipeline, s: State)
    requires GeneralWf(General2S(maxLevels))
    ensures GeneralCall(General2S(maxLevels), offset, pipelineIfNeeded, s).levels == Min(s.remainingLevels, maxLevels)
  {
  }

  /** `general3level` fills as many levels as remain, up to 3. */
  lemma General3LevelFills(offset: u32, pipelineIfNeeded: Pipeline, s: State)
    ensures GeneralCall(General3Level, offset, pipelineIfNeeded, s).levels == Min(s.remainingLevels, 3)
  {
  }

  /** The general `onelevel` always fills exactly one level. */
  lemma GeneralOneLevelFills(offset: u32, pipelineIfNeeded: Pipeline, s: State)
    ensures GeneralCall(GeneralOneLevel, offset, pipelineIfNeeded, s).levels == 1
  {
  }

  /** `baseline`, when its `assert` holds, fills every remaining level at
      once. */
  lemma BaselineFills(offset: u32, pipelineIfNeeded: Pipeline, s: State)
    ensures var r := GeneralCall(Baseline, offset, pipelineIfNeeded, s);
            r.Returned? <==> s.currentLevel == 0
    ensures var r := GeneralCall(Baseline, offset, pipelineIfNeeded, s);
            r.Returned? ==> r.levels == s.remainingLevels
  {
  }

  /** The null dispatcher, in either role, claims every remaining level and
      records nothing. */
  lemma NullFills(offset: u32, pipelineIfNeeded: Pipeline, s: State)
    ensures FastCall(FastNull, offset, pipelineIfNeeded, s) == Returned(s.remainingLevels, [])
    ensures GeneralCall(GeneralNull, offset, pipelineIfNeeded, s) == Returned(s.remainingLevels, [])
  {
  }

  /** Every general dispatcher but the null one records exactly one
      dispatch when it returns; `baseline` pushes the raw level count. */
  lemma GeneralCallShape(d: GeneralDispatcher, offset: u32, pipelineIfNeeded: Pipeline, s: State)
    requires GeneralWf(d)
    ensures var r := GeneralCall(d, offset, pipelineIfNeeded, s);
            && (r.Returned? && d != Baseline && d != GeneralNull ==>
                  r.levels < 32 && OneDispatch(r.cmds, pipelineIfNeeded, offset, PushWord(s.currentLevel, r.levels)))
            && (r.Returned? && d == Baseline ==> OneDispatch(r.cmds, pipelineIfNeeded, offset, s.remainingLevels))
  {
  }

  /** The workgroup count of the dispatch a dispatcher recorded last. */
  function DispatchedGroups(cmds: seq<Command>): nat
  {
    if cmds != [] && cmds[|cmds| - 1].Dispatch? then cmds[|cmds| - 1].groups else 0
  }

  /** Input samples one workgroup of a halving fast dispatcher reduces when
      it fills `levels` levels. */
  function SamplesPerGroup(d: FastDispatcher, levels: nat): nat
  {
    if d.NoShared? || (d.DefaultFast? && levels <= 5) then 1024 else 4096
  }

  /** A halving fast dispatcher launches the least number of workgroups
      that covers every sample of its input level, unless the rounding-up
      sum overflows 32 bits. */
  lemma HalvingGroupsCover(d: FastDispatcher, offset: u32, pipelineIfNeeded: Pipeline, s: State)
    requires FastWf(d) && (d.DefaultFast? || d.Workgroup1024? || d.NoShared? || d.QuadShared?)
    requires s.currentX * s.currentY + 4095 < LIMIT
    ensures var r := HalvingCall(d, offset, pipelineIfNeeded, s);
            var g, n := DispatchedGroups(r.cmds), SamplesPerGroup(d, r.levels);
            r.cmds != [] ==>
              g * n >= s.currentX * s.currentY && (g > 0 ==> (g - 1) * n < s.currentX * s.currentY)
  {
    var samples := Wrap(s.currentX * s.currentY);
    SamplesFit(s.currentX, s.currentY);
    match d
    case DefaultFast(div, max) => HalvingFastDispatch(div, max, 1024, 4096, offset, pipelineIfNeeded, s, samples);
    case Workgroup1024(div, max) => HalvingFastDispatch(div, max, 4096, 4096, offset, pipelineIfNeeded, s, samples);
    case NoShared(div, max) => HalvingFastDispatch(div, max, 1024, 1024, offset, pipelineIfNeeded, s, samples);
    case QuadShared(div) => HalvingFastDispatch(div, 6, 4096, 4096, offset, pipelineIfNeeded, s, samples);
  }

  /** The input samples of a halving dispatch fit in 32 bits. */
  lemma SamplesFit(x: nat, y: nat)
    requires x * y + 4095 < LIMIT
    ensures Wrap(x * y) == x * y
  {
  }

  /** The workgroup count a halving fast dispatcher records, when it
      records one, is `Groups` of the input samples. */
  lemma HalvingFastDispatch(div: nat, maxLevels: nat, perGroup: nat, perGroupDeep: nat,
                            offset: u32, pipelineIfNeeded: Pipeline, s: State, samples: u32)
    requires div > 0 && maxLevels <= 6 && 0 < perGroup <= LIMIT && 0 < perGroupDeep <= LIMIT
    requires samples == Wrap(s.currentX * s.currentY)
    ensures var r := HalvingFast(div, maxLevels, perGroup, perGroupDeep, offset, pipelineIfNeeded, s);
            r.cmds != [] ==>
              DispatchedGroups(r.cmds) == Groups(samples, if r.levels > 5 then perGroupDeep else perGroup)
  {
    if s.currentX % div == 0 && s.currentY % div == 0 {
      var levels := EvenHalvings(s.currentX, s.currentY, Min(s.remainingLevels, maxLevels));
      var groups := if levels > 5 then Groups(samples, perGroupDeep) else Groups(samples, perGroup);
      var cmds := Emit(pipelineIfNeeded, offset, PushWord(s.currentLevel, levels), groups);
      assert HalvingFast(div, maxLevels, perGroup, perGroupDeep, offset, pipelineIfNeeded, s) == Returned(levels, cmds);
      assert cmds[|cmds| - 1] == Dispatch(groups);
    }
  }

  /** Threads per workgroup of a general dispatcher that fills one level
      with one thread per destination texel. */
  function ThreadsPerGroup(d: GeneralDispatcher): nat
  {
    match d
    case Py2(warps, _, _, _) => warps * 32
    case General2(_) => 384
    case General2S(_) => 256
    case GeneralOneLevel => 256
    case Baseline => 256
    case _ => 128
  }

  /** The destination tile one workgroup of a general dispatcher covers
      when it fills more than one level. */
  function TileOf(d: GeneralDispatcher): (nat, nat)
  {
    match d
    case Py2(_, tileWidth, tileHeight, _) => (tileWidth, tileHeight)
    case General2(_) => (16, 16)
    case General2S(_) => (12, 12)
    case _ => (8, 8)
  }

  /** Workgroups of `n` threads for a `w` x `h` destination level: the
      least count that covers it, unless the count overflows. */
  lemma OneLevelGroups(w: nat, h: nat, n: nat)
    requires 0 < n <= LIMIT && w * h + n - 1 < LIMIT
    ensures var g := Groups(Wrap(w * h), n);
            g * n >= w * h && (g > 0 ==> (g - 1) * n < w * h)
  {
    assert Wrap(w * h) == w * h;
  }

  /** The workgroups of a general dispatcher (all but `baseline` and the
      null one): for one level, the least count of `ThreadsPerGroup` that
      covers the destination level, unless the count overflows; for more
      levels (and always for `general3level`), a grid of tiles that covers
      the deepest destination level along each axis. */
  lemma GeneralGroupsCover(d: GeneralDispatcher, offset: u32, pipelineIfNeeded: Pipeline, s: State)
    requires GeneralWf(d) && d != Baseline && d != GeneralNull && s.remainingLevels >= 1
    ensures var r := GeneralCall(d, offset, pipelineIfNeeded, s);
            var w, h := MipDim(s.currentX, r.levels), MipDim(s.currentY, r.levels);
            var g, n, tile := DispatchedGroups(r.cmds), ThreadsPerGroup(d), TileOf(d);
            && r.Returned? && 1 <= r.levels
            && (r.levels == 1 && !d.General3Level? && w * h + n - 1 < LIMIT ==>
                  g * n >= w * h && (g > 0 ==> (g - 1) * n < w * h))
            && (r.levels >= 2 || d.General3Level? ==>
                  && !d.GeneralOneLevel? && 0 < tile.0 < LIMIT && 0 < tile.1 < LIMIT
                  && g == Wrap(Groups(w, tile.0) * Groups(h, tile.1)))
  {
    var r := GeneralCall(d, offset, pipelineIfNeeded, s);
    var w, h := MipDim(s.currentX, r.levels), MipDim(s.currentY, r.levels);
    var n := ThreadsPerGroup(d);
    if r.levels == 1 && !d.General3Level? && w * h + n - 1 < LIMIT {
      OneLevelGroups(w, h, n);
    }
  }

  /** `baseline` halves the base extents with `cur >= 1 ? cur >> 1 : 1`,
      which is 0 for an extent of 1: a base one texel wide or tall gets a
      dispatch of no workgroups, while any other base small enough not to
      overflow gets at least one. */
  lemma BaselineGroups(offset: u32, pipelineIfNeeded: Pipeline, s: State)
    requires s.currentLevel == 0 && s.currentX < 0x1_0000 && s.currentY < 0x1_0000
    ensures var r := GeneralCall(Baseline, offset, pipelineIfNeeded, s);
            && r.Returned? && r.levels == s.remainingLevels
            && (DispatchedGroups(r.cmds) == 0 <==> s.currentX == 1 || s.currentY == 1)
  {
    var w := if s.currentX >= 1 then s.currentX / 2 else 1;
    var h := if s.currentY >= 1 then s.currentY / 2 else 1;
    var g := Groups(Wrap(w * h), 256);
    ProductGroups(w, h);
    var cmds := Emit(pipelineIfNeeded, offset, s.remainingLevels, g);
    assert GeneralCall(Baseline, offset, pipelineIfNeeded, s) == Returned(s.remainingLevels, cmds);
    assert cmds[|cmds| - 1] == Dispatch(g);
  }

  /** Workgroups of 256 over a `w` x `h` level that fits in 32 bits: none
      exactly when the level is empty. */
  lemma ProductGroups(w: nat, h: nat)
    requires w < 0x1_0000 && h < 0x1_0000
    ensures Groups(Wrap(w * h), 256) == 0 <==> w == 0 || h == 0
  {
    ProductFits(w, h);
    OneLevelGroups(w, h, 256);
    if w >= 1 && h >= 1 {
      MulAtLeast(w, h);
    }
  }

  lemma ProductFits(w: nat, h: nat)
    requires w < 0x1_0000 && h < 0x1_0000
    ensures w * h <= 0xFFFF * 0xFFFF
  {
    MulMono(w, h, 0xFFFF, 0xFFFF);
  }

  lemma MulMono(a: nat, b: nat, c: nat, d: nat)
    requires a <= c && b <= d
    ensures a * b <= c * d
  {
    var k: nat, l: nat := c - a, d - b;
    assert c * d == a * b + a * l + k * d;
  }

  /** The default general dispatcher is the `py2_dispatch_impl<4, 8, 8, 2>`
      instance. */
  lemma Py2DefaultInstance(offset: u32, pipelineIfNeeded: Pipeline, s: State)
    ensures GeneralWf(Py2(4, 8, 8, 2))
    ensures GeneralCall(Py2(4, 8, 8, 2), offset, pipelineIfNeeded, s) == GeneralCall(DefaultGeneral, offset, pipelineIfNeeded, s)
  {
  }

  /** Records one call of a halving fast dispatcher, counting the levels
      with the dispatcher's own loop. */
  method RecordHalving(cmdBuf: CommandBuffer, div: nat, maxLevels: nat, perGroup: nat, perGroupDeep: nat,
                       offset: u32, pipelineIfNeeded: Pipeline, s: State)
    returns (levels: u32)
    requires div > 0 && maxLevels <= 6 && 0 < perGroup <= LIMIT && 0 < perGroupDeep <= LIMIT
    modifies cmdBuf
    ensures levels == HalvingFast(div, maxLevels, perGroup, perGroupDeep, offset, pipelineIfNeeded, s).levels
    ensures cmdBuf.log
            == old(cmdBuf.log) + HalvingFast(div, maxLevels, perGroup, perGroupDeep, offset, pipelineIfNeeded, s).cmds
  {
    if s.currentX % div == 0 && s.currentY % div == 0 {
      cmdBuf.Record(BindIf(pipelineIfNeeded));
      levels := CountEvenHalvings(s.currentX, s.currentY, s.remainingLevels, maxLevels);
      cmdBuf.Record([PushConstant(offset, PushWord(s.currentLevel, levels))]);
      var samples := Wrap(s.currentX * s.currentY);
      var groups := if levels > 5 then Groups(samples, perGroupDeep) else Groups(samples, perGroup);
      cmdBuf.Record([Dispatch(groups)]);
    } else {
      levels := 0;
    }
  }

  /** Records one call of a fast dispatcher into `cmdBuf`. */
  method RecordFast(cmdBuf: CommandBuffer, d: FastDispatcher, offset: u32, pipelineIfNeeded: Pipeline, s: State)
    returns (levels: u32)
    requires FastWf(d)
    modifies cmdBuf
    ensures levels == FastCall(d, offset, pipelineIfNeeded, s).levels
    ensures cmdBuf.log == old(cmdBuf.log) + FastCall(d, offset, pipelineIfNeeded, s).cmds
  {
    match d
    case DefaultFast(div, max) =>
      levels := RecordHalving(cmdBuf, div, max, 1024, 4096, offset, pipelineIfNeeded, s);
    case Workgroup1024(div, max) =>
      levels := RecordHalving(cmdBuf, div, max, 4096, 4096, offset, pipelineIfNeeded, s);
    case NoShared(div, max) =>
      levels := RecordHalving(cmdBuf, div, max, 1024, 1024, offset, pipelineIfNeeded, s);
    case QuadShared(div) =>
      levels := RecordHalving(cmdBuf, div, 6, 4096, 4096, offset, pipelineIfNeeded, s);
    case _ =>
      var r := FastCall(d, offset, pipelineIfNeeded, s);
      cmdBuf.Record(r.cmds);
      levels := r.levels;
  }

  /** Records one call of a general dispatcher into `cmdBuf`; `assertFailed`
      reports the `assert` of `baseline`. */
  method RecordGeneral(cmdBuf: CommandBuffer, d: GeneralDispatcher, offset: u32, pipelineIfNeeded: Pipeline, s: State)
    returns (levels: u32, assertFailed: bool)
    requires GeneralWf(d)
    modifies cmdBuf
    ensures assertFailed == GeneralCall(d, offset, pipelineIfNeeded, s).AssertFailed?
    ensures !assertFailed ==> levels == GeneralCall(d, offset, pipelineIfNeeded, s).levels
    ensures cmdBuf.log == old(cmdBuf.log) + GeneralCall(d, offset, pipelineIfNeeded, s).cmds
  {
    var r := GeneralCall(d, offset, pipelineIfNeeded, s);
    cmdBuf.Record(r.cmds);
    assertFailed := r.AssertFailed?;
    levels := if r.Returned? then r.levels else 0;
  }
}
