/** The demo's set of compiled mipmap pipelines (`ComputeMipmapPipelinesImpl`):
    dictionaries from a shader directory and configuration bits to a compute
    pipeline, the shader prelude each entry is compiled with, and the
    recording of mipmap generation, either the library's typical use or a
    named pipeline alternative, possibly with blits in place of the general
    pipeline. */
module MipmapPipelines {
  import opened MipMath
  import opened Commands
  import opened Optional
  import opened Dispatchers
  import opened PyramidDispatch
  import opened BlitFallback
  import opened BlitFallbackProperties
  import opened PyramidProperties
  import opened PipelineAlternatives
  import opened DispatcherRegistry

  type PipelineKeyType = (string, u32)

  /** The shader directory of a description. */
  function DirName(d: Description): string
  {
    PipelineKey(d).0
  }

  /** The special directories that name no compute pipeline. */
  predicate Skipped(d: Description)
  {
    DirName(d) == "blit" || DirName(d) == "none"
  }

  /** The `assert`s of `addNullPipelineEntry`: "blit" only in a general
      slot, "none" only in a fast slot. */
  predicate SlotAllowed(isFast: bool, d: Description)
  {
    !(isFast && DirName(d) == "blit") && !(!isFast && DirName(d) == "none")
  }

  function Slot(a: Alternative, isFast: bool): Description
  {
    if isFast then a.fast else a.general
  }

  /** The keys the constructor enters for one kind of slot of `table`. */
  function EntryKeys(table: seq<Alternative>, isFast: bool): set<PipelineKeyType>
    decreases |table|
  {
    if table == [] then {}
    else
      var d := Slot(table[|table| - 1], isFast);
      EntryKeys(table[..|table| - 1], isFast) + (if Skipped(d) then {} else {PipelineKey(d)})
  }

  /** A key is entered exactly when some alternative's slot of that kind
      has it and is not special; alternatives sharing a key share one
      entry. */
  lemma {:induction false} EntryKeysSpec(table: seq<Alternative>, isFast: bool, k: PipelineKeyType)
    ensures k in EntryKeys(table, isFast) <==>
              exists i :: 0 <= i < |table| && !Skipped(Slot(table[i], isFast)) && PipelineKey(Slot(table[i], isFast)) == k
    decreases |table|
  {
    if table != [] {
      var front := table[..|table| - 1];
      EntryKeysSpec(front, isFast, k);
      if k in EntryKeys(front, isFast) {
        var i :| 0 <= i < |front| && !Skipped(Slot(front[i], isFast)) && PipelineKey(Slot(front[i], isFast)) == k;
        assert table[i] == front[i];
      }
      if exists i :: 0 <= i < |table| && !Skipped(Slot(table[i], isFast)) && PipelineKey(Slot(table[i], isFast)) == k {
        var i :| 0 <= i < |table| && !Skipped(Slot(table[i], isFast)) && PipelineKey(Slot(table[i], isFast)) == k;
        if i < |front| {
          assert front[i] == table[i];
        }
      }
    }
  }

  lemma EntryKeysStep(table: seq<Alternative>, i: nat, isFast: bool)
    requires i < |table|
    ensures var d := Slot(table[i], isFast);
            EntryKeys(table[..i + 1], isFast) == EntryKeys(table[..i], isFast) + (if Skipped(d) then {} else {PipelineKey(d)})
  {
    assert table[..i + 1][..i] == table[..i];
  }

  /** Every table the preprocessor can produce satisfies the `assert`s of
      `addNullPipelineEntry`: its directories are never misplaced. */
  lemma TableSlotsAllowed(level: nat)
    ensures forall i :: 0 <= i < |Table(level)| ==>
              SlotAllowed(false, Table(level)[i].general) && SlotAllowed(true, Table(level)[i].fast)
  {
    TableDirectories(level);
  }

  lemma TableDirectories(level: nat)
    ensures forall i :: 0 <= i < |Table(level)| ==>
              DirName(Table(level)[i].fast) != "blit" && DirName(Table(level)[i].general) != "none"
  {
    var t := Table(level);
    TableSlots(level);
    forall i | 0 <= i < |t|
      ensures DirName(t[i].fast) != "blit" && DirName(t[i].general) != "none"
    {
      BaseNamesOrdinary(level, i);
    }
  }

  /** No alternative takes its shader from a special directory. */
  lemma BaseNamesOrdinary(level: nat, i: nat)
    requires i < |Table(level)|
    ensures var a := Table(level)[i];
            a.fast.basePipelineName != "blit" && a.general.basePipelineName != "none"
  {
    var head := [ Alternative("default", DefaultDescription, DefaultDescription),
                  Alternative("blit", Named("blit"), Named("none")) ];
    var r := if level != 0 && level != 2 then RelevantAlternatives() else [];
    var m := if level >= 3 then MoreAlternatives() else [];
    var b := if level != 0 && level != 1 then [Alternative("baseline", Named("baseline"), Named("none"))] else [];
    assert Table(level) == head + r + m + b;
    var t := Table(level);
    if i < |head| {
      assert t[i] == head[i];
    } else if i < |head| + |r| {
      assert t[i] == r[i - |head|];
    } else if i < |head| + |r| + |m| {
      assert t[i] == m[i - |head| - |r|];
    } else {
      assert t[i] == b[i - |head| - |r| - |m|];
    }
  }

  const FastAlternativeLine: string := "#define NVPRO_USE_FAST_PIPELINE_ALTERNATIVE_ 1\n"
  const GeneralAlternativeLine: string := "#define NVPRO_USE_GENERAL_PIPELINE_ALTERNATIVE_ 1\n"
  const SrgbSharedLine: string := "#define SRGB_SHARED 1\n"
  // Two literals, so that proofs can read the first word without unfolding
  // the whole line.
  const F16ExtensionLine: string := "#extension " + "GL_EXT_shader_explicit_arithmetic_types : enable\n"
  const F16SharedLine: string := "#define F16_SHARED 1\n"
  const NoBilinearLine: string := "#define USE_BILINEAR_SAMPLING 0\n"

  function AlternativeLine(isFast: bool): string
  {
    if isFast then FastAlternativeLine else GeneralAlternativeLine
  }

  /** The prelude from the four choices it depends on: the alternative
      define, then the configuration defines in their fixed order. */
  function PreludeOf(isFast: bool, alternative: bool, srgbShared: bool, f16Shared: bool, noBilinear: bool): string
  {
    (if alternative then AlternativeLine(isFast) else "")
    + ConfigDefines(srgbShared, f16Shared, noBilinear)
  }

  function ConfigDefines(srgbShared: bool, f16Shared: bool, noBilinear: bool): string
  {
    (if srgbShared then SrgbSharedLine else "")
    + (if f16Shared then F16ExtensionLine + F16SharedLine else "")
    + (if noBilinear then NoBilinearLine else "")
  }

  /** The text prepended to the shader source of a pipeline entry. */
  function Prelude(isFast: bool, dirname: string, configBits: u32): string
  {
    PreludeOf(isFast, dirname != "default", HasFlag(configBits, SrgbSharedBit),
              HasFlag(configBits, F16SharedBit), HasFlag(configBits, NoBilinearBit))
  }

  /** The prelude as `compilePipelineEntry` builds it, with `+=`. */
  method BuildPrelude(isFast: bool, dirname: string, configBits: u32) returns (prepend: string)
    ensures prepend == Prelude(isFast, dirname, configBits)
  {
    var srgb, f16, noBilinear := HasFlag(configBits, SrgbSharedBit), HasFlag(configBits, F16SharedBit),
                                 HasFlag(configBits, NoBilinearBit);
    ghost var head := if dirname != "default" then AlternativeLine(isFast) else "";
    ghost var a := if srgb then SrgbSharedLine else "";
    ghost var b := if f16 then F16ExtensionLine + F16SharedLine else "";
    ghost var c := if noBilinear then NoBilinearLine else "";
    prepend := "";
    if dirname != "default" {
      prepend := AlternativeLine(isFast);
    }
    assert prepend == head;
    if srgb {
      prepend := prepend + SrgbSharedLine;
    }
    assert prepend == head + a;
    if f16 {
      prepend := prepend + F16ExtensionLine;
      prepend := prepend + F16SharedLine;
      AppendAssoc(head + a, F16ExtensionLine, F16SharedLine);
    }
    assert prepend == head + a + b;
    if noBilinear {
      prepend := prepend + NoBilinearLine;
    }
    assert prepend == head + a + b + c;
    AppendAssoc(head, a + b, c);
    AppendAssoc(head, a, b);
  }

  /** The library's own shader with no configuration bits gets an empty
      prelude. */
  lemma PreludeOfDefault(isFast: bool)
    ensures Prelude(isFast, "default", 0) == ""
  {
  }

  /** The prelude opens with the define that selects the alternative
      implementation exactly when the shader directory is not "default". */
  lemma PreludeSelectsAlternative(isFast: bool, dirname: string, configBits: u32)
    ensures AlternativeLine(isFast) <= Prelude(isFast, dirname, configBits) <==> dirname != "default"
  {
    var srgb, f16, noBilinear := HasFlag(configBits, SrgbSharedBit), HasFlag(configBits, F16SharedBit),
                                 HasFlag(configBits, NoBilinearBit);
    if dirname == "default" {
      ConfigDefinesStart(srgb, f16, noBilinear);
      assert AlternativeLine(isFast)[8] == 'N';
    }
  }

  /** No configuration define can be mistaken for the alternative define:
      they differ at index 8. */
  lemma ConfigDefinesStart(srgbShared: bool, f16Shared: bool, noBilinear: bool)
    ensures var d := ConfigDefines(srgbShared, f16Shared, noBilinear);
            d == "" || (|d| > 8 && d[8] != 'N')
  {
    var a := if srgbShared then SrgbSharedLine else "";
    var b := if f16Shared then F16ExtensionLine + F16SharedLine else "";
    var c := if noBilinear then NoBilinearLine else "";
    var d := a + b + c;
    if a != "" {
      assert d[8] == a[8] == 'S';
    } else if b != "" {
      assert F16ExtensionLine[8] == 'o';
      assert b[8] == F16ExtensionLine[8];
      assert d[8] == b[8];
    } else if c != "" {
      assert d[8] == c[8] == 'U';
    }
  }

  /** The barrier after mipmap generation, towards fragment-shader reads. */
  function EndBarrier(lastWasBlit: bool): (c: Command)
    ensures c.Barrier? && c.dstStages == {FragmentShader} && c.dstAccess == {MemoryRead}
    ensures c.srcStages == {Transfer} <==> lastWasBlit
    ensures c.srcAccess == {TransferWrite} <==> lastWasBlit
  {
    var (stage, access) := EndBarrierSource(lastWasBlit);
    Barrier({stage}, {FragmentShader}, {access}, {MemoryRead})
  }

  /** What a call to `cmdBindGenerate` records, and whether it ran to the
      end: `ok` is false where an `assert` failed or `at` found no entry. */
  datatype Recording = Recording(cmds: seq<Command>, ok: bool)

  /** The pipelines typical library use passes: the default entries of both
      dictionaries, if present. */
  function DefaultPipelines(fastMap: map<PipelineKeyType, Pipeline>, generalMap: map<PipelineKeyType, Pipeline>): Option<Pipelines>
  {
    if ("default", 0) in generalMap && ("default", 0) in fastMap
    then Some(Pipelines(fastMap[("default", 0)], generalMap[("default", 0)], 0))
    else None
  }

  /** `cmdBindGenerateDefault`: bind the image's descriptor sets, run the
      scheduler as written with the library's dispatchers on the full chain,
      then make the writes visible to fragment shaders. A failed lookup or a
      scheduler that stops on its assertion (a 1 x 1 image among them)
      records no final barrier. */
  function DefaultRecording(fastMap: map<PipelineKeyType, Pipeline>, generalMap: map<PipelineKeyType, Pipeline>,
                            width: u32, height: u32): (r: Recording)
    ensures r.cmds != [] && r.cmds[0] == BindDescriptorSets
    ensures r.ok ==> r.cmds[|r.cmds| - 1] == EndBarrier(false)
  {
    match DefaultPipelines(fastMap, generalMap)
    case None => Recording([BindDescriptorSets], false)
    case Some(p) =>
      var tail := ScheduleTail(p, DefaultGeneral, Some(DefaultFast(4, 6)), width, height);
      Recording([BindDescriptorSets] + tail.cmds, tail.ok)
  }

  /** What the scheduler path records after the descriptor sets: the
      scheduler's commands on the full chain, then the final barrier on
      compute writes if it ended normally. */
  function ScheduleTail(p: Pipelines, gd: GeneralDispatcher, fd: Option<FastDispatcher>,
                        width: u32, height: u32): (r: Recording)
    requires DispatchersOk(p, gd, fd)
    ensures r.ok ==> r.cmds != [] && r.cmds[|r.cmds| - 1] == EndBarrier(false)
  {
    var t := ScheduleFromBase(p, gd, fd, width, height, 0);
    if t.completed then Recording(t.log + [EndBarrier(false)], true) else Recording(t.log, false)
  }

  /** What the blit path records after the descriptor sets: the fast
      pipeline's bind if there is one, the blit loop, then the final
      barrier, on transfer writes when a blit filled the last level. */
  function BlitTail(fastPipeline: Pipeline, fd: Option<FastDispatcher>,
                    width: u32, height: u32, levelCount: u32): (tail: seq<Command>)
    requires fd.Some? ==> FastWf(fd.value)
    ensures var t := BlitLoop(fd, BlitStart(levelCount, width, height));
            tail != [] && tail[|tail| - 1] == EndBarrier(LastWasBlit(t))
  {
    var t := BlitLoop(fd, BlitStart(levelCount, width, height));
    BindIf(fastPipeline) + t.log + [EndBarrier(LastWasBlit(t))]
  }

  /** The fast pipeline and dispatcher an alternative asks for: none for
      "none", otherwise the entry under its key and the dispatcher under its
      name, or a failed lookup. */
  function FastChoice(fastMap: map<PipelineKeyType, Pipeline>, fastReg: map<string, FastDispatcher>,
                      d: Description): (c: Option<(Pipeline, Option<FastDispatcher>)>)
    ensures d.name == "none" ==> c == Some((NullPipeline, None))
    ensures c.None? <==> d.name != "none" && (PipelineKey(d) !in fastMap || d.name !in fastReg)
    ensures c.Some? && c.value.1.Some? ==> d.name in fastReg && c.value.1.value == fastReg[d.name]
  {
    if d.name == "none" then Some((NullPipeline, None))
    else if PipelineKey(d) in fastMap && d.name in fastReg then Some((fastMap[PipelineKey(d)], Some(fastReg[d.name])))
    else None
  }

  /** `cmdBindGenerateAlternative`: the scheduler as written with the
      named dispatchers, or the blit loop as written, which always runs at
      least one iteration; its final barrier waits on transfer writes when
      a blit filled the last level. */
  function AlternativeRecording(fastMap: map<PipelineKeyType, Pipeline>, generalMap: map<PipelineKeyType, Pipeline>,
                                fastReg: map<string, FastDispatcher>, generalReg: map<string, GeneralDispatcher>,
                                alt: Alternative, width: u32, height: u32, levelCount: u32): (r: Recording)
    requires forall n :: n in fastReg ==> FastWf(fastReg[n])
    requires forall n :: n in generalReg ==> GeneralWf(generalReg[n])
    ensures r.cmds != [] && r.cmds[0] == BindDescriptorSets
    ensures r.ok ==> var last := r.cmds[|r.cmds| - 1];
                     last.Barrier? && last.dstStages == {FragmentShader} && last.dstAccess == {MemoryRead}
    ensures alt.general.name == "blit" && FastChoice(fastMap, fastReg, alt.fast).Some? ==>
              var t := BlitLoop(FastChoice(fastMap, fastReg, alt.fast).value.1, BlitStart(levelCount, width, height));
              r.ok && r.cmds[|r.cmds| - 1] == EndBarrier(LastWasBlit(t))
  {
    match FastChoice(fastMap, fastReg, alt.fast)
    case None => Recording([BindDescriptorSets], false)
    case Some((fastPipeline, fd)) =>
      if alt.general.name != "blit" then
        if PipelineKey(alt.general) !in generalMap || alt.general.name !in generalReg then
          Recording([BindDescriptorSets], false)
        else
          var p := Pipelines(fastPipeline, generalMap[PipelineKey(alt.general)], 0);
          var tail := ScheduleTail(p, generalReg[alt.general.name], fd, width, height);
          Recording([BindDescriptorSets] + tail.cmds, tail.ok)
      else
        Recording([BindDescriptorSets] + BlitTail(fastPipeline, fd, width, height, levelCount), true)
  }

  /** `cmdBindGenerate` takes the typical path exactly when both slots are
      the library default without configuration bits. */
  predicate UsingAlternative(alt: Alternative)
  {
    alt.fast.name != "default" || alt.fast.configBits != 0
    || alt.general.name != "default" || alt.general.configBits != 0
  }

  /** What `cmdBindGenerate` records for an alternative. */
  function GenerateRecording(fastMap: map<PipelineKeyType, Pipeline>, generalMap: map<PipelineKeyType, Pipeline>,
                             fastReg: map<string, FastDispatcher>, generalReg: map<string, GeneralDispatcher>,
                             alt: Alternative, width: u32, height: u32, levelCount: u32): (r: Recording)
    requires forall n :: n in fastReg ==> FastWf(fastReg[n])
    requires forall n :: n in generalReg ==> GeneralWf(generalReg[n])
    ensures !UsingAlternative(alt) ==> r == DefaultRecording(fastMap, generalMap, width, height)
    ensures UsingAlternative(alt) ==>
              r == AlternativeRecording(fastMap, generalMap, fastReg, generalReg, alt, width, height, levelCount)
  {
    if UsingAlternative(alt) then AlternativeRecording(fastMap, generalMap, fastReg, generalReg, alt, width, height, levelCount)
    else DefaultRecording(fastMap, generalMap, width, height)
  }

  /** The promise `cmdBindGenerate` makes for every alternative: the
      descriptor sets come first, and a recording that runs to the end
      closes with the barrier that makes its writes visible to fragment
      shaders, waiting on transfer writes on the blit route exactly when a
      blit filled the last level. */
  lemma GenerateRecordingBarriers(fastMap: map<PipelineKeyType, Pipeline>, generalMap: map<PipelineKeyType, Pipeline>,
                                  fastReg: map<string, FastDispatcher>, generalReg: map<string, GeneralDispatcher>,
                                  alt: Alternative, width: u32, height: u32, levelCount: u32)
    requires forall n :: n in fastReg ==> FastWf(fastReg[n])
    requires forall n :: n in generalReg ==> GeneralWf(generalReg[n])
    ensures var r := GenerateRecording(fastMap, generalMap, fastReg, generalReg, alt, width, height, levelCount);
            && r.cmds != [] && r.cmds[0] == BindDescriptorSets
            && (r.ok ==> var last := r.cmds[|r.cmds| - 1];
                         last.Barrier? && last.dstStages == {FragmentShader} && last.dstAccess == {MemoryRead})
    ensures UsingAlternative(alt) && alt.general.name == "blit" && FastChoice(fastMap, fastReg, alt.fast).Some? ==>
              var r := GenerateRecording(fastMap, generalMap, fastReg, generalReg, alt, width, height, levelCount);
              var t := BlitLoop(FastChoice(fastMap, fastReg, alt.fast).value.1, BlitStart(levelCount, width, height));
              r.ok && r.cmds != [] && (r.cmds[|r.cmds| - 1].srcStages == {Transfer} <==> LastWasBlit(t))
  {
    if UsingAlternative(alt) {
      var r := AlternativeRecording(fastMap, generalMap, fastReg, generalReg, alt, width, height, levelCount);
      if r.ok {
        var last := r.cmds[|r.cmds| - 1];
        assert last.Barrier? && last.dstStages == {FragmentShader} && last.dstAccess == {MemoryRead};
      }
    } else {
      var r := DefaultRecording(fastMap, generalMap, width, height);
      if r.ok {
        var e := EndBarrier(false);
        assert e.Barrier? && e.dstStages == {FragmentShader} && e.dstAccess == {MemoryRead};
      }
    }
  }

  /** Entry 0 of the table takes the typical path and entry 1 does not. */
  lemma TableRouting(level: nat)
    ensures !UsingAlternative(Table(level)[DefaultAlternativeIndex])
    ensures UsingAlternative(Table(level)[BlitAlternativeIndex])
  {
    TableHead(level);
  }

  /** An alternative whose fast pipeline or dispatcher cannot be found
      stops right after binding the descriptor sets, whatever its general
      slot asks for. */
  lemma MissingFastEntryFails(fastMap: map<PipelineKeyType, Pipeline>, generalMap: map<PipelineKeyType, Pipeline>,
                              fastReg: map<string, FastDispatcher>, generalReg: map<string, GeneralDispatcher>,
                              alt: Alternative, width: u32, height: u32, levelCount: u32)
    requires forall n :: n in fastReg ==> FastWf(fastReg[n])
    requires forall n :: n in generalReg ==> GeneralWf(generalReg[n])
    requires alt.fast.name != "none"
    requires PipelineKey(alt.fast) !in fastMap || alt.fast.name !in fastReg
    ensures var r := AlternativeRecording(fastMap, generalMap, fastReg, generalReg, alt, width, height, levelCount);
            !r.ok && r.cmds == [BindDescriptorSets]
  {
  }

  /** The same for the general slot, unless it asks for blits. */
  lemma MissingGeneralEntryFails(fastMap: map<PipelineKeyType, Pipeline>, generalMap: map<PipelineKeyType, Pipeline>,
                                 fastReg: map<string, FastDispatcher>, generalReg: map<string, GeneralDispatcher>,
                                 alt: Alternative, width: u32, height: u32, levelCount: u32)
    requires forall n :: n in fastReg ==> FastWf(fastReg[n])
    requires forall n :: n in generalReg ==> GeneralWf(generalReg[n])
    requires alt.general.name != "blit"
    requires PipelineKey(alt.general) !in generalMap || alt.general.name !in generalReg
    ensures var r := AlternativeRecording(fastMap, generalMap, fastReg, generalReg, alt, width, height, levelCount);
            !r.ok && r.cmds == [BindDescriptorSets]
  {
  }

  /** The pipeline is looked up under the base directory but the dispatcher
      under the alternative's own name: "levels_1_5" runs the default fast
      shader with a dispatcher that stops after five levels and needs only
      even dimensions. */
  lemma LookupKeysDiffer()
    ensures var d := Table(1)[7].fast;
            && d.name == "levels_1_5" && PipelineKey(d) == ("default", 0)
            && RegisteredFast()[d.name] == DefaultFast(2, 5) != RegisteredFast()["default"]
  {
    var r := RelevantAlternatives();
    assert Table(1)[7] == r[5];
  }

  /** Every `Table` enters the library default under both dictionaries. */
  lemma DefaultKeysEntered(level: nat)
    ensures ("default", 0) in EntryKeys(Table(level), true)
    ensures ("default", 0) in EntryKeys(Table(level), false)
  {
    var t := Table(level);
    TableHead(level);
    assert !Skipped(Slot(t[0], true)) && PipelineKey(Slot(t[0], true)) == ("default", 0);
    assert !Skipped(Slot(t[0], false)) && PipelineKey(Slot(t[0], false)) == ("default", 0);
    EntryKeysSpec(t, true, ("default", 0));
    EntryKeysSpec(t, false, ("default", 0));
  }

  /** With every dictionary entry a `Table` can require, the typical path
      on an image with a level below the base finds both default pipelines
      and runs to the end: the descriptor sets first, the final barrier on
      compute writes last. */
  lemma DefaultPathCompletes(level: nat, compiled: (bool, PipelineKeyType) -> Pipeline, width: u32, height: u32)
    requires width >= 1 && height >= 1 && (width >= 2 || height >= 2)
    ensures var fastMap := map k | k in EntryKeys(Table(level), true) :: compiled(true, k);
            var generalMap := map k | k in EntryKeys(Table(level), false) :: compiled(false, k);
            var r := DefaultRecording(fastMap, generalMap, width, height);
            && r.ok && r.cmds[0] == BindDescriptorSets && r.cmds[|r.cmds| - 1] == EndBarrier(false)
  {
    DefaultKeysEntered(level);
    var fastMap := map k | k in EntryKeys(Table(level), true) :: compiled(true, k);
    var generalMap := map k | k in EntryKeys(Table(level), false) :: compiled(false, k);
    var p := Pipelines(fastMap[("default", 0)], generalMap[("default", 0)], 0);
    var top := Max(width, height);
    assert BitLength(top) == 1 + BitLength(top / 2);
    BitLengthMono(1, top / 2);
    PyramidFromBase(p, DefaultGeneral, Some(DefaultFast(4, 6)), width, height, 0);
  }

  /** On a 1 x 1 image, whose only level is the base, the same path stops
      on the scheduler's assertion after binding the descriptor sets and
      records no final barrier. */
  lemma DefaultPathOneTexelFails(level: nat, compiled: (bool, PipelineKeyType) -> Pipeline)
    ensures var fastMap := map k | k in EntryKeys(Table(level), true) :: compiled(true, k);
            var generalMap := map k | k in EntryKeys(Table(level), false) :: compiled(false, k);
            var r := DefaultRecording(fastMap, generalMap, 1, 1);
            && !r.ok && r.cmds[0] == BindDescriptorSets
  {
    DefaultKeysEntered(level);
    var fastMap := map k | k in EntryKeys(Table(level), true) :: compiled(true, k);
    var generalMap := map k | k in EntryKeys(Table(level), false) :: compiled(false, k);
    var p := Pipelines(fastMap[("default", 0)], generalMap[("default", 0)], 0);
    OneLevelChainFails(p, DefaultGeneral, Some(DefaultFast(4, 6)), 1, 1);
  }

  /** The blit alternative (blits, no fast pipeline) always runs to the
      end, and every iteration is a blit, so its final barrier waits on
      transfer writes whatever the level count, the one-level image
      included. */
  lemma BlitAlternativeEndBarrier(fastMap: map<PipelineKeyType, Pipeline>, generalMap: map<PipelineKeyType, Pipeline>,
                                  fastReg: map<string, FastDispatcher>, generalReg: map<string, GeneralDispatcher>,
                                  level: nat, width: u32, height: u32, levelCount: u32)
    requires forall n :: n in fastReg ==> FastWf(fastReg[n])
    requires forall n :: n in generalReg ==> GeneralWf(generalReg[n])
    ensures var r := AlternativeRecording(fastMap, generalMap, fastReg, generalReg, Table(level)[BlitAlternativeIndex],
                                          width, height, levelCount);
            && r.ok && r.cmds[|r.cmds| - 1] == EndBarrier(true)
  {
    TableHead(level);
    var s := BlitStart(levelCount, width, height);
    var t := BlitLoop(None, s);
    BlitStepIsIterate(None, s, |t.steps| - 1);
    assert LastWasBlit(t);
  }

  /** On a 1 x 1 image the blit alternative's first command after the
      descriptor sets blits the base onto a level 1 the image does not
      have. */
  lemma BlitAlternativeOneLevelOverruns(fastMap: map<PipelineKeyType, Pipeline>, generalMap: map<PipelineKeyType, Pipeline>,
                                        fastReg: map<string, FastDispatcher>, generalReg: map<string, GeneralDispatcher>,
                                        level: nat)
    requires forall n :: n in fastReg ==> FastWf(fastReg[n])
    requires forall n :: n in generalReg ==> GeneralWf(generalReg[n])
    ensures var r := AlternativeRecording(fastMap, generalMap, fastReg, generalReg, Table(level)[BlitAlternativeIndex],
                                          1, 1, 1);
            && r.cmds[0] == BindDescriptorSets && r.cmds[1] == Blit(0, 1, 1, 1, 1, 1)
  {
    TableHead(level);
    BlitOneLevelOverruns();
  }

  /** The scheduler path after the descriptor sets, recording into
      `cmdBuf`. */
  method RecordScheduleTail(cmdBuf: CommandBuffer, p: Pipelines, gd: GeneralDispatcher, fd: Option<FastDispatcher>,
                            width: u32, height: u32) returns (ok: bool)
    requires DispatchersOk(p, gd, fd)
    modifies cmdBuf
    ensures cmdBuf.log == old(cmdBuf.log) + ScheduleTail(p, gd, fd, width, height).cmds
    ensures ok == ScheduleTail(p, gd, fd, width, height).ok
  {
    ghost var t := ScheduleFromBase(p, gd, fd, width, height, 0);
    ok := CmdPyramidDispatch(cmdBuf, p, width, height, 0, gd, fd);
    if ok {
      cmdBuf.Record([EndBarrier(false)]);
      AppendAssoc(old(cmdBuf.log), t.log, [EndBarrier(false)]);
    }
  }

  /** The blit path after the descriptor sets, recording into `cmdBuf`. */
  method RecordBlitTail(cmdBuf: CommandBuffer, fastPipeline: Pipeline, fd: Option<FastDispatcher>,
                        width: u32, height: u32, levelCount: u32)
    requires fd.Some? ==> FastWf(fd.value)
    modifies cmdBuf
    ensures cmdBuf.log == old(cmdBuf.log) + BlitTail(fastPipeline, fd, width, height, levelCount)
  {
    cmdBuf.Record(BindIf(fastPipeline));
    var s := BlitStart(levelCount, width, height);
    ghost var t := BlitLoop(fd, s);
    var lastWasBlit := RunBlitLoop(cmdBuf, fd, s);
    cmdBuf.Record([EndBarrier(lastWasBlit)]);
    AppendAssoc(old(cmdBuf.log), BindIf(fastPipeline), t.log);
    AppendAssoc(old(cmdBuf.log), BindIf(fastPipeline) + t.log, [EndBarrier(lastWasBlit)]);
  }

  /** `ComputeMipmapPipelinesImpl`: the fast and general pipeline
      dictionaries. */
  class ComputeMipmapPipelines {
    var fastPipelineMap: map<PipelineKeyType, Pipeline>
    var generalPipelineMap: map<PipelineKeyType, Pipeline>

    /** `addNullPipelineEntry`: enter the key of `d` with a null handle
        unless its directory is special; `assertHolds` is false where the
        `assert` on a special directory fails. */
    method AddNullPipelineEntry(isFast: bool, d: Description) returns (assertHolds: bool)
      modifies this
      ensures assertHolds <==> SlotAllowed(isFast, d)
      ensures Skipped(d) || !isFast ==> fastPipelineMap == old(fastPipelineMap)
      ensures Skipped(d) || isFast ==> generalPipelineMap == old(generalPipelineMap)
      ensures !Skipped(d) && isFast ==> fastPipelineMap == old(fastPipelineMap)[PipelineKey(d) := NullPipeline]
      ensures !Skipped(d) && !isFast ==> generalPipelineMap == old(generalPipelineMap)[PipelineKey(d) := NullPipeline]
    {
      var dirname := if d.basePipelineName == "" then d.name else d.basePipelineName;
      if dirname == "blit" {
        return !isFast;
      }
      if dirname == "none" {
        return isFast;
      }
      if isFast {
        fastPipelineMap := fastPipelineMap[(dirname, d.configBits) := NullPipeline];
      } else {
        generalPipelineMap := generalPipelineMap[(dirname, d.configBits) := NullPipeline];
      }
      return true;
    }

    /** Gather one entry per distinct key of `table`, general slot first,
        then compile every entry; `compiled` stands for the pipeline
        `makeComputePipeline` creates for a kind and key. */
    constructor (table: seq<Alternative>, compiled: (bool, PipelineKeyType) -> Pipeline)
      requires forall i :: 0 <= i < |table| ==> SlotAllowed(false, table[i].general) && SlotAllowed(true, table[i].fast)
      ensures fastPipelineMap == map k | k in EntryKeys(table, true) :: compiled(true, k)
      ensures generalPipelineMap == map k | k in EntryKeys(table, false) :: compiled(false, k)
    {
      fastPipelineMap := map[];
      generalPipelineMap := map[];
      new;
      AddNullPipelineEntries(table);
      fastPipelineMap := map k | k in fastPipelineMap :: compiled(true, k);
      generalPipelineMap := map k | k in generalPipelineMap :: compiled(false, k);
    }

    /** The constructor's loop over the table: after it, each dictionary
        holds exactly the keys of its kind of slot. */
    method AddNullPipelineEntries(table: seq<Alternative>)
      requires fastPipelineMap == map[] && generalPipelineMap == map[]
      modifies this
      ensures fastPipelineMap.Keys == EntryKeys(table, true)
      ensures generalPipelineMap.Keys == EntryKeys(table, false)
    {
      var i := 0;
      while i < |table|
        invariant 0 <= i <= |table|
        invariant fastPipelineMap.Keys == EntryKeys(table[..i], true)
        invariant generalPipelineMap.Keys == EntryKeys(table[..i], false)
      {
        EntryKeysStep(table, i, true);
        EntryKeysStep(table, i, false);
        var okGeneral := AddNullPipelineEntry(false, table[i].general);
        var okFast := AddNullPipelineEntry(true, table[i].fast);
        i := i + 1;
      }
      assert table[..i] == table;
    }

    /** `cmdBindGenerateDefault`, recording into `cmdBuf`. */
    method CmdBindGenerateDefault(cmdBuf: CommandBuffer, width: u32, height: u32) returns (ok: bool)
      modifies cmdBuf
      ensures cmdBuf.log == old(cmdBuf.log) + DefaultRecording(fastPipelineMap, generalPipelineMap, width, height).cmds
      ensures ok == DefaultRecording(fastPipelineMap, generalPipelineMap, width, height).ok
    {
      cmdBuf.Record([BindDescriptorSets]);
      if ("default", 0) !in generalPipelineMap || ("default", 0) !in fastPipelineMap {
        return false;
      }
      var p := Pipelines(fastPipelineMap[("default", 0)], generalPipelineMap[("default", 0)], 0);
      ok := RecordScheduleTail(cmdBuf, p, DefaultGeneral, Some(DefaultFast(4, 6)), width, height);
      AppendAssoc(old(cmdBuf.log), [BindDescriptorSets], ScheduleTail(p, DefaultGeneral, Some(DefaultFast(4, 6)), width, height).cmds);
    }

    /** `cmdBindGenerate`: the typical path for the library default,
        `cmdBindGenerateAlternative` for anything else. */
    method CmdBindGenerate(cmdBuf: CommandBuffer, registry: Registry, alt: Alternative,
                           width: u32, height: u32, levelCount: u32) returns (ok: bool)
      requires registry.Valid()
      modifies cmdBuf
      ensures var r := GenerateRecording(fastPipelineMap, generalPipelineMap, registry.fast, registry.general,
                                         alt, width, height, levelCount);
              cmdBuf.log == old(cmdBuf.log) + r.cmds && ok == r.ok
    {
      var usingAlternative := alt.fast.name != "default" || alt.fast.configBits != 0
                              || alt.general.name != "default" || alt.general.configBits != 0;
      if usingAlternative {
        ok := CmdBindGenerateAlternative(cmdBuf, registry, alt, width, height, levelCount);
      } else {
        ok := CmdBindGenerateDefault(cmdBuf, width, height);
      }
    }

    /** `cmdBindGenerateAlternative`, recording into `cmdBuf`; `levelCount`
        is the image's own level count, which only the blit path reads. */
    method CmdBindGenerateAlternative(cmdBuf: CommandBuffer, registry: Registry, alt: Alternative,
                                      width: u32, height: u32, levelCount: u32) returns (ok: bool)
      requires registry.Valid()
      modifies cmdBuf
      ensures var r := AlternativeRecording(fastPipelineMap, generalPipelineMap, registry.fast, registry.general,
                                            alt, width, height, levelCount);
              cmdBuf.log == old(cmdBuf.log) + r.cmds && ok == r.ok
    {
      cmdBuf.Record([BindDescriptorSets]);
      var fastPipeline := NullPipeline;
      var fd: Option<FastDispatcher> := None;
      if alt.fast.name != "none" {
        var key := PipelineKey(alt.fast);
        if key !in fastPipelineMap {
          return false;
        }
        fastPipeline := fastPipelineMap[key];
        fd := registry.GetFast(alt.fast.name);
        if fd.None? {
          return false;
        }
      }
      if alt.general.name != "blit" {
        var key := PipelineKey(alt.general);
        if key !in generalPipelineMap {
          return false;
        }
        var gd := registry.GetGeneral(alt.general.name);
        if gd.None? {
          return false;
        }
        var p := Pipelines(fastPipeline, generalPipelineMap[key], 0);
        ok := RecordScheduleTail(cmdBuf, p, gd.value, fd, width, height);
        AppendAssoc(old(cmdBuf.log), [BindDescriptorSets], ScheduleTail(p, gd.value, fd, width, height).cmds);
      } else {
        RecordBlitTail(cmdBuf, fastPipeline, fd, width, height, levelCount);
        AppendAssoc(old(cmdBuf.log), [BindDescriptorSets], BlitTail(fastPipeline, fd, width, height, levelCount));
        ok := true;
      }
    }
  }
}
