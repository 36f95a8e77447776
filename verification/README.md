# vk_compute_mipmaps, host side, in Dafny

This project models the integer core of `vk_compute_mipmaps` and proves properties of the model. It covers:

- **`nvpro_pyramid` dispatch scheduler.** `nvproCmdPyramidDispatch` records compute dispatches that fill a mip pyramid. It does this by repeatedly calling a *fast* dispatcher, which may decline, and a *general* one, which may not. It advances a `NvproPyramidState` cursor (input level, levels still to fill, input extent) and places barriers between the dispatches.
- **Dispatchers.** The default dispatchers and the alternatives under `extras/` whose sources are modelled: `workgroup1024`, `noshared`, `quadshared`, `quad3`, `fixed3levels`, `quad4`, both `onelevel`s, `py2`, `general2`, `general2s`, `general3level`, `baseline` and the null dispatcher.
- **Demo application routing.** The name→dispatcher registry, the pipeline alternative table, the pipeline-map keys and shader prelude, `cmdBindGenerate`, and the blit fallback loop that takes the place of a general dispatcher.
- **`MipmapStorage`.** The CPU reference pyramid: the packed level layout, texel addressing, the worst-difference comparison, the footprint of the reference downsampler, and the per-level TGA file names.
- **Command-line parsing.** The demo's `parseArgs`, and the minimal sample's `Config` together with its decision on whether the fast pipeline can be used.

How the model represents things:

- **Commands.** A recorded Vulkan command buffer is a `CommandBuffer` object whose `log` is the sequence of commands recorded so far.
- **Assertion failures.** A C++ `assert` that fails ends a run with a "not completed" outcome, and the log keeps what had been recorded up to that point.
- **32-bit arithmetic.** `uint32_t` values are the `u32` subset type. Wrap-around is written out with `Wrap` wherever the source can overflow.
- **Loops that update state.** They are `method`s with loop invariants, each proved against a recursive function that states what the loop computes. The properties are lemmas about those functions.

A 4095 × 4095 image has 12 levels, and its level 1 is 2047 × 2047 (`nvpro_pyramid/nvpro_pyramid_dispatch.hpp:118-127`). The level count is the bit length of the larger extent, and each level halves its extent rounding down (`PyramidProperties.ChainExamples`).

## Model

| member | source | states |
|---|---|---|
| MipMath.Wrap | nvpro_pyramid/nvpro_pyramid_dispatch.hpp:168-169 | `uint32_t` arithmetic: within range a value is kept; one wrap above or below range subtracts or adds 2^32 |
| MipMath.Shr | nvpro_pyramid/nvpro_pyramid_dispatch.hpp:170-173 | a right shift never grows a value, and a shift of at least one bit at least halves it |
| MipMath.MipDim | nvpro_pyramid/nvpro_pyramid_dispatch.hpp:170-173 | `max(1, x >> k)` is never 0, never exceeds a nonzero base and stays in 32 bits |
| MipMath.NextMipDim | include/mipmap_storage.hpp:63-65 | `x >> 1 \| (x == 1)` stays in [1, x] for x ≥ 1 and strictly shrinks every extent ≥ 2 |
| MipMath.Groups | nvpro_pyramid/nvpro_pyramid_dispatch.hpp:224-229 | `(items + n - 1) / n` in 32 bits is the least workgroup count covering the items whenever the sum does not overflow |
| MipMath.MipDimCompose | nvpro_pyramid/nvpro_pyramid_dispatch.hpp:168-173 | advancing a levels and then b levels gives the same extent as advancing a + b levels at once |
| MipMath.NextMipDimIsMipDim | include/mipmap_storage.hpp:57-69 | the storage constructor's one-level step and the scheduler's shift-and-clamp produce the same chain of extents |
| MipMath.BitLengthTop | nvpro_pyramid/nvpro_pyramid_dispatch.hpp:118-127 | for n ≥ 1 the level-counting loop runs at least once, and shifting n right by one less than its count leaves exactly 1 |
| MipMath.LevelCountBound | nvpro_pyramid/nvpro_pyramid_dispatch.hpp:118-127 | the computed level count of any 32-bit extent fits in `uint32_t` |
| MipMath.LevelCountPositive | nvpro_pyramid/nvpro_pyramid_dispatch.hpp:118-127 | an image with a nonzero extent has at least one level |
| MipMath.LevelCountIsFullChain | nvpro_pyramid/nvpro_pyramid_dispatch.hpp:118-127 | the counted chain ends at a 1 × 1 level, and the level before it (if any) is not 1 × 1: the count is exactly the full pyramid |
| Commands.CommandBuffer.constructor | nvpro_pyramid/nvpro_pyramid_dispatch.hpp:106-113 | a command buffer starts with an empty log |
| Commands.CommandBuffer.Record | nvpro_pyramid/nvpro_pyramid_dispatch.hpp:177-180 | recording appends exactly the given commands to the log |
| Dispatchers.PushWordDecode | nvpro_pyramid/nvpro_pyramid_dispatch.hpp:221-222 | `srcLevel << 5 \| levels` with levels < 32 decodes back: the low five bits are the level count and the rest is the input level modulo 2^27 |
| Dispatchers.Emit | nvpro_pyramid/nvpro_pyramid_dispatch.hpp:203-229 | a dispatch records a bind only when its handle is not null, then one push constant at the layout offset, then one dispatch |
| Dispatchers.OneDispatchHasNoBarrier | nvpro_pyramid/nvpro_pyramid_dispatch.hpp:78-81 | what a dispatcher records contains no barrier |
| Dispatchers.EvenHalvings | nvpro_pyramid/nvpro_pyramid_dispatch.hpp:212-220 | the halving count never exceeds its cap, both extents stay even through every counted halving, and the count stops below the cap only at an odd extent |
| Dispatchers.CountEvenHalvings | nvpro_pyramid/nvpro_pyramid_dispatch.hpp:212-220 | the counting `while` loop returns the halving count capped by `remainingLevels` and `MaxLevels` |
| Dispatchers.HalvingFast | nvpro_pyramid/nvpro_pyramid_dispatch.hpp:189-233 | a halving fast dispatcher declines (no levels, no commands) iff an extent is not a multiple of the divisibility; otherwise it fills at most min(remaining, max) levels through which both extents halve exactly, in one dispatch with the packed word; with an even divisibility, levels to fill and a positive cap, a dispatch always fills at least one level |
| Dispatchers.FixedFast | extras/fast_pipelines/quad3/quad3.cpp:4-34 | a fixed-depth fast dispatcher fills exactly its depth iff both extents are multiples of 2^depth and enough levels remain; otherwise it fills nothing and records nothing |
| Dispatchers.HalvingCall | nvpro_pyramid/nvpro_pyramid_dispatch.hpp:189-233 | every halving fast dispatcher fills at most min(remaining, 6) levels through which both extents halve exactly, in one dispatch with the packed word, and records nothing when it fills nothing |
| Dispatchers.FixedDepthCall | extras/fast_pipelines/quad4/quad4.cpp:4-30 | a fixed-depth fast dispatcher fills at most 4 levels, never more than remain (except the fast `onelevel`, which fills at most 1), records one dispatch with the packed word exactly when it fills, and only through exact halvings |
| Dispatchers.FastCall | nvpro_pyramid/nvpro_pyramid_dispatch.hpp:78-92 | the fast-dispatcher contract: it never fails, never fills more than remain (when any remain), records nothing when it fills nothing, and the null dispatcher records nothing |
| Dispatchers.FastCallShape | nvpro_pyramid/nvpro_pyramid_dispatch.hpp:78-96 | a fast dispatcher other than null fills only levels through which both extents halve exactly, and records one dispatch carrying the packed input level and level count |
| Dispatchers.DefaultFastGate | nvpro_pyramid/nvpro_pyramid_dispatch.hpp:189-233 | the default fast dispatcher declines (no levels, no commands) iff an extent is not a multiple of the divisibility, and never fills more than its template cap |
| Dispatchers.Workgroup1024Gate | extras/fast_pipelines/workgroup1024/workgroup1024.cpp:4-45 | `workgroup1024` declines iff an extent is not a multiple of the divisibility, and never fills more than its template cap |
| Dispatchers.NoSharedGate | extras/fast_pipelines/noshared/noshared.cpp:4-45 | `noshared` declines iff an extent is not a multiple of the divisibility, and fills at most its cap, which is at most 3 |
| Dispatchers.QuadSharedGate | extras/fast_pipelines/quadshared/quadshared.cpp:4-45 | `quadshared` declines iff an extent is not a multiple of the divisibility, and fills at most 6 levels |
| Dispatchers.Quad3Gate | extras/fast_pipelines/quad3/quad3.cpp:4-34 | `quad3` fills 3 levels or none: 3 exactly when both extents halve exactly three times (are multiples of 8) and at least 3 levels remain |
| Dispatchers.Fixed3LevelsGate | extras/fast_pipelines/fixed3levels/fixed3levels.cpp:4-32 | `fixed3levels` fills 3 levels or none: 3 exactly when both extents are multiples of 8 and at least 3 levels remain |
| Dispatchers.Quad4Gate | extras/fast_pipelines/quad4/quad4.cpp:4-30 | `quad4` fills 4 levels or none: 4 exactly when both extents are multiples of 16 and at least 4 levels remain |
| Dispatchers.FastOneLevelGate | extras/fast_pipelines/onelevel/onelevel.cpp:4-29 | the fast `onelevel` fills one level or none: one exactly when both extents are even, whatever remains |
| Dispatchers.GeneralCall | nvpro_pyramid/nvpro_pyramid_dispatch.hpp:238-280 | a general dispatcher never fills 0 levels and never more than remain; only `baseline` fails, exactly when the input level is not 0, having recorded only the bind; the null dispatcher records nothing |
| Dispatchers.DefaultGeneralFills | nvpro_pyramid/nvpro_pyramid_dispatch.hpp:246-255 | the default general dispatcher fills min(remaining, 2) levels |
| Dispatchers.General3LevelFills | extras/general_pipelines/general3level/general3level.cpp:4-33 | `general3level` fills min(remaining, 3) levels |
| Dispatchers.GeneralOneLevelFills | extras/general_pipelines/onelevel/onelevel.cpp:4-29 | the general `onelevel` always fills exactly one level |
| Dispatchers.BaselineFills | extras/general_pipelines/baseline/baseline.cpp:3-22 | `baseline` returns exactly when the input level is 0, and then fills all remaining levels at once |
| Dispatchers.Py2Fills | extras/general_pipelines/py2_dispatch_impl.hpp:4-43 | `py2_dispatch_impl` fills min(remaining, MaxLevels) levels |
| Dispatchers.General2Fills | extras/general_pipelines/general2/general2.cpp:4-44 | `general2` fills min(remaining, maxLevels) levels |
| Dispatchers.General2SFills | extras/general_pipelines/general2s/general2s.cpp:4-44 | `general2s` fills min(remaining, maxLevels) levels |
| Dispatchers.NullFills | demo_app/nvpro_pyramid_dispatch_alternative.cpp:61-72 | the null dispatcher, registered as fast or general, claims every remaining level and records nothing |
| Dispatchers.GeneralCallShape | extras/general_pipelines/baseline/baseline.cpp:14-20 | every general dispatcher but null records one dispatch; `baseline` pushes the raw level count, the others the packed word |
| Dispatchers.HalvingGroupsCover | nvpro_pyramid/nvpro_pyramid_dispatch.hpp:224-229 | the halving fast dispatchers launch the least number of workgroups covering the input level (1024 samples per group, or 4096 beyond five levels or for `workgroup1024`/`quadshared`) |
| Dispatchers.GeneralGroupsCover | nvpro_pyramid/nvpro_pyramid_dispatch.hpp:258-278 | for every general dispatcher but `baseline` and null (threads and tile per dispatcher, e.g. `general2` 384 threads and 16 × 16 tiles, `general2s` 256 and 12 × 12): for one level, the least workgroup count covering the destination level; for more levels, a grid of tiles along both axes of the deepest destination |
| Dispatchers.BaselineGroups | extras/general_pipelines/baseline/baseline.cpp:18-20 | `baseline` launches no workgroup at all iff the base is one texel wide or tall, because `cur >= 1 ? cur >> 1 : 1` gives 0 there |
| Dispatchers.Py2DefaultInstance | extras/general_pipelines/py2_dispatch_impl.hpp:4-43 | `py2_dispatch_impl<4, 8, 8, 2>` records and returns exactly what the default general dispatcher does |
| Dispatchers.RecordHalving | nvpro_pyramid/nvpro_pyramid_dispatch.hpp:189-233 | the dispatcher's loop and records give exactly `HalvingFast` |
| Dispatchers.RecordFast | nvpro_pyramid/nvpro_pyramid_dispatch.hpp:142-147 | calling the fast dispatcher records exactly what `FastCall` describes and returns its level count |
| Dispatchers.RecordGeneral | nvpro_pyramid/nvpro_pyramid_dispatch.hpp:155-163 | calling the general dispatcher records exactly what `GeneralCall` describes, and reports its `assert` failure |
| PyramidDispatch.InitialState | nvpro_pyramid/nvpro_pyramid_dispatch.hpp:128-132 | the loop starts at level 0 with the base extents and remaining = requested − 1, which wraps to 2^32 − 1 when no level is requested |
| PyramidDispatch.RequestedLevels | nvpro_pyramid/nvpro_pyramid_dispatch.hpp:114-127 | `mipLevels` when nonzero, else the full-chain count, which is at least 1 for a nonzero base |
| PyramidDispatch.Advance | nvpro_pyramid/nvpro_pyramid_dispatch.hpp:168-173 | the progress update strictly decreases `remainingLevels`, so the loop terminates |
| PyramidDispatch.CountLevels | nvpro_pyramid/nvpro_pyramid_dispatch.hpp:118-127 | the level-counting loop returns the full-chain count, whose last level is 1 × 1 |
| PyramidDispatch.RecordIteration | nvpro_pyramid/nvpro_pyramid_dispatch.hpp:139-167 | one iteration records exactly the iteration's commands (fast call, then the general call if the fast one filled nothing); it reports failure iff 1 ≤ levelsDone ≤ remaining does not hold, and returns the handles for the next iteration |
| PyramidDispatch.RunSchedule | nvpro_pyramid/nvpro_pyramid_dispatch.hpp:137-181 | the `while (1)` loop records exactly the run's log and completes iff the run does |
| PyramidDispatch.CmdPyramidDispatch | nvpro_pyramid/nvpro_pyramid_dispatch.hpp:106-182 | `nvproCmdPyramidDispatch` as written records exactly the run from the initial state |
| PyramidDispatch.CheckedSchedule | nvpro_pyramid/nvpro_pyramid_dispatch.hpp:106-182 | the corrected entry point records nothing and completes when at most one level is requested |
| PyramidDispatch.CmdPyramidDispatchChecked | nvpro_pyramid/nvpro_pyramid_dispatch.hpp:106-182 | the corrected entry point records exactly the checked run |
| PyramidProperties.ScheduleSteps | nvpro_pyramid/nvpro_pyramid_dispatch.hpp:137-181 | the iterations of a run are this iteration followed by those of the run from the advanced state |
| PyramidProperties.IterateAdvances | nvpro_pyramid/nvpro_pyramid_dispatch.hpp:139-167 | an iteration starts at the current state, passes the handle of the kind it uses, passes the asserts iff 1 ≤ levels ≤ remaining, and leaves the other kind's handle armed |
| PyramidProperties.ScheduleChained | nvpro_pyramid/nvpro_pyramid_dispatch.hpp:137-181 | every run has an iteration, consecutive iterations follow the progress update, and a run completes iff its last iteration filled exactly what remained |
| PyramidProperties.ChainRemaining | nvpro_pyramid/nvpro_pyramid_dispatch.hpp:166-169 | remaining levels plus levels filled so far is the initial remaining count |
| PyramidProperties.ChainLevel | nvpro_pyramid/nvpro_pyramid_dispatch.hpp:168-168 | the input level is the initial level plus the levels filled so far |
| PyramidProperties.LevelPlusRemaining | nvpro_pyramid/nvpro_pyramid_dispatch.hpp:61-69 | `currentLevel + remainingLevels` is invariant across the run |
| PyramidProperties.ChainExtents | nvpro_pyramid/nvpro_pyramid_dispatch.hpp:170-173 | the input extents are always the clamped mip extents of the base at the input level |
| PyramidProperties.ChainFills | nvpro_pyramid/nvpro_pyramid_dispatch.hpp:166-176 | a finished chain of iterations fills exactly the initially remaining levels |
| PyramidProperties.ScheduleCompletes | nvpro_pyramid/nvpro_pyramid_dispatch.hpp:164-176 | with at least one level to fill, and `baseline` only without a fast pipeline from level 0, no `assert` fails |
| PyramidProperties.EmptyChainFails | nvpro_pyramid/nvpro_pyramid_dispatch.hpp:164-167 | entering the loop with 0 remaining levels fails an `assert` in the first iteration |
| PyramidProperties.ScheduleLog | nvpro_pyramid/nvpro_pyramid_dispatch.hpp:175-180 | the log is the iterations' commands joined by one compute-to-compute barrier |
| PyramidProperties.StepHasNoBarrier | nvpro_pyramid/nvpro_pyramid_dispatch.hpp:139-163 | no iteration records a barrier itself |
| PyramidProperties.ScheduleBarriers | nvpro_pyramid/nvpro_pyramid_dispatch.hpp:175-180 | k iterations record exactly k − 1 barriers, none after the last |
| PyramidProperties.ScheduleRebindsFrom | nvpro_pyramid/nvpro_pyramid_dispatch.hpp:134-163 | a dispatcher gets its pipeline handle (so binds) only on the first use of its kind or right after the other kind ran, and the null handle otherwise |
| PyramidProperties.ScheduleRebinds | nvpro_pyramid/nvpro_pyramid_dispatch.hpp:134-163 | the same for a whole run from the base |
| PyramidProperties.NoFastPipelineNoFastSteps | nvpro_pyramid/nvpro_pyramid_dispatch.hpp:142-147 | without a fast pipeline no iteration uses the fast dispatcher |
| PyramidProperties.PyramidFromBase | nvpro_pyramid/nvpro_pyramid_dispatch.hpp:106-182 | from a base at least 1 × 1 with ≥ 2 requested levels (and `baseline` only without a fast pipeline) the run completes, fills exactly requested − 1 levels, records one barrier fewer than iterations, and each iteration starts at the level filled so far with that level's extents |
| PyramidProperties.OneLevelChainFails | nvpro_pyramid/nvpro_pyramid_dispatch.hpp:128-132 | a 1 × 1 base with `mipLevels` 0, or any base with `mipLevels` 1, fails an `assert` |
| PyramidProperties.CheckedPyramidCompletes | nvpro_pyramid/nvpro_pyramid_dispatch.hpp:106-182 | the corrected entry point always completes and fills max(requested − 1, 0) levels, never entering an iteration with nothing left |
| PyramidProperties.ChainExamples | nvpro_pyramid/nvpro_pyramid_dispatch.hpp:118-127 | 4096 × 4096 has 13 levels; 4095 × 4095 has 12 and its level 1 is 2047 wide; 1 × 1 has 1; 0 × 0 has 0 |
| PyramidProperties.NullDispatcherFinishesAtOnce | demo_app/nvpro_pyramid_dispatch_alternative.cpp:61-72 | the null dispatcher ends the run in one iteration with an empty log |
| PyramidProperties.Fixed3LevelsExample | extras/fast_pipelines/fixed3levels/fixed3levels.cpp:10-29 | on a 16 × 16 base `fixed3levels` fills levels 1–3, declines on 2 × 2, and the general dispatcher fills level 4, with one barrier |
| BlitFallback.BlitIterate | demo_app/mipmap_pipelines.cpp:343-398 | a blit-loop iteration calls the fast dispatcher with the null handle; if that fills nothing, it blits the current level onto the next and fills exactly one |
| BlitFallback.BlitAdvance | demo_app/mipmap_pipelines.cpp:360-398 | the blit loop's `uint32_t` update agrees with the scheduler's progress update whenever 1 ≤ levelsDone ≤ remaining |
| BlitFallback.BlitLoop | demo_app/mipmap_pipelines.cpp:343-416 | the blit loop as written always records at least one iteration and ends |
| BlitFallback.BlitStart | demo_app/mipmap_pipelines.cpp:331-336 | the blit branch starts at level 0 with levelCount − 1 remaining, or 0 when the count is 0 |
| BlitFallback.BlitRun | demo_app/mipmap_pipelines.cpp:331-416 | the corrected blit loop runs no iteration exactly when nothing remains |
| BlitFallback.EndBarrierSource | demo_app/mipmap_pipelines.cpp:400-407 | the final barrier waits on transfer writes iff a blit filled the last level |
| BlitFallback.RecordBlitStep | demo_app/mipmap_pipelines.cpp:355-398 | recording one blit-loop iteration logs exactly its commands and returns its level count and kind |
| BlitFallback.RunBlitLoop | demo_app/mipmap_pipelines.cpp:343-416 | the `while (1)` blit loop records exactly `BlitLoop`'s log and reports whether a blit filled the last level |
| BlitFallbackProperties.BlitLoopSteps | demo_app/mipmap_pipelines.cpp:343-416 | the iterations of the blit loop are this one followed by those from the advanced state, until 0 remain |
| BlitFallbackProperties.BlitLoopChained | demo_app/mipmap_pipelines.cpp:343-416 | from ≥ 1 remaining, blit-loop iterations chain by the progress update and the last fills exactly what remained |
| BlitFallbackProperties.BlitLoopLog | demo_app/mipmap_pipelines.cpp:411-415 | the blit loop's log is its iterations joined by the compute-or-transfer barrier |
| BlitFallbackProperties.BlitStepShape | demo_app/mipmap_pipelines.cpp:358-398 | a blit step records exactly one blit; a fast step one dispatch without a bind, or nothing for null; no step records a barrier |
| BlitFallbackProperties.JoinedBarriers | demo_app/mipmap_pipelines.cpp:411-415 | joining k barrier-free iterations gives exactly k − 1 barriers |
| BlitFallbackProperties.BlitLoopIsChain | demo_app/mipmap_pipelines.cpp:343-416 | the blit loop's iterations form a blit chain from its start state |
| BlitFallbackProperties.BlitChainBarriers | demo_app/mipmap_pipelines.cpp:411-415 | a blit chain of k iterations records k − 1 barriers |
| BlitFallbackProperties.BlitChainBlit | demo_app/mipmap_pipelines.cpp:374-398 | each blit copies level l at its extents onto level l + 1 at the clamped half extents, with l + 1 inside the pyramid |
| BlitFallbackProperties.BlitChainFills | demo_app/mipmap_pipelines.cpp:343-416 | a blit chain from a base with ≥ 2 levels fills exactly levelCount − 1 levels, with k − 1 barriers and every blit writing the next level |
| BlitFallbackProperties.BlitFallbackFills | demo_app/mipmap_pipelines.cpp:318-416 | for levelCount ≥ 2 the blit fallback fills levels 1 to levelCount − 1, blits always writing the next level, and places barriers only between iterations |
| BlitFallbackProperties.BlitStepIsIterate | demo_app/mipmap_pipelines.cpp:343-398 | every recorded blit-loop iteration is the iteration function applied at its own start state |
| BlitFallbackProperties.OneByOneBlits | demo_app/mipmap_pipelines.cpp:374-398 | from a 1 × 1 level with no fast dispatcher the loop runs one blit per remaining level |
| BlitFallbackProperties.BlitOneLevelOverruns | demo_app/mipmap_pipelines.cpp:331-398 | with a level count of 1 the loop as written blits level 0 onto level 1, which does not exist, and runs 2^32 iterations |
| BlitFallbackProperties.BlitRunFills | demo_app/mipmap_pipelines.cpp:318-416 | the corrected loop fills exactly levelCount − 1 levels for every levelCount ≥ 1, with barriers only between iterations |
| MipmapPipelines.EntryKeysSpec | demo_app/mipmap_pipelines.cpp:35-55 | a key is in the pipeline map iff some table slot that is not "blit"/"none" has that key |
| MipmapPipelines.EntryKeysStep | demo_app/mipmap_pipelines.cpp:148-153 | scanning one more table entry adds its slot's key, unless that slot is skipped; a duplicate collapses |
| MipmapPipelines.TableSlotsAllowed | demo_app/mipmap_pipelines.cpp:41-50 | no table entry trips the slot `assert`s of `addNullPipelineEntry` |
| MipmapPipelines.TableDirectories | demo_app/pipeline_alternative.cpp:9-65 | no table entry puts "blit" in a fast slot or "none" in a general slot |
| MipmapPipelines.BaseNamesOrdinary | demo_app/pipeline_alternative.cpp:9-65 | no table entry borrows "blit" or "none" as a base pipeline name |
| MipmapPipelines.BuildPrelude | demo_app/mipmap_pipelines.cpp:86-110 | the `+=` chain builds the shader prelude |
| MipmapPipelines.PreludeOfDefault | demo_app/mipmap_pipelines.cpp:86-110 | the default directory with no config bits gets an empty prelude |
| MipmapPipelines.PreludeSelectsAlternative | demo_app/mipmap_pipelines.cpp:88-95 | the prelude starts with the alternative-enable define iff the directory is not "default" |
| MipmapPipelines.ConfigDefinesStart | demo_app/mipmap_pipelines.cpp:96-110 | the config defines never begin with the alternative-enable define, so the two parts cannot be confused |
| MipmapPipelines.EndBarrier | demo_app/mipmap_pipelines.cpp:266-269 | the end barrier targets fragment-shader reads and waits on transfer writes iff a blit came last, else on compute shader writes |
| MipmapPipelines.DefaultRecording | demo_app/mipmap_pipelines.cpp:229-252 | the default path starts with the descriptor-set bind, and a completed recording ends with the end barrier on compute writes |
| MipmapPipelines.FastChoice | demo_app/mipmap_pipelines.cpp:274-293 | "none" selects no pipeline and no dispatcher; otherwise the lookup fails exactly when the pipeline or the dispatcher is missing, and a found dispatcher is the one registered under the name |
| MipmapPipelines.AlternativeRecording | demo_app/mipmap_pipelines.cpp:255-421 | the alternative path starts with the descriptor-set bind; a completed recording ends with a barrier towards fragment-shader reads; on the blit route it always completes, with the transfer end barrier exactly when a blit filled the last level |
| MipmapPipelines.GenerateRecording | demo_app/mipmap_pipelines.cpp:199-224 | `cmdBindGenerate` takes the default path iff both slots are "default" with no config bits, and the alternative path otherwise |
| MipmapPipelines.GenerateRecordingBarriers | demo_app/mipmap_pipelines.cpp:194-224 | for every alternative, `cmdBindGenerate` records the descriptor-set bind first, and a completed recording ends with the barrier that makes its writes visible to fragment shaders; on the blit route it completes and that barrier waits on transfer writes exactly when a blit filled the last level |
| MipmapPipelines.TableRouting | demo_app/mipmap_pipelines.cpp:209-212 | the default table entry takes the default path and the blit entry the alternative path |
| MipmapPipelines.MissingFastEntryFails | demo_app/mipmap_pipelines.cpp:276-293 | a missing fast pipeline or unregistered fast dispatcher trips an `assert` after binding the descriptor sets |
| MipmapPipelines.MissingGeneralEntryFails | demo_app/mipmap_pipelines.cpp:295-317 | a missing general pipeline or unregistered general dispatcher trips an `assert` after binding the descriptor sets |
| MipmapPipelines.LookupKeysDiffer | demo_app/mipmap_pipelines.cpp:276-293 | `levels_1_5` looks up the default pipeline under its base name but its own dispatcher, `<2, 5>`, under its name |
| MipmapPipelines.DefaultPathCompletes | demo_app/mipmap_pipelines.cpp:229-252 | with the maps built from the table and an image with a level below the base (an extent ≥ 2), the default path as written completes, starting with the descriptor-set bind and ending with the compute end barrier |
| MipmapPipelines.DefaultPathOneTexelFails | demo_app/mipmap_pipelines.cpp:229-252 | on a 1 × 1 image the default path as written stops on the scheduler's assertion after the descriptor-set bind and records no end barrier |
| MipmapPipelines.BlitAlternativeEndBarrier | demo_app/mipmap_pipelines.cpp:318-420 | the blit entry as written always completes, and since every iteration is a blit its final barrier waits on transfer writes, for one-level images too |
| MipmapPipelines.BlitAlternativeOneLevelOverruns | demo_app/mipmap_pipelines.cpp:333-396 | on a 1 × 1 image with one level the blit entry's first command after the descriptor-set bind blits level 0 onto a level 1 the image does not have |
| MipmapPipelines.ComputeMipmapPipelines.AddNullPipelineEntry | demo_app/mipmap_pipelines.cpp:35-55 | `addNullPipelineEntry` asserts the slot rule and inserts the key with a null handle into the map of its kind unless the slot is skipped |
| MipmapPipelines.ComputeMipmapPipelines.constructor | demo_app/mipmap_pipelines.cpp:129-179 | the maps hold exactly the table's keys, each with its compiled pipeline |
| MipmapPipelines.ComputeMipmapPipelines.AddNullPipelineEntries | demo_app/mipmap_pipelines.cpp:148-153 | the table loop leaves exactly the table's keys in the two maps |
| MipmapPipelines.RecordScheduleTail | demo_app/mipmap_pipelines.cpp:242-251 | records `nvproCmdPyramidDispatch` as written on the full chain, then the compute end barrier only if the scheduler ended normally |
| MipmapPipelines.RecordBlitTail | demo_app/mipmap_pipelines.cpp:318-420 | records the fast pipeline's bind if any, the blit loop as written and the end barrier on transfer writes exactly when a blit filled the last level |
| MipmapPipelines.ComputeMipmapPipelines.CmdBindGenerateDefault | demo_app/mipmap_pipelines.cpp:229-252 | records the default path's commands, with the scheduler run as written |
| MipmapPipelines.ComputeMipmapPipelines.CmdBindGenerate | demo_app/mipmap_pipelines.cpp:199-224 | records what the routing decides, with the scheduler and blit loop run as written |
| MipmapPipelines.ComputeMipmapPipelines.CmdBindGenerateAlternative | demo_app/mipmap_pipelines.cpp:255-421 | records the alternative path: lookups, the scheduler or the blit loop as written, and the end barrier |
| PipelineAlternatives.Named | demo_app/pipeline_alternative.hpp:23-30 | a description defaults to no base name and no config bits |
| PipelineAlternatives.ConfigBitsDistinct | demo_app/pipeline_alternative.hpp:38-43 | the three config bits are distinct powers of two: each tests only itself |
| PipelineAlternatives.ToString | demo_app/pipeline_alternative.hpp:45-53 | `toString` starts with the name and is the name alone without config bits |
| PipelineAlternatives.ToStringIgnoresHighBits | demo_app/pipeline_alternative.hpp:45-53 | bits other than 1, 2 and 4 do not change `toString` |
| PipelineAlternatives.HasFlagLowBits | demo_app/pipeline_alternative.hpp:45-53 | a config bit is set iff it is set in the low three bits |
| PipelineAlternatives.ToStringDeterminesFlags | demo_app/pipeline_alternative.hpp:45-53 | two descriptions with one name and equal `toString` have the same config bits set |
| PipelineAlternatives.SuffixFlags | demo_app/pipeline_alternative.hpp:45-53 | after the name, `toString` has " srgbSharedBit" at the start iff that bit is set, " f16SharedBit" at the start or right after it iff that bit is set, and " noBilinearBit" at the end iff that bit is set |
| PipelineAlternatives.Table | demo_app/pipeline_alternative.cpp:9-68 | the table always has at least the default and blit entries |
| PipelineAlternatives.TableHead | demo_app/pipeline_alternative.cpp:9-13 | entry 0 is the all-default alternative and entry 1 the blit one (general "blit", fast "none"); with alternatives disabled there are just those two |
| PipelineAlternatives.RelevantSlots | demo_app/pipeline_alternative.cpp:15-32 | the first group of alternatives keeps "blit" and "none" out of the wrong slots |
| PipelineAlternatives.MoreSlots | demo_app/pipeline_alternative.cpp:35-60 | the second group keeps "blit" and "none" out of the wrong slots |
| PipelineAlternatives.SlotsAppend | demo_app/pipeline_alternative.cpp:9-65 | the slot rule holds for a concatenation of tables that respect it |
| PipelineAlternatives.TableSlots | demo_app/pipeline_alternative.cpp:9-65 | no fast slot in the table is "blit" and no general slot is "none" |
| DispatcherRegistry.Registry.constructor | demo_app/nvpro_pyramid_dispatch_alternative.cpp:13-72 | registration leaves the two maps holding exactly the registered fast and general dispatchers |
| DispatcherRegistry.Registry.AddFast | demo_app/nvpro_pyramid_dispatch_alternative.cpp:26-32 | registering a fast dispatcher overwrites that name only (the last one wins) and leaves the general map alone |
| DispatcherRegistry.Registry.AddGeneral | demo_app/nvpro_pyramid_dispatch_alternative.cpp:51-57 | registering a general dispatcher overwrites that name only and leaves the fast map alone |
| DispatcherRegistry.Registry.GetFast | demo_app/nvpro_pyramid_dispatch_alternative.cpp:19-24 | the lookup finds a dispatcher iff the name is registered, and then the registered one |
| DispatcherRegistry.Registry.GetGeneral | demo_app/nvpro_pyramid_dispatch_alternative.cpp:44-49 | the same for the general map |
| DispatcherRegistry.RegisteredWellFormed | demo_app/nvpro_pyramid_dispatch_alternative.cpp:34-36 | every registered instantiation satisfies its templates' `static_assert`s |
| DispatcherRegistry.RegisteredNames | demo_app/nvpro_pyramid_dispatch_alternative.cpp:34-72 | "default" is `<4, 6>` fast and the default general; "null" and "onelevel" exist in both maps; "none" and "blit" in neither |
| SearchPaths.SearchPathList | demo_app/search_paths.hpp:14-21 | six entries: spv, test_images, root, install path before repository root in each pair |
| SearchPaths.AlternativeDirectories | demo_app/search_paths.hpp:23-41 | two directories that differ only in their root and end in kind/name/ |
| SearchPaths.FastDirectories | demo_app/search_paths.hpp:23-31 | the fast alternative's directories: `extras/fast_pipelines/<name>/` under the install path, then under the repository root |
| SearchPaths.GeneralDirectories | demo_app/search_paths.hpp:33-41 | the general alternative's directories: `extras/general_pipelines/<name>/` under the install path, then under the repository root |
| SearchPaths.DirectoriesNameRecoverable | demo_app/search_paths.hpp:26-30 | both directories end in "/" and give back the alternative's name |
| SearchPaths.FastGeneralDisjoint | demo_app/search_paths.hpp:23-41 | a fast and a general directory never coincide |
| StorageLayout.ChainDims | include/mipmap_storage.hpp:49-69 | the constructor's chain has exactly the scheduler's level count |
| StorageLayout.LevelOffsets | include/mipmap_storage.hpp:52-68 | one offset per level |
| StorageLayout.ChainDimsShape | include/mipmap_storage.hpp:49-69 | level 0 is the base, the last level is the first 1 × 1, and each level is the clamped half of the one before |
| StorageLayout.PlacedPrefix | include/mipmap_storage.hpp:59-68 | each level's offset is the total area of the levels before it |
| StorageLayout.PlacedIsPrefixSums | include/mipmap_storage.hpp:40-68 | the constructor's placement is exactly the prefix sums of the level areas, with the buffer as large as their total |
| StorageLayout.PlacedDisjoint | include/mipmap_storage.hpp:59-68 | each level ends before the next begins, and the last ends at the buffer's end |
| StorageLayout.InLevel | include/mipmap_storage.hpp:75-85 | `dim.x * y + x` lies inside its level for an in-range texel |
| StorageLayout.InLevelUnique | include/mipmap_storage.hpp:75-85 | distinct in-range texels of a level have distinct addresses |
| StorageLayout.PlacedLayout | include/mipmap_storage.hpp:49-72 | a chain placed as the constructor places it is a valid layout |
| StorageLayout.LevelInBuffer | include/mipmap_storage.hpp:117-130 | every level is nonempty, inside the buffer, followed directly by the next, and the clamped half of the previous |
| StorageLayout.ChainUnique | include/mipmap_storage.hpp:57-69 | the chain is the only sequence from the base to the first 1 × 1 by clamped halving |
| StorageLayout.ChainStep | include/mipmap_storage.hpp:57-69 | level l of the chain has the extents `MipDim(base, l)` the scheduler uses |
| StorageLayout.LevelIndex | include/mipmap_storage.hpp:75-85 | `operator[]` addresses a texel inside its level's range |
| StorageLayout.AddressCovers | include/mipmap_storage.hpp:75-85 | every index of a level is the address of some in-range texel of it |
| StorageLayout.Address | include/mipmap_storage.hpp:75-85 | the address of an in-range texel lies inside its level |
| StorageLayout.LevelsOrdered | include/mipmap_storage.hpp:59-68 | texels of a lower level have lower indices |
| StorageLayout.LocatesUnique | include/mipmap_storage.hpp:75-85 | an index locates at most one (x, y, level) |
| ReductionTaps.Denominator | include/mipmap_storage.hpp:326-331 | the weight denominator of an axis is positive |
| ReductionTaps.AxisTapsShape | include/mipmap_storage.hpp:300-373 | an axis takes 2 taps for an even source, 1 for a source of 1 and 3 for an odd one; weights are positive and sum to the denominator |
| ReductionTaps.AxisTapsInside | include/mipmap_storage.hpp:276-297 | every tap of a destination texel lies inside the source level |
| ReductionTaps.AxisTapsCover | include/mipmap_storage.hpp:276-297 | every source texel along an axis is read by some destination texel |
| ReductionTaps.AxisOffsetsOfTaps | include/mipmap_storage.hpp:276-297 | the taps along an axis are the same for every destination texel |
| ReductionTaps.LoadsAreKernel | include/mipmap_storage.hpp:276-297 | the guarded loads are exactly the product of the two axes' taps |
| ReductionTaps.LoadsInside | include/mipmap_storage.hpp:276-297 | every guarded load lies inside the source level |
| ReductionTaps.LoadsAsWrittenExtra | include/mipmap_storage.hpp:287-297 | the loads as written are the kernel's plus (2, 1) for an odd-wide, one-tall source and (1, 2) for a one-wide, odd-tall one |
| ReductionTaps.UnguardedLoadsLeaveLevel | include/mipmap_storage.hpp:287-296 | for a 3 × 1 and a 1 × 3 source the loads as written read outside the source level |
| ReductionKernel.KernelRow | include/mipmap_storage.hpp:276-297 | one source row contributes one tap per x-tap |
| ReductionKernel.RowStart | include/mipmap_storage.hpp:259-262 | every source row the kernel reads lies inside the source level |
| ReductionKernel.KernelRowWeights | include/mipmap_storage.hpp:300-373 | a row's weights sum to the y-weight times the x-weights' sum |
| ReductionKernel.KernelRowsWeights | include/mipmap_storage.hpp:300-373 | the kernel's weights sum to the product of the axes' sums |
| ReductionKernel.KernelRowsCount | include/mipmap_storage.hpp:276-297 | the kernel has \|y-taps\| × \|x-taps\| taps |
| ReductionKernel.KernelWeights | include/mipmap_storage.hpp:276-373 | one destination texel is made from \|y-taps\| × \|x-taps\| source texels (so 1, 2, 3, 4, 6 or 9), with integer weights summing to the product of the two denominators, which is one once normalised |
| ReductionKernel.KernelRowReadsSource | include/mipmap_storage.hpp:259-262 | a kernel row reads only its source row |
| ReductionKernel.KernelRowsReadSource | include/mipmap_storage.hpp:249-262 | the kernel reads only the source level |
| ReductionKernel.KernelReadsSource | include/mipmap_storage.hpp:249-262 | buffers that agree on the source level give the same kernel, whatever the other levels hold |
| TexelCompare.Delta | include/mipmap_storage.hpp:178-180 | `a > b ? a - b : b - a` on `uint8_t` is the absolute difference, with no wrap |
| TexelCompare.ScanChannelsFirstMaximum | include/mipmap_storage.hpp:176-187 | scanning a texel's channels keeps the worst so far, or moves it to the first channel that is strictly worse |
| TexelCompare.ScanIsFirstMaximum | include/mipmap_storage.hpp:165-190 | the scan reports the largest difference over its range, at the first texel and channel holding it; with no difference it reports texel 0, channel 0 |
| TexelCompare.ScanChannelsSymmetric | include/mipmap_storage.hpp:176-187 | channel scanning is symmetric in its two buffers |
| TexelCompare.ScanSymmetric | include/mipmap_storage.hpp:165-190 | comparing b with a gives what comparing a with b gives |
| TexelCompare.ScanAgreeing | include/mipmap_storage.hpp:161-190 | buffers that agree over the range, including identical ones and an empty range, compare as no difference at texel 0, channel 0 |
| TexelCompare.ScanChannelsReadsTexel | include/mipmap_storage.hpp:174-187 | a texel's channel scan reads only that texel |
| TexelCompare.ScanReadsRange | include/mipmap_storage.hpp:165-190 | the scan reads only texels of its range, so level 0 never matters |
| MipmapStore.FilteredReadsSource | include/mipmap_storage.hpp:249-262 | a destination texel depends only on the source level |
| MipmapStore.LevelFilteredFrame | include/mipmap_storage.hpp:249-250 | a filled level stays filled when nothing up to its end changes |
| MipmapStore.LevelsFilteredFrame | include/mipmap_storage.hpp:204-236 | generating a later level keeps the earlier levels filled |
| MipmapStore.LevelFilledFromSource | include/mipmap_storage.hpp:249-380 | writing every destination texel from a snapshot of the source level fills the level |
| MipmapStore.LevelDetermined | include/mipmap_storage.hpp:249-380 | two buffers with the same source level and the level filled agree on the level |
| MipmapStore.PrefixDetermined | include/mipmap_storage.hpp:200-236 | two buffers with the same level 0 and all levels filled agree up to any level |
| MipmapStore.PyramidDetermined | include/mipmap_storage.hpp:200-236 | the filled pyramid is determined by level 0 alone, so generating twice changes nothing |
| MipmapStore.CompareSymmetric | include/mipmap_storage.hpp:155-195 | comparing in either order reports the same difference, channel and coordinate |
| MipmapStore.CompareTexel | include/mipmap_storage.hpp:174-187 | the channel loop extends the scan by one texel and tracks its coordinate |
| MipmapStore.CompareRow | include/mipmap_storage.hpp:172-188 | the x loop extends the scan by one row |
| MipmapStore.CompareLevel | include/mipmap_storage.hpp:170-189 | the y loop extends the scan by one level |
| MipmapStore.BuildLayout | include/mipmap_storage.hpp:49-69 | the constructor's loop builds the chain and the prefix-sum offsets, with the last offset one less than the total area |
| MipmapStore.BuiltLayout | include/mipmap_storage.hpp:57-69 | the loop's invariants at exit give the chain and its valid layout |
| MipmapStore.FillRow | include/mipmap_storage.hpp:254-377 | the x loop writes each texel of one destination row and nothing else |
| MipmapStore.FillLevel | include/mipmap_storage.hpp:252-379 | the y loop writes every texel of the destination level and nothing else |
| MipmapStore.MipmapStorage.constructor | include/mipmap_storage.hpp:48-72 | a nonzero base gives the chain, its offsets and a zeroed buffer as large as all levels |
| MipmapStore.MipmapStorage.TexelIndex | include/mipmap_storage.hpp:75-85 | `operator[]`'s `assert`s pass iff the coordinate is in range, and then the index is in the buffer and locates the coordinate |
| MipmapStore.MipmapStorage.LevelStart | include/mipmap_storage.hpp:117-130 | `levelData` succeeds iff the level exists, and points at the areas before it, with the level inside the buffer |
| MipmapStore.MipmapStorage.LevelByteSize | include/mipmap_storage.hpp:132-137 | `getLevelByteSize` is 4 × area: the byte distance to the next level, or 4 for the last |
| MipmapStore.MipmapStorage.ByteSize | include/mipmap_storage.hpp:111-115 | `getByteSize` is 4 bytes per texel of all levels |
| MipmapStore.MipmapStorage.CompareBuffer | include/mipmap_storage.hpp:155-195 | the comparison loops report the first worst difference over levels ≥ 1, its channel and (x, y, level); with none, (0, 0, 0) and channel 0 |
| MipmapStore.MipmapStorage.Compare | include/mipmap_storage.hpp:143-151 | comparing storages passes the `assert`s iff the layouts are equal, and then reports the buffer comparison |
| MipmapStore.MipmapStorage.GenerateLevel | include/mipmap_storage.hpp:239-380 | `generateLevel` fills its level from the one above and changes no texel outside it |
| MipmapStore.MipmapStorage.GenerateMipmaps | include/mipmap_storage.hpp:200-236 | `generateMipmaps` fills every level ≥ 1 and leaves level 0 unchanged |
| TgaNames.LastDot | include/mipmap_storage.hpp:431-431 | `strrchr(name, '.')`: a dot with none after it, or none at all |
| TgaNames.Decimal | include/mipmap_storage.hpp:442-443 | `std::to_string` of a level: at least one digit, all digits, no leading zero |
| TgaNames.DecimalRoundTrip | include/mipmap_storage.hpp:442-443 | the digits read back give the level |
| TgaNames.LevelFilenameShape | include/mipmap_storage.hpp:431-443 | level k ≥ 1 is the text through the last dot, then k, then the text from the last dot; without a dot it is the name followed by k |
| TgaNames.LastDotUnique | include/mipmap_storage.hpp:431-431 | the last dot is the only dot with none after it |
| TgaNames.LevelFilenameKeepsExtension | include/mipmap_storage.hpp:431-443 | every level's file keeps the base name's extension |
| TgaNames.LevelFilenamesDistinct | include/mipmap_storage.hpp:442-443 | no two levels are written to the same file |
| TgaNames.LevelFilenameExamples | include/mipmap_storage.hpp:425-443 | "a.tga" level 0 stays "a.tga", level 1 is "a.1.tga"; "image.name.tga" level 12 is "image.name.12.tga"; "mips" level 3 is "mips3" |
| AppArguments.DeclaredDefaults | demo_app/app_args.hpp:10-40 | the struct's declared initialisers; `test` has none and holds whatever it held |
| AppArguments.Defaults | demo_app/app_args.hpp:10-40 | the defaults with `test` false, as evidently intended |
| AppArguments.ParseStep | demo_app/app_args.cpp:61-140 | one argument: unknown, help or a missing parameter stops (status 0 only for help, else 1); otherwise the index moves past the parameters; `-window`, `-o`/`-benchmark` and `-test` set their flags |
| AppArguments.StepExtend | demo_app/app_args.cpp:61-140 | a completed step does not depend on arguments after it |
| AppArguments.ParseAppend | demo_app/app_args.cpp:61-140 | parsing a + b resumes after a where parsing a left off |
| AppArguments.FlagsFrom | demo_app/app_args.cpp:58-140 | after a full parse the window flags and `test` say whether `-window`, `-o`/`-benchmark` and `-test` occurred |
| AppArguments.OpenWindowRule | demo_app/app_args.cpp:142-142 | `openWindow` = no `-o` or `-benchmark`, or some `-window`, in any order |
| AppArguments.LastOptionWins | demo_app/app_args.cpp:83-126 | `-i`, `-o`, `-pipeline` and `-benchmark` store their parameter, the last occurrence winning |
| AppArguments.MissingParameterExits | demo_app/app_args.cpp:49-56 | an option missing its parameter exits with status 1 |
| AppArguments.UnknownOrHelpExits | demo_app/app_args.cpp:69-139 | help exits 0 and an unknown argument exits 1, ignoring the rest |
| AppArguments.TextureStoredEvenIfBad | demo_app/app_args.cpp:106-119 | `-texture` stores both values as `uint32_t` even when they are reported as malformed or non-positive |
| AppArguments.TestUninitialised | demo_app/app_args.hpp:21-21 | with no arguments, `test` can be true though `-test` was never given |
| AppArguments.TestOnlyWhenRequested | demo_app/app_args.cpp:102-105 | from the intended defaults, `test` is set iff `-test` occurs |
| AppArguments.AppArgs.constructor | demo_app/app_args.hpp:10-40 | a fresh `AppArgs` holds the intended defaults |
| AppArguments.AppArgs.ParseArgs | demo_app/app_args.cpp:42-143 | `parseArgs` leaves the fields, exit status and reported numbers of the parse |
| AppArguments.AppArgs.ParseOne | demo_app/app_args.cpp:61-140 | one turn of the loop updates the fields and flags as `ParseStep` says |
| AppArguments.AppArgs.ParseTexture | demo_app/app_args.cpp:106-119 | the `-texture` branch updates the size fields and reports bad numbers as `ParseStep` says |
| MinimalConfig.Defaults | minimal_app/minimal_mipmaps.cpp:34-51 | the three flags (`canUseFastPipeline`, `forceDisableFastPipeline`, `doPremultiplyAlpha`) default to false |
| MinimalConfig.ConfigStep | minimal_app/minimal_mipmaps.cpp:324-364 | one argument: help exits 0, an unknown argument or missing parameter exits 1, otherwise the index moves past the parameter |
| MinimalConfig.LastAlphaChoiceCons | minimal_app/minimal_mipmaps.cpp:351-358 | the last alpha option of a token list is the later one |
| MinimalConfig.StepAlpha | minimal_app/minimal_mipmaps.cpp:351-358 | `-premultiplied-alpha` clears and `-do-premultiply-alpha` sets the flag; other options keep it |
| MinimalConfig.ConfigFromStep | minimal_app/minimal_mipmaps.cpp:324-364 | parsing continues from the state one step leaves |
| MinimalConfig.LastAlphaOptionWins | minimal_app/minimal_mipmaps.cpp:351-358 | after a full parse the flag is the last alpha option given, or unchanged without one |
| MinimalConfig.Config.constructor | minimal_app/minimal_mipmaps.cpp:34-51 | a fresh `Config` holds the defaults |
| MinimalConfig.Config.ReadArguments | minimal_app/minimal_mipmaps.cpp:313-365 | the `Config` loop leaves exactly the parse's fields, or its exit status |
| MinimalConfig.Config.DecideFastPipeline | minimal_app/minimal_mipmaps.cpp:250-284 | the fast pipeline is usable iff not forced off, subgroup size ≥ 16, compute-stage subgroups and shuffle; nothing else changes |
| MinimalConfig.MinimalPipelines | minimal_app/minimal_mipmaps.cpp:138-186 | an unusable fast pipeline is the null handle; the general pipeline and offset 0 are kept |
| MinimalConfig.UnusableFastNeverDispatched | minimal_app/minimal_mipmaps.cpp:177-201 | with the fast pipeline unusable no iteration of the dispatch uses the fast dispatcher |

## Left out

- Vulkan effects. The model records commands into an abstract log and never executes them. Out of scope: image, descriptor and staging-buffer management, pipeline creation and shader compilation, queue submission, and device feature probing beyond the three subgroup properties `main` reads (`subgroupSize`, compute-stage support and shuffle support).
- Floating-point colour arithmetic. The `toLinear`/`fromLinear` conversions and the weighted sums of `generateLevel` are one `filter` parameter that maps the kernel (source texels with integer weights over the product of the denominators) to a texel. The model proves which texels are read and that the weights sum to one. Neither rounding rule of the sRGB conversion is modelled.
- `cpuGenerateMipmaps_sRGBA` and `testMipmaps` appear only through `GenerateMipmaps` with an arbitrary filter and through `Compare`. The report string of `testMipmaps` is not modelled.
- Only `MipmapStorage<uint8_t, 4>`, the instance the programs use, is modelled.
- Concurrency. The thread fan-out of `writeMipmapsTga`, parallel pipeline compilation and the benchmark threads are left out. Only the file names `writeMipmapsTga` writes are modelled; the writes themselves, and all other file I/O and printing, are not.
- `strtol` is a function parameter (`strtol: string -> LongParse`), and help text is not modelled.
- Template parameters are constructor fields of the dispatcher datatypes, and their `static_assert`s are the `FastWf`/`GeneralWf` predicates. The four even/odd instantiations of `generateLevel` are one method.
- MipmapStore.MipmapStorage.GenerateLevel reads a snapshot of the source level before writing the destination. The source writes in place, which is equivalent because the two levels are disjoint.
- MipmapStore.MipmapStorage.constructor allocates the buffer at once. The source's lazy `allocateData` allocates on first use, which changes nothing observable here.
- MipmapStore.MipmapStorage.CompareBuffer and `Compare` always return the coordinate and channel. The source writes them only through non-null optional out-pointers.
- Sizes and offsets are unbounded `nat`s. The source's 64-bit `offset` and `size_t` byte sizes cannot overflow for any 32-bit image that fits in memory.
- Shift amounts of 32 or more, which are undefined in C++, are modelled as mathematical shifts. They are reachable only when more levels are requested than the image has.
- The unused samples of `generateLevel` are not modelled; only the set of loads is (see Findings).
- PipelineAlternatives.Table leaves out the entries `#include`d from `py2_pipeline_alternatives.inc` (`demo_app/pipeline_alternative.cpp:55`). That generated file is not part of this model.
- DispatcherRegistry.RegisteredFast does not register `quadflex`, `quadflexmin1`, `maybequad` or `maybequadmin1`. Their dispatcher sources are not part of this model, so in the model those table entries fail the fast-dispatcher lookup.
- The `py2_generate_all.py` code generator is not part of this model; its instances are covered by the `Py2` dispatcher with its four parameters.

## Findings

| source | as written | input that shows it | evidently intended | confidence | as-written member | corrected member |
|---|---|---|---|---|---|---|
| nvpro_pyramid/nvpro_pyramid_dispatch.hpp:128-132 | `remainingLevels = mipLevels - 1` then at least one dispatcher call, whose contract (:68-69) requires `remainingLevels != 0` | a 1 × 1 base with `mipLevels` 0, or any base with `mipLevels` 1: the general dispatcher returns 0 or more than remain and `assert(levelsDone != 0)` or `<= remainingLevels` fails | record nothing when at most one level is requested | high, not executed | PyramidProperties.OneLevelChainFails | PyramidProperties.CheckedPyramidCompletes |
| demo_app/mipmap_pipelines.cpp:333-396 | the blit loop runs one iteration before testing `remainingLevels`, then decrements it | an image with one level: `remainingLevels` starts at 0, the loop blits level 0 onto a nonexistent level 1 and wraps to 2^32 − 1 | no iteration when nothing remains | high, not executed | BlitFallbackProperties.BlitOneLevelOverruns | BlitFallbackProperties.BlitRunFills |
| demo_app/app_args.hpp:21 | `bool test;` has no initialiser, unlike every other field | `parseArgs` with no arguments on an `AppArgs` whose storage holds true leaves `test` true | `bool test = false;` | medium, not executed | AppArguments.TestUninitialised | AppArguments.TestOnlyWhenRequested |
| include/mipmap_storage.hpp:288-296 | `sample21` is loaded when the width is odd and not 1, and `sample12` when the height is odd and not 1, without checking the other extent | a 3 × 1 source loads (2, 1) and a 1 × 3 source loads (1, 2), outside the level; the values go unused | guard each load by both extents | high, not executed | ReductionTaps.UnguardedLoadsLeaveLevel | ReductionTaps.LoadsInside |

The demo's `cmdBindGenerate` paths are modelled as the code stands, so the first two rows also appear there, as `MipmapPipelines.DefaultPathOneTexelFails` and `MipmapPipelines.BlitAlternativeOneLevelOverruns`. The corrected `PyramidDispatch.CheckedSchedule` and `BlitFallback.BlitRun` are where the intended behaviour is proved.
