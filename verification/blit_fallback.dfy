/** The blit fallback of the demo's `cmdBindGenerateAlternative`: a second
    copy of the scheduling loop in which the fast dispatcher is tried first
    and, when it declines, one level is filled by a linear blit from the
    level above. A compute-or-transfer barrier separates iterations, and the
    barrier after the loop waits on the transfer stage exactly when a blit
    filled the last level. */
module BlitFallback {
  import opened MipMath
  import opened Commands
  import opened Optional
  import opened Dispatchers
  import opened PyramidDispatch
  import opened PyramidProperties

  /** The blit of level `s.currentLevel` onto the level below it, whose
      extent is the clamped half of the current one. */
  function BlitDown(s: State): Command
  {
    Blit(s.currentLevel, s.currentX, s.currentY, Wrap(s.currentLevel + 1), MipDim(s.currentX, 1), MipDim(s.currentY, 1))
  }

  /** One iteration of the blit loop: the fast dispatcher, if there is one,
      is called with the null handle since its pipeline is already bound; if
      it fills no level, a blit fills one. */
  function BlitIterate(fd: Option<FastDispatcher>, s: State): (step: Step)
    requires fd.Some? ==> FastWf(fd.value)
    ensures step.before == s && step.pipelineIfNeeded == NullPipeline
    ensures 1 <= step.levels <= Max(s.remainingLevels, 1)
    ensures !step.usedFast ==> step.levels == 1
    ensures !step.usedFast && s.remainingLevels >= 1 ==> step.cmds == [BlitDown(s)]
  {
    var fast := if fd.Some? then FastCall(fd.value, 0, NullPipeline, s) else Returned(0, []);
    if fast.levels != 0 then Step(true, NullPipeline, s, fast.levels, fast.cmds)
    else Step(false, NullPipeline, s, 1, fast.cmds + [BlitDown(s)])
  }

  /** The progress update of the blit loop, in `uint32_t`: unlike the
      scheduler it does not check the level count against what remains, so
      the subtraction may wrap. */
  function BlitAdvance(s: State, levelsDone: u32): (t: State)
    ensures 1 <= levelsDone <= s.remainingLevels ==> t == Advance(s, levelsDone)
  {
    State(Wrap(s.currentLevel + levelsDone), Wrap(s.remainingLevels - levelsDone),
          MipDim(s.currentX, levelsDone), MipDim(s.currentY, levelsDone))
  }

  /** The loop stops when `remainingLevels` reaches 0 after an update; one
      that starts at 0 first wraps round to 2^32 - 1. */
  function LoopMeasure(s: State): nat
  {
    if s.remainingLevels == 0 then LIMIT else s.remainingLevels
  }

  /** The iterations of the blit loop from `s` and the commands it records,
      barriers included. */
  function BlitLoop(fd: Option<FastDispatcher>, s: State): (t: Trace)
    requires fd.Some? ==> FastWf(fd.value)
    ensures t.steps != [] && t.steps[0] == BlitIterate(fd, s) && t.completed
    decreases LoopMeasure(s)
  {
    var step := BlitIterate(fd, s);
    var next := BlitAdvance(s, step.levels);
    if next.remainingLevels == 0 then Trace([step], step.cmds, true)
    else
      var rest := BlitLoop(fd, next);
      Trace([step] + rest.steps, step.cmds + [BetweenBlitOrCompute] + rest.log, true)
  }

  /** `remainingLevels` as the blit branch sets it up from the image's level
      count. */
  function BlitStart(levelCount: u32, baseWidth: u32, baseHeight: u32): (s: State)
    ensures s.currentLevel == 0 && s.currentX == baseWidth && s.currentY == baseHeight
    ensures levelCount >= 1 ==> s.remainingLevels == levelCount - 1
    ensures levelCount == 0 ==> s.remainingLevels == 0
  {
    State(0, if levelCount > 0 then levelCount - 1 else 0, baseWidth, baseHeight)
  }

  /** The blit loop as it is evidently meant to run: an image whose base is
      its only level needs no iteration at all. */
  function BlitRun(fd: Option<FastDispatcher>, s: State): (t: Trace)
    requires fd.Some? ==> FastWf(fd.value)
    ensures t.completed
    ensures t.steps == [] <==> s.remainingLevels == 0
    ensures t.steps == [] ==> t.log == []
  {
    if s.remainingLevels == 0 then Trace([], [], true) else BlitLoop(fd, s)
  }

  /** Whether a blit, rather than the fast dispatcher, filled the last level
      of a run; no level filled counts as compute. */
  predicate LastWasBlit(t: Trace)
  {
    t.steps != [] && !t.steps[|t.steps| - 1].usedFast
  }

  /** The stage and access the final barrier waits on: transfer writes when
      a blit filled the last level, shader writes otherwise. */
  function EndBarrierSource(lastWasBlit: bool): (r: (Stage, Access))
    ensures r.0 == Transfer <==> lastWasBlit
    ensures r.1 == TransferWrite <==> lastWasBlit
  {
    if lastWasBlit then (Transfer, TransferWrite) else (ComputeShader, ShaderWrite)
  }

  lemma StepsAssoc(a: seq<Step>, b: seq<Step>)
    ensures |a + b| >= |b| && (b != [] ==> (a + b)[|a + b| - 1] == b[|b| - 1])
  {
  }

  /** One iteration of the blit loop up to the progress update. */
  method RecordBlitStep(cmdBuf: CommandBuffer, fd: Option<FastDispatcher>, s: State)
    returns (levelsDone: u32, usedFast: bool)
    requires fd.Some? ==> FastWf(fd.value)
    modifies cmdBuf
    ensures cmdBuf.log == old(cmdBuf.log) + BlitIterate(fd, s).cmds
    ensures levelsDone == BlitIterate(fd, s).levels && usedFast == BlitIterate(fd, s).usedFast
  {
    ghost var fastCmds := if fd.Some? then FastCall(fd.value, 0, NullPipeline, s).cmds else [];
    levelsDone := 0;
    if fd.Some? {
      levelsDone := RecordFast(cmdBuf, fd.value, 0, NullPipeline, s);
    }
    usedFast := levelsDone != 0;
    if !usedFast {
      cmdBuf.Record([BlitDown(s)]);
      AppendAssoc(old(cmdBuf.log), fastCmds, [BlitDown(s)]);
      levelsDone := 1;
    }
  }

  /** The blit loop, recording into `cmdBuf`; it reports whether a blit
      filled the last level. */
  method RunBlitLoop(cmdBuf: CommandBuffer, fd: Option<FastDispatcher>, s0: State) returns (lastWasBlit: bool)
    requires fd.Some? ==> FastWf(fd.value)
    modifies cmdBuf
    ensures cmdBuf.log == old(cmdBuf.log) + BlitLoop(fd, s0).log
    ensures lastWasBlit <==> !BlitLoop(fd, s0).steps[|BlitLoop(fd, s0).steps| - 1].usedFast
  {
    var s := s0;
    ghost var whole := BlitLoop(fd, s0);
    ghost var done: seq<Command> := [];
    ghost var doneSteps: seq<Step> := [];
    while true
      invariant cmdBuf.log == old(cmdBuf.log) + done
      invariant whole.log == done + BlitLoop(fd, s).log
      invariant whole.steps == doneSteps + BlitLoop(fd, s).steps
      decreases LoopMeasure(s)
    {
      ghost var step := BlitIterate(fd, s);
      var levelsDone, usedFast := RecordBlitStep(cmdBuf, fd, s);
      var next := BlitAdvance(s, levelsDone);
      AppendAssoc(old(cmdBuf.log), done, step.cmds);
      if next.remainingLevels == 0 {
        StepsAssoc(doneSteps, [step]);
        return !usedFast;
      }
      ghost var rest := BlitLoop(fd, next);
      AppendAssoc(done, step.cmds + [BetweenBlitOrCompute], rest.log);
      AppendAssoc(step.cmds, [BetweenBlitOrCompute], rest.log);
      cmdBuf.Record([BetweenBlitOrCompute]);
      AppendAssoc(old(cmdBuf.log), done + step.cmds, [BetweenBlitOrCompute]);
      AppendAssoc(done, step.cmds, [BetweenBlitOrCompute]);
      done := done + (step.cmds + [BetweenBlitOrCompute]);
      AppendAssoc(doneSteps, [step], rest.steps);
      doneSteps := doneSteps + [step];
      s := next;
    }
  }
}

/** What the blit fallback guarantees when it has levels to fill, and what
    it does, as written, to an image of one level. */
module BlitFallbackProperties {
  import opened MipMath
  import opened Commands
  import opened Optional
  import opened Dispatchers
  import opened PyramidDispatch
  import opened PyramidProperties
  import opened BlitFallback

  /** The iterations of the blit loop: the first one, then those from the
      updated state unless the update left no level. */
  lemma BlitLoopSteps(fd: Option<FastDispatcher>, s: State)
    requires fd.Some? ==> FastWf(fd.value)
    ensures var step := BlitIterate(fd, s);
            var next := BlitAdvance(s, step.levels);
            BlitLoop(fd, s).steps == if next.remainingLevels == 0 then [step] else [step] + BlitLoop(fd, next).steps
  {
  }

  /** From a state with levels left, the blit loop is a chain of iterations
      whose last one fills exactly what remained. */
  lemma {:induction false} BlitLoopChained(fd: Option<FastDispatcher>, s: State)
    requires fd.Some? ==> FastWf(fd.value)
    requires s.remainingLevels >= 1
    ensures var t := BlitLoop(fd, s);
            Chained(t.steps) && Finishes(t.steps[|t.steps| - 1])
    decreases s.remainingLevels
  {
    var step := BlitIterate(fd, s);
    var next := BlitAdvance(s, step.levels);
    var t := BlitLoop(fd, s);
    BlitLoopSteps(fd, s);
    if next.remainingLevels != 0 {
      BlitLoopChained(fd, next);
      var rest := BlitLoop(fd, next);
      assert t.steps[|t.steps| - 1] == rest.steps[|rest.steps| - 1];
      forall i | 1 <= i < |t.steps|
        ensures Linked(t.steps[i - 1], t.steps[i])
      {
        assert t.steps[i] == rest.steps[i - 1];
        if i >= 2 {
          assert t.steps[i - 1] == rest.steps[i - 2];
        }
      }
    }
  }

  /** The log of the blit loop is its iterations' commands joined by one
      compute-or-transfer barrier each. */
  lemma {:induction false} BlitLoopLog(fd: Option<FastDispatcher>, s: State)
    requires fd.Some? ==> FastWf(fd.value)
    ensures BlitLoop(fd, s).log == Joined(BlitLoop(fd, s).steps, BetweenBlitOrCompute)
    decreases LoopMeasure(s)
  {
    var step := BlitIterate(fd, s);
    var next := BlitAdvance(s, step.levels);
    if next.remainingLevels != 0 {
      BlitLoopLog(fd, next);
      var rest := BlitLoop(fd, next);
      assert ([step] + rest.steps)[1..] == rest.steps;
    }
  }

  /** A blit step with levels to fill records exactly the blit of its input
      level onto the next; a fast step records one dispatch without a bind,
      since its pipeline is already bound. Neither records a barrier. */
  lemma BlitStepShape(fd: Option<FastDispatcher>, s: State)
    requires fd.Some? ==> FastWf(fd.value)
    requires s.remainingLevels >= 1
    ensures var step := BlitIterate(fd, s);
            && (!step.usedFast ==> step.cmds == [BlitDown(s)])
            && (step.usedFast && fd.value != FastNull ==>
                  OneDispatch(step.cmds, NullPipeline, 0, PushWord(s.currentLevel, step.levels)))
            && (step.usedFast && fd.value == FastNull ==> step.cmds == [])
            && BarrierCount(step.cmds) == 0
  {
    var step := BlitIterate(fd, s);
    if step.usedFast && fd.value != FastNull {
      FastCallShape(fd.value, 0, NullPipeline, s);
      OneDispatchHasNoBarrier(step.cmds, NullPipeline, 0, PushWord(s.currentLevel, step.levels));
    }
    NoBarrierMeansZero(step.cmds);
  }

  /** Joining barrier-free iterations with a barrier gives one barrier fewer
      than iterations. */
  lemma {:induction false} JoinedBarriers(steps: seq<Step>, barrier: Command)
    requires steps != [] && barrier.Barrier?
    requires forall i :: 0 <= i < |steps| ==> BarrierCount(steps[i].cmds) == 0
    ensures BarrierCount(Joined(steps, barrier)) == |steps| - 1
  {
    if |steps| > 1 {
      JoinedBarriers(steps[1..], barrier);
      assert BarrierCount([barrier]) == 1;
      BarrierCountAppend(steps[0].cmds, [barrier]);
      BarrierCountAppend(steps[0].cmds + [barrier], Joined(steps[1..], barrier));
    }
  }

  /** The iterations of a run of the blit loop from a state with levels
      left: a chain that finishes, each link of which is a blit-loop
      iteration from a state with levels left. */
  predicate BlitChain(fd: Option<FastDispatcher>, steps: seq<Step>)
    requires fd.Some? ==> FastWf(fd.value)
  {
    && steps != [] && Chained(steps) && Finishes(steps[|steps| - 1])
    && forall i :: 0 <= i < |steps| ==> IsBlitIteration(fd, steps[i])
  }

  /** `step` is an iteration of the blit loop from a state with levels left. */
  predicate IsBlitIteration(fd: Option<FastDispatcher>, step: Step)
    requires fd.Some? ==> FastWf(fd.value)
  {
    step.before.remainingLevels >= 1 && step == BlitIterate(fd, step.before)
  }

  lemma BlitLoopIsChain(fd: Option<FastDispatcher>, s: State)
    requires fd.Some? ==> FastWf(fd.value)
    requires s.remainingLevels >= 1
    ensures BlitChain(fd, BlitLoop(fd, s).steps) && BlitLoop(fd, s).steps[0].before == s
  {
    var t := BlitLoop(fd, s);
    BlitLoopChained(fd, s);
    forall i | 0 <= i < |t.steps|
      ensures IsBlitIteration(fd, t.steps[i])
    {
      if i >= 1 {
        assert Linked(t.steps[i - 1], t.steps[i]);
      }
      BlitStepIsIterate(fd, s, i);
    }
  }

  /** Such a run records one barrier fewer than iterations. */
  lemma BlitChainBarriers(fd: Option<FastDispatcher>, steps: seq<Step>)
    requires fd.Some? ==> FastWf(fd.value)
    requires BlitChain(fd, steps)
    ensures BarrierCount(Joined(steps, BetweenBlitOrCompute)) == |steps| - 1
  {
    forall i | 0 <= i < |steps|
      ensures BarrierCount(steps[i].cmds) == 0
    {
      assert IsBlitIteration(fd, steps[i]);
      BlitStepShape(fd, steps[i].before);
    }
    JoinedBarriers(steps, BetweenBlitOrCompute);
  }

  /** In such a run from the base of a `w` x `h` image with `levelCount`
      levels, a blit reads a level of the chain at its extent and writes the
      next level, which exists, at its extent. */
  lemma BlitChainBlit(fd: Option<FastDispatcher>, steps: seq<Step>, i: nat, levelCount: u32, w: u32, h: u32)
    requires fd.Some? ==> FastWf(fd.value)
    requires BlitChain(fd, steps) && i < |steps| && !steps[i].usedFast
    requires w >= 1 && h >= 1 && levelCount >= 2 && steps[0].before == BlitStart(levelCount, w, h)
    ensures var l := steps[i].before.currentLevel;
            && l + 1 < levelCount
            && steps[i].cmds == [Blit(l, MipDim(w, l), MipDim(h, l), l + 1, MipDim(w, l + 1), MipDim(h, l + 1))]
  {
    var b := steps[i].before;
    assert IsBlitIteration(fd, steps[i]);
    MipDimZero(w);
    MipDimZero(h);
    LevelPlusRemaining(steps, i);
    ChainExtents(steps, i, w, h);
    BlitStepShape(fd, b);
    MipDimCompose(w, b.currentLevel, 1);
    MipDimCompose(h, b.currentLevel, 1);
  }

  /** Every blit of `steps` reads a level of the chain of a `w` x `h` image
      at its extent and writes the next level, which is one of the
      `levelCount` levels, at its extent. */
  predicate BlitsWriteNextLevel(steps: seq<Step>, levelCount: u32, w: nat, h: nat)
  {
    forall i :: 0 <= i < |steps| && !steps[i].usedFast ==>
      var l := steps[i].before.currentLevel;
      && l + 1 < levelCount
      && steps[i].cmds == [Blit(l, MipDim(w, l), MipDim(h, l), l + 1, MipDim(w, l + 1), MipDim(h, l + 1))]
  }

  /** The blit form of every blit iteration of such a run. */
  lemma BlitChainFills(fd: Option<FastDispatcher>, steps: seq<Step>, levelCount: u32, w: u32, h: u32)
    requires fd.Some? ==> FastWf(fd.value)
    requires BlitChain(fd, steps)
    requires w >= 1 && h >= 1 && levelCount >= 2 && steps[0].before == BlitStart(levelCount, w, h)
    ensures SumLevels(steps) == levelCount - 1
    ensures BarrierCount(Joined(steps, BetweenBlitOrCompute)) == |steps| - 1
    ensures BlitsWriteNextLevel(steps, levelCount, w, h)
  {
    ChainFills(steps);
    BlitChainBarriers(fd, steps);
    forall i | 0 <= i < |steps| && !steps[i].usedFast
      ensures var l := steps[i].before.currentLevel;
              && l + 1 < levelCount
              && steps[i].cmds == [Blit(l, MipDim(w, l), MipDim(h, l), l + 1, MipDim(w, l + 1), MipDim(h, l + 1))]
    {
      BlitChainBlit(fd, steps, i, levelCount, w, h);
    }
  }

  /** With at least two levels, the blit fallback fills every level below
      the base exactly once: each blit reads a level of the chain at its
      extent and writes the next level, which exists, at its extent; and a
      barrier separates consecutive iterations. */
  lemma BlitFallbackFills(fd: Option<FastDispatcher>, levelCount: u32, baseWidth: u32, baseHeight: u32)
    requires fd.Some? ==> FastWf(fd.value)
    requires levelCount >= 2 && baseWidth >= 1 && baseHeight >= 1
    ensures var t := BlitLoop(fd, BlitStart(levelCount, baseWidth, baseHeight));
            && SumLevels(t.steps) == levelCount - 1
            && BarrierCount(t.log) == |t.steps| - 1
            && BlitsWriteNextLevel(t.steps, levelCount, baseWidth, baseHeight)
  {
    var s := BlitStart(levelCount, baseWidth, baseHeight);
    BlitLoopIsChain(fd, s);
    BlitLoopLog(fd, s);
    BlitChainFills(fd, BlitLoop(fd, s).steps, levelCount, baseWidth, baseHeight);
  }

  /** Every iteration of the blit loop is the blit loop's own iteration from
      the state it started in. */
  lemma {:induction false} BlitStepIsIterate(fd: Option<FastDispatcher>, s: State, i: nat)
    requires fd.Some? ==> FastWf(fd.value)
    requires i < |BlitLoop(fd, s).steps|
    ensures BlitLoop(fd, s).steps[i] == BlitIterate(fd, BlitLoop(fd, s).steps[i].before)
    decreases LoopMeasure(s)
  {
    if i > 0 {
      var step := BlitIterate(fd, s);
      var next := BlitAdvance(s, step.levels);
      BlitStepIsIterate(fd, next, i - 1);
      assert BlitLoop(fd, s).steps[i] == BlitLoop(fd, next).steps[i - 1];
    }
  }

  /** On a 1 x 1 level with no fast dispatcher, every iteration is a blit
      and the loop runs once per remaining level. */
  lemma {:induction false} OneByOneBlits(s: State)
    requires s.currentX == 1 && s.currentY == 1 && s.remainingLevels >= 1
    ensures |BlitLoop(None, s).steps| == s.remainingLevels
    decreases s.remainingLevels
  {
    var step := BlitIterate(None, s);
    var next := BlitAdvance(s, step.levels);
    assert step.levels == 1;
    assert MipDim(1, 1) == 1;
    if next.remainingLevels != 0 {
      OneByOneBlits(next);
    }
  }

  /** As written, the blit branch on a 1 x 1 image, whose one level is the
      base, with the blit-only alternative (no fast dispatcher): the first
      iteration blits level 0 onto a level 1 the image does not have, the
      progress update wraps `remainingLevels` round to 2^32 - 1, and the
      loop runs 2^32 iterations instead of none. */
  lemma BlitOneLevelOverruns()
    ensures var t := BlitLoop(None, BlitStart(1, 1, 1));
            && t.steps[0].cmds == [Blit(0, 1, 1, 1, 1, 1)]
            && |t.steps| == LIMIT
  {
    var s := State(0, 0, 1, 1);
    assert MipDim(1, 1) == 1;
    var step := BlitIterate(None, s);
    assert step == Step(false, NullPipeline, s, 1, [Blit(0, 1, 1, 1, 1, 1)]);
    var next := State(1, LIMIT - 1, 1, 1);
    assert BlitAdvance(s, 1) == next;
    OneByOneBlits(next);
    BlitLoopSteps(None, s);
  }

  /** The corrected blit loop fills the levels below the base exactly once
      for every image with at least one level, blits only onto levels that
      exist, and separates its iterations by one barrier each. */
  lemma BlitRunFills(fd: Option<FastDispatcher>, levelCount: u32, baseWidth: u32, baseHeight: u32)
    requires fd.Some? ==> FastWf(fd.value)
    requires levelCount >= 1 && baseWidth >= 1 && baseHeight >= 1
    ensures var t := BlitRun(fd, BlitStart(levelCount, baseWidth, baseHeight));
            && SumLevels(t.steps) == levelCount - 1
            && BarrierCount(t.log) == Max(|t.steps| - 1, 0)
            && BlitsWriteNextLevel(t.steps, levelCount, baseWidth, baseHeight)
  {
    if levelCount >= 2 {
      BlitFallbackFills(fd, levelCount, baseWidth, baseHeight);
    }
  }
}
