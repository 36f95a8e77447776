/** `nvproCmdPyramidDispatch`: fill every level of a mip chain by calling the
    fast dispatcher while it accepts the current level and the general
    dispatcher otherwise, with a compute-to-compute barrier between
    dispatches and rebinding a pipeline only when the other one was used
    last. */
module PyramidDispatch {
  import opened MipMath
  import opened Commands
  import opened Optional
  import opened Dispatchers

  /** `NvproPyramidPipelines` without the layout, which only travels into the
      recorded commands. */
  datatype Pipelines = Pipelines(fastPipeline: Pipeline, generalPipeline: Pipeline, pushConstantOffset: u32)

  /** One iteration of the scheduling loop: which dispatcher filled levels,
      the handle it was given, the state it saw, the levels it reported and
      every command recorded in the iteration. */
  datatype Step = Step(usedFast: bool, pipelineIfNeeded: Pipeline, before: State, levels: u32, cmds: seq<Command>)

  /** Everything one call records: the iterations, the whole command log
      (barriers included) and whether it ran to the end without a failed
      `assert`. */
  datatype Trace = Trace(steps: seq<Step>, log: seq<Command>, completed: bool)

  /** An iteration before the progress update: its step, whether both
      `assert`s on `levelsDone` hold, and the handles for the next one. */
  datatype Iteration = Iteration(step: Step, assertsHold: bool, fastNext: Pipeline, generalNext: Pipeline)

  predicate DispatchersOk(p: Pipelines, gd: GeneralDispatcher, fd: Option<FastDispatcher>)
  {
    GeneralWf(gd) && (fd.Some? ==> FastWf(fd.value)) && (p.fastPipeline != NullPipeline ==> fd.Some?)
  }

  /** The state the loop starts from; `mipLevels == 0` asks for the full
      chain, and `mipLevels - 1u` wraps when that is 0. */
  function InitialState(baseWidth: u32, baseHeight: u32, mipLevels: u32): (s: State)
    ensures s.currentLevel == 0 && s.currentX == baseWidth && s.currentY == baseHeight
    ensures RequestedLevels(baseWidth, baseHeight, mipLevels) >= 1 ==>
              s.remainingLevels + 1 == RequestedLevels(baseWidth, baseHeight, mipLevels)
    ensures RequestedLevels(baseWidth, baseHeight, mipLevels) == 0 ==> s.remainingLevels == LIMIT - 1
  {
    State(0, Wrap(RequestedLevels(baseWidth, baseHeight, mipLevels) - 1), baseWidth, baseHeight)
  }

  /** The number of levels the call fills the chain up to: `mipLevels`, or
      the full chain when that is 0. */
  function RequestedLevels(baseWidth: u32, baseHeight: u32, mipLevels: u32): (n: u32)
    ensures mipLevels >= 1 ==> n == mipLevels
    ensures mipLevels == 0 ==> n == LevelCount(baseWidth, baseHeight)
    ensures mipLevels == 0 && (baseWidth >= 1 || baseHeight >= 1) ==> n >= 1
  {
    LevelCountBound(baseWidth, baseHeight);
    LevelCountPositive(baseWidth, baseHeight);
    if mipLevels == 0 then LevelCount(baseWidth, baseHeight) else mipLevels
  }

  /** The progress update after `levelsDone` levels. */
  function Advance(s: State, levelsDone: u32): (t: State)
    requires 1 <= levelsDone <= s.remainingLevels
    ensures t.remainingLevels < s.remainingLevels
  {
    State(Wrap(s.currentLevel + levelsDone), s.remainingLevels - levelsDone,
          MipDim(s.currentX, levelsDone), MipDim(s.currentY, levelsDone))
  }

  function Iterate(p: Pipelines, gd: GeneralDispatcher, fd: Option<FastDispatcher>, s: State,
                   fastIfNeeded: Pipeline, generalIfNeeded: Pipeline): (it: Iteration)
    requires DispatchersOk(p, gd, fd)
  {
    var fast := if p.fastPipeline != NullPipeline
                then FastCall(fd.value, p.pushConstantOffset, fastIfNeeded, s)
                else Returned(0, []);
    if fast.levels != 0 then
      var step := Step(true, fastIfNeeded, s, fast.levels, fast.cmds);
      Iteration(step, fast.levels <= s.remainingLevels, NullPipeline, p.generalPipeline)
    else
      var general := GeneralCall(gd, p.pushConstantOffset, generalIfNeeded, s);
      var levels := if general.Returned? then general.levels else 0;
      var step := Step(false, generalIfNeeded, s, levels, fast.cmds + general.cmds);
      Iteration(step, general.Returned? && 1 <= levels <= s.remainingLevels,
                p.fastPipeline, NullPipeline)
  }

  /** The loop of `nvproCmdPyramidDispatch` from state `s`; a failed
      `assert` ends it with `completed == false`. */
  function Schedule(p: Pipelines, gd: GeneralDispatcher, fd: Option<FastDispatcher>, s: State,
                    fastIfNeeded: Pipeline, generalIfNeeded: Pipeline): (t: Trace)
    requires DispatchersOk(p, gd, fd)
    decreases s.remainingLevels
  {
    var it := Iterate(p, gd, fd, s, fastIfNeeded, generalIfNeeded);
    if !it.assertsHold then
      Trace([it.step], it.step.cmds, false)
    else
      var next := Advance(s, it.step.levels);
      if next.remainingLevels == 0 then
        Trace([it.step], it.step.cmds, true)
      else
        var rest := Schedule(p, gd, fd, next, it.fastNext, it.generalNext);
        Trace([it.step] + rest.steps, it.step.cmds + [ComputeToCompute] + rest.log, rest.completed)
  }

  function ScheduleFromBase(p: Pipelines, gd: GeneralDispatcher, fd: Option<FastDispatcher>,
                            baseWidth: u32, baseHeight: u32, mipLevels: u32): Trace
    requires DispatchersOk(p, gd, fd)
  {
    Schedule(p, gd, fd, InitialState(baseWidth, baseHeight, mipLevels), p.fastPipeline, p.generalPipeline)
  }

  /** The level-counting loop. */
  method CountLevels(baseWidth: u32, baseHeight: u32) returns (mipLevels: u32)
    ensures mipLevels == LevelCount(baseWidth, baseHeight)
    ensures baseWidth >= 1 || baseHeight >= 1 ==>
              mipLevels >= 1 && MipDim(baseWidth, mipLevels - 1) == 1 && MipDim(baseHeight, mipLevels - 1) == 1
  {
    LevelCountBound(baseWidth, baseHeight);
    if baseWidth >= 1 || baseHeight >= 1 {
      LevelCountIsFullChain(baseWidth, baseHeight);
    }
    var w: nat, h: nat := baseWidth, baseHeight;
    mipLevels := 0;
    while w != 0 || h != 0
      invariant mipLevels + LevelCount(w, h) == LevelCount(baseWidth, baseHeight)
      decreases w + h
    {
      LevelCountPositive(w, h);
      assert Max(w / 2, h / 2) == Max(w, h) / 2;
      assert LevelCount(w, h) == 1 + LevelCount(w / 2, h / 2);
      w := w / 2;
      h := h / 2;
      mipLevels := mipLevels + 1;
    }
  }

  lemma ScheduleUnfold(p: Pipelines, gd: GeneralDispatcher, fd: Option<FastDispatcher>, s: State,
                       fastIfNeeded: Pipeline, generalIfNeeded: Pipeline)
    requires DispatchersOk(p, gd, fd)
    ensures var it := Iterate(p, gd, fd, s, fastIfNeeded, generalIfNeeded);
            var t := Schedule(p, gd, fd, s, fastIfNeeded, generalIfNeeded);
            if !it.assertsHold then t.log == it.step.cmds && !t.completed
            else if Advance(s, it.step.levels).remainingLevels == 0 then t.log == it.step.cmds && t.completed
            else
              var rest := Schedule(p, gd, fd, Advance(s, it.step.levels), it.fastNext, it.generalNext);
              t.log == it.step.cmds + [ComputeToCompute] + rest.log && t.completed == rest.completed
  {
  }

  /** The body of the scheduling loop up to the progress update: try the fast
      dispatcher, fall back on the general one, and pick the handles for the
      next iteration. */
  method RecordIteration(cmdBuf: CommandBuffer, p: Pipelines, gd: GeneralDispatcher, fd: Option<FastDispatcher>,
                         s: State, fastIfNeeded: Pipeline, generalIfNeeded: Pipeline)
    returns (levelsDone: u32, failed: bool, fastNext: Pipeline, generalNext: Pipeline)
    requires DispatchersOk(p, gd, fd)
    modifies cmdBuf
    ensures cmdBuf.log == old(cmdBuf.log) + Iterate(p, gd, fd, s, fastIfNeeded, generalIfNeeded).step.cmds
    ensures Iterate(p, gd, fd, s, fastIfNeeded, generalIfNeeded).assertsHold
            <==> !failed && 1 <= levelsDone <= s.remainingLevels
    ensures !failed ==> levelsDone == Iterate(p, gd, fd, s, fastIfNeeded, generalIfNeeded).step.levels
    ensures fastNext == Iterate(p, gd, fd, s, fastIfNeeded, generalIfNeeded).fastNext
    ensures generalNext == Iterate(p, gd, fd, s, fastIfNeeded, generalIfNeeded).generalNext
  {
    ghost var fast := if p.fastPipeline != NullPipeline
                      then FastCall(fd.value, p.pushConstantOffset, fastIfNeeded, s)
                      else Returned(0, []);
    ghost var general := GeneralCall(gd, p.pushConstantOffset, generalIfNeeded, s);
    levelsDone := 0;
    if p.fastPipeline != NullPipeline {
      levelsDone := RecordFast(cmdBuf, fd.value, p.pushConstantOffset, fastIfNeeded, s);
    }
    failed := false;
    if levelsDone != 0 {
      fastNext, generalNext := NullPipeline, p.generalPipeline;
    } else {
      levelsDone, failed := RecordGeneral(cmdBuf, gd, p.pushConstantOffset, generalIfNeeded, s);
      AppendAssoc(old(cmdBuf.log), fast.cmds, general.cmds);
      fastNext, generalNext := p.fastPipeline, NullPipeline;
    }
  }

  /** The scheduling loop of `nvproCmdPyramidDispatch` from state `s`. */
  method RunSchedule(cmdBuf: CommandBuffer, p: Pipelines, gd: GeneralDispatcher, fd: Option<FastDispatcher>, s0: State)
    returns (completed: bool)
    requires DispatchersOk(p, gd, fd)
    modifies cmdBuf
    ensures cmdBuf.log == old(cmdBuf.log) + Schedule(p, gd, fd, s0, p.fastPipeline, p.generalPipeline).log
    ensures completed == Schedule(p, gd, fd, s0, p.fastPipeline, p.generalPipeline).completed
  {
    var s := s0;
    var fastIfNeeded, generalIfNeeded := p.fastPipeline, p.generalPipeline;
    ghost var whole := Schedule(p, gd, fd, s0, p.fastPipeline, p.generalPipeline);
    ghost var done: seq<Command> := [];
    while true
      invariant cmdBuf.log == old(cmdBuf.log) + done
      invariant whole.log == done + Schedule(p, gd, fd, s, fastIfNeeded, generalIfNeeded).log
      invariant whole.completed == Schedule(p, gd, fd, s, fastIfNeeded, generalIfNeeded).completed
      decreases s.remainingLevels
    {
      ScheduleUnfold(p, gd, fd, s, fastIfNeeded, generalIfNeeded);
      ghost var cmds := Iterate(p, gd, fd, s, fastIfNeeded, generalIfNeeded).step.cmds;
      var levelsDone, failed, fastNext, generalNext :=
        RecordIteration(cmdBuf, p, gd, fd, s, fastIfNeeded, generalIfNeeded);
      AppendAssoc(old(cmdBuf.log), done, cmds);
      if failed || levelsDone == 0 || levelsDone > s.remainingLevels {
        return false;
      }
      var next := Advance(s, levelsDone);
      if next.remainingLevels == 0 {
        return true;
      }
      ghost var rest := Schedule(p, gd, fd, next, fastNext, generalNext).log;
      AppendAssoc(done, cmds + [ComputeToCompute], rest);
      AppendAssoc(cmds, [ComputeToCompute], rest);
      cmdBuf.Record([ComputeToCompute]);
      AppendAssoc(old(cmdBuf.log), done + cmds, [ComputeToCompute]);
      AppendAssoc(done, cmds, [ComputeToCompute]);
      done := done + (cmds + [ComputeToCompute]);
      s := next;
      fastIfNeeded, generalIfNeeded := fastNext, generalNext;
    }
  }

  /** `nvproCmdPyramidDispatch` as written, with explicit dispatchers; `fd`
      is `None` for a null function pointer. `completed` is false where a
      debug build stops on a failed `assert`. */
  method CmdPyramidDispatch(cmdBuf: CommandBuffer, p: Pipelines, baseWidth: u32, baseHeight: u32,
                            mipLevels: u32, gd: GeneralDispatcher, fd: Option<FastDispatcher>)
    returns (completed: bool)
    requires DispatchersOk(p, gd, fd)
    modifies cmdBuf
    ensures cmdBuf.log == old(cmdBuf.log) + ScheduleFromBase(p, gd, fd, baseWidth, baseHeight, mipLevels).log
    ensures completed == ScheduleFromBase(p, gd, fd, baseWidth, baseHeight, mipLevels).completed
  {
    var levelCount := mipLevels;
    if levelCount == 0 {
      levelCount := CountLevels(baseWidth, baseHeight);
    }
    var s := State(0, Wrap(levelCount as int - 1), baseWidth, baseHeight);
    assert s == InitialState(baseWidth, baseHeight, mipLevels);
    completed := RunSchedule(cmdBuf, p, gd, fd, s);
  }

  /** The call with a chain of at most one level handled up front: such a
      chain has no level to fill, so nothing is recorded and no dispatcher
      is handed a state with no work. */
  function CheckedSchedule(p: Pipelines, gd: GeneralDispatcher, fd: Option<FastDispatcher>,
                           baseWidth: u32, baseHeight: u32, mipLevels: u32): (t: Trace)
    requires DispatchersOk(p, gd, fd)
    ensures RequestedLevels(baseWidth, baseHeight, mipLevels) <= 1 ==> t == Trace([], [], true)
  {
    if RequestedLevels(baseWidth, baseHeight, mipLevels) <= 1 then Trace([], [], true)
    else ScheduleFromBase(p, gd, fd, baseWidth, baseHeight, mipLevels)
  }

  method CmdPyramidDispatchChecked(cmdBuf: CommandBuffer, p: Pipelines, baseWidth: u32, baseHeight: u32,
                                   mipLevels: u32, gd: GeneralDispatcher, fd: Option<FastDispatcher>)
    returns (completed: bool)
    requires DispatchersOk(p, gd, fd)
    modifies cmdBuf
    ensures cmdBuf.log == old(cmdBuf.log) + CheckedSchedule(p, gd, fd, baseWidth, baseHeight, mipLevels).log
    ensures completed == CheckedSchedule(p, gd, fd, baseWidth, baseHeight, mipLevels).completed
  {
    var levelCount := mipLevels;
    if levelCount == 0 {
      levelCount := CountLevels(baseWidth, baseHeight);
    }
    if levelCount <= 1 {
      assert cmdBuf.log == old(cmdBuf.log) + [];
      return true;
    }
    var s := State(0, levelCount - 1, baseWidth, baseHeight);
    assert s == InitialState(baseWidth, baseHeight, mipLevels);
    completed := RunSchedule(cmdBuf, p, gd, fd, s);
  }
}
