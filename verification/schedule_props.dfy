/** What the scheduling loop of `nvproCmdPyramidDispatch` guarantees about
    the whole run: it fills exactly the requested levels, walks the mip chain
    level by level, separates consecutive dispatches by exactly one barrier,
    and rebinds a pipeline only when the kind of dispatcher changes. */
module PyramidProperties {
  import opened MipMath
  import opened Commands
  import opened Optional
  import opened Dispatchers
  import opened PyramidDispatch

  /** Levels filled by a sequence of iterations. */
  function SumLevels(steps: seq<Step>): nat
  {
    if steps == [] then 0 else SumLevels(steps[..|steps| - 1]) + steps[|steps| - 1].levels
  }

  /** The commands of the iterations, in order, with one `barrier` between
      two consecutive iterations and none after the last. */
  function Joined(steps: seq<Step>, barrier: Command): seq<Command>
  {
    if steps == [] then []
    else if |steps| == 1 then steps[0].cmds
    else steps[0].cmds + [barrier] + Joined(steps[1..], barrier)
  }

  /** Two consecutive iterations: the first filled at least one level and
      left some to fill, and the second starts from the progress update. */
  predicate Linked(a: Step, b: Step)
  {
    1 <= a.levels < a.before.remainingLevels && b.before == Advance(a.before, a.levels)
  }

  predicate Chained(steps: seq<Step>)
  {
    forall i :: 1 <= i < |steps| ==> Linked(steps[i - 1], steps[i])
  }

  /** An iteration after which the loop ends normally: it filled exactly the
      levels that remained. */
  predicate Finishes(a: Step)
  {
    1 <= a.levels == a.before.remainingLevels
  }

  /** The iterations of a run: the first one, then those of the run from
      the advanced state if the loop goes on. */
  lemma ScheduleSteps(p: Pipelines, gd: GeneralDispatcher, fd: Option<FastDispatcher>,
                      s: State, fastIfNeeded: Pipeline, generalIfNeeded: Pipeline)
    requires DispatchersOk(p, gd, fd)
    ensures var it := Iterate(p, gd, fd, s, fastIfNeeded, generalIfNeeded);
            var t := Schedule(p, gd, fd, s, fastIfNeeded, generalIfNeeded);
            if it.assertsHold && Advance(s, it.step.levels).remainingLevels != 0 then
              var rest := Schedule(p, gd, fd, Advance(s, it.step.levels), it.fastNext, it.generalNext);
              t.steps == [it.step] + rest.steps && t.completed == rest.completed
            else t.steps == [it.step] && t.completed == it.assertsHold
  {
  }

  /** What one iteration hands on: it saw the state it was given, its
      `assert`s hold exactly when it filled between one and the remaining
      levels, and the handles for the next iteration depend on which kind of
      dispatcher filled them. */
  lemma IterateAdvances(p: Pipelines, gd: GeneralDispatcher, fd: Option<FastDispatcher>,
                        s: State, fastIfNeeded: Pipeline, generalIfNeeded: Pipeline)
    requires DispatchersOk(p, gd, fd)
    ensures var it := Iterate(p, gd, fd, s, fastIfNeeded, generalIfNeeded);
            && it.step.before == s
            && (it.assertsHold <==> 1 <= it.step.levels <= s.remainingLevels)
            && it.step.pipelineIfNeeded == (if it.step.usedFast then fastIfNeeded else generalIfNeeded)
            && it.fastNext == (if it.step.usedFast then NullPipeline else p.fastPipeline)
            && it.generalNext == (if it.step.usedFast then p.generalPipeline else NullPipeline)
  {
  }

  /** A trace from state `s` is a chain of iterations starting there; it
      completed exactly when its last iteration filled what remained, and
      otherwise that iteration broke an `assert`. */
  predicate ChainProp(s: State, t: Trace)
  {
    && t.steps != [] && t.steps[0].before == s && Chained(t.steps)
    && (t.completed <==> Finishes(t.steps[|t.steps| - 1]))
    && (!t.completed ==>
          !(1 <= t.steps[|t.steps| - 1].levels <= t.steps[|t.steps| - 1].before.remainingLevels))
  }

  /** Every run has the shape `ChainProp` describes. */
  lemma {:induction false} ScheduleChained(p: Pipelines, gd: GeneralDispatcher, fd: Option<FastDispatcher>,
                                           s: State, fastIfNeeded: Pipeline, generalIfNeeded: Pipeline)
    requires DispatchersOk(p, gd, fd)
    ensures ChainProp(s, Schedule(p, gd, fd, s, fastIfNeeded, generalIfNeeded))
    decreases s.remainingLevels
  {
    var it := Iterate(p, gd, fd, s, fastIfNeeded, generalIfNeeded);
    var t := Schedule(p, gd, fd, s, fastIfNeeded, generalIfNeeded);
    ScheduleSteps(p, gd, fd, s, fastIfNeeded, generalIfNeeded);
    IterateAdvances(p, gd, fd, s, fastIfNeeded, generalIfNeeded);
    if it.assertsHold && Advance(s, it.step.levels).remainingLevels != 0 {
      var next := Advance(s, it.step.levels);
      ScheduleChained(p, gd, fd, next, it.fastNext, it.generalNext);
      var rest := Schedule(p, gd, fd, next, it.fastNext, it.generalNext);
      ChainPropCons(s, it.step, t, rest);
    } else {
      ChainPropSingle(s, it.step, it.assertsHold, t);
    }
  }

  /** A run whose first iteration goes on to a chained rest is chained. */
  lemma ChainPropCons(s: State, step: Step, t: Trace, rest: Trace)
    requires step.before == s && 1 <= step.levels <= s.remainingLevels
    requires Advance(s, step.levels).remainingLevels != 0
    requires ChainProp(Advance(s, step.levels), rest)
    requires t.steps == [step] + rest.steps && t.completed == rest.completed
    ensures ChainProp(s, t)
  {
    ChainedCons(step, rest.steps);
  }

  /** A run of one iteration: it completes exactly when that iteration
      filled what remained. */
  lemma ChainPropSingle(s: State, step: Step, assertsHold: bool, t: Trace)
    requires step.before == s && (assertsHold <==> 1 <= step.levels <= s.remainingLevels)
    requires !assertsHold || Advance(s, step.levels).remainingLevels == 0
    requires t.steps == [step] && t.completed == assertsHold
    ensures ChainProp(s, t)
  {
  }

  /** An iteration linked to the head of a chain extends it. */
  lemma ChainedCons(a: Step, steps: seq<Step>)
    requires steps != [] && Chained(steps) && Linked(a, steps[0])
    ensures Chained([a] + steps) && ([a] + steps)[|steps|] == steps[|steps| - 1]
  {
    var t := [a] + steps;
    forall i | 1 <= i < |t|
      ensures Linked(t[i - 1], t[i])
    {
      if i >= 2 {
        assert t[i - 1] == steps[i - 2];
      }
    }
  }

  /** Along a chain, the levels that remain drop by exactly the levels
      filled. */
  lemma {:induction false} ChainRemaining(steps: seq<Step>, n: nat)
    requires Chained(steps) && n < |steps|
    ensures steps[n].before.remainingLevels + SumLevels(steps[..n]) == steps[0].before.remainingLevels
  {
    if n > 0 {
      ChainRemaining(steps, n - 1);
      assert steps[..n][..n - 1] == steps[..n - 1];
      assert Linked(steps[n - 1], steps[n]);
    }
  }

  /** Along a chain that does not overflow the level counter, the input
      level rises by exactly the levels filled before it. */
  lemma {:induction false} ChainLevel(steps: seq<Step>, n: nat)
    requires Chained(steps) && n < |steps|
    requires steps[0].before.currentLevel + steps[0].before.remainingLevels < LIMIT
    ensures steps[n].before.currentLevel == steps[0].before.currentLevel + SumLevels(steps[..n])
  {
    if n > 0 {
      ChainLevel(steps, n - 1);
      ChainRemaining(steps, n - 1);
      assert steps[..n][..n - 1] == steps[..n - 1];
      assert Linked(steps[n - 1], steps[n]);
    }
  }

  lemma LevelPlusRemaining(steps: seq<Step>, n: nat)
    requires Chained(steps) && n < |steps|
    requires steps[0].before.currentLevel + steps[0].before.remainingLevels < LIMIT
    ensures steps[n].before.currentLevel + steps[n].before.remainingLevels
            == steps[0].before.currentLevel + steps[0].before.remainingLevels
  {
    ChainLevel(steps, n);
    ChainRemaining(steps, n);
  }

  /** Along such a chain the extents before every iteration are those of
      its input level in the chain of a `w` x `h` image. */
  lemma {:induction false} ChainExtents(steps: seq<Step>, n: nat, w: nat, h: nat)
    requires Chained(steps) && n < |steps|
    requires steps[0].before.currentLevel + steps[0].before.remainingLevels < LIMIT
    requires steps[0].before.currentX == MipDim(w, steps[0].before.currentLevel)
    requires steps[0].before.currentY == MipDim(h, steps[0].before.currentLevel)
    ensures steps[n].before.currentX == MipDim(w, steps[n].before.currentLevel)
    ensures steps[n].before.currentY == MipDim(h, steps[n].before.currentLevel)
  {
    if n > 0 {
      var a, b := steps[n - 1].before, steps[n].before;
      var k := steps[n - 1].levels;
      ChainExtents(steps, n - 1, w, h);
      LevelPlusRemaining(steps, n - 1);
      assert Linked(steps[n - 1], steps[n]);
      assert b.currentLevel == a.currentLevel + k;
      MipDimCompose(w, a.currentLevel, k);
      MipDimCompose(h, a.currentLevel, k);
    }
  }

  /** A chain whose last iteration finishes fills exactly the levels that
      remained at its start. */
  lemma ChainFills(steps: seq<Step>)
    requires steps != [] && Chained(steps) && Finishes(steps[|steps| - 1])
    ensures SumLevels(steps) == steps[0].before.remainingLevels
  {
    var n := |steps| - 1;
    ChainRemaining(steps, n);
    assert steps[..|steps|][..n] == steps[..n];
  }

  /** The dispatchers that cannot make the loop stop early: `baseline` only
      accepts input level 0, so it may only be used without a fast pipeline,
      from level 0. */
  predicate CanFinish(p: Pipelines, gd: GeneralDispatcher, s: State)
  {
    gd == Baseline ==> p.fastPipeline == NullPipeline && s.currentLevel == 0
  }

  /** With at least one level to fill and dispatchers that can finish, the
      loop ends without a failed `assert`. */
  lemma {:induction false} ScheduleCompletes(p: Pipelines, gd: GeneralDispatcher, fd: Option<FastDispatcher>,
                                             s: State, fastIfNeeded: Pipeline, generalIfNeeded: Pipeline)
    requires DispatchersOk(p, gd, fd) && CanFinish(p, gd, s)
    requires s.remainingLevels >= 1
    ensures Schedule(p, gd, fd, s, fastIfNeeded, generalIfNeeded).completed
    decreases s.remainingLevels
  {
    var it := Iterate(p, gd, fd, s, fastIfNeeded, generalIfNeeded);
    assert it.assertsHold;
    var next := Advance(s, it.step.levels);
    if next.remainingLevels != 0 {
      assert gd != Baseline;
      ScheduleCompletes(p, gd, fd, next, it.fastNext, it.generalNext);
    }
  }

  /** With nothing left to fill, whatever the dispatchers, the first
      iteration already fails an `assert`: a fast dispatcher that accepts
      reports more levels than remain, and a general one reports none or
      too many. */
  lemma EmptyChainFails(p: Pipelines, gd: GeneralDispatcher, fd: Option<FastDispatcher>,
                        s: State, fastIfNeeded: Pipeline, generalIfNeeded: Pipeline)
    requires DispatchersOk(p, gd, fd)
    requires s.remainingLevels == 0
    ensures !Schedule(p, gd, fd, s, fastIfNeeded, generalIfNeeded).completed
    ensures |Schedule(p, gd, fd, s, fastIfNeeded, generalIfNeeded).steps| == 1
  {
  }

  /** The command log of a run is the commands of its iterations joined by
      one compute-to-compute barrier each. */
  lemma {:induction false} ScheduleLog(p: Pipelines, gd: GeneralDispatcher, fd: Option<FastDispatcher>,
                                       s: State, fastIfNeeded: Pipeline, generalIfNeeded: Pipeline)
    requires DispatchersOk(p, gd, fd)
    ensures Schedule(p, gd, fd, s, fastIfNeeded, generalIfNeeded).steps != []
    ensures Schedule(p, gd, fd, s, fastIfNeeded, generalIfNeeded).log
            == Joined(Schedule(p, gd, fd, s, fastIfNeeded, generalIfNeeded).steps, ComputeToCompute)
    decreases s.remainingLevels
  {
    var it := Iterate(p, gd, fd, s, fastIfNeeded, generalIfNeeded);
    if it.assertsHold && Advance(s, it.step.levels).remainingLevels != 0 {
      var next := Advance(s, it.step.levels);
      ScheduleLog(p, gd, fd, next, it.fastNext, it.generalNext);
      var rest := Schedule(p, gd, fd, next, it.fastNext, it.generalNext);
      assert ([it.step] + rest.steps)[1..] == rest.steps;
    }
  }

  /** A dispatcher call records no barrier. */
  lemma StepHasNoBarrier(p: Pipelines, gd: GeneralDispatcher, fd: Option<FastDispatcher>,
                         s: State, fastIfNeeded: Pipeline, generalIfNeeded: Pipeline)
    requires DispatchersOk(p, gd, fd)
    ensures BarrierCount(Iterate(p, gd, fd, s, fastIfNeeded, generalIfNeeded).step.cmds) == 0
  {
    var fast := if p.fastPipeline != NullPipeline
                then FastCall(fd.value, p.pushConstantOffset, fastIfNeeded, s)
                else Returned(0, []);
    if p.fastPipeline != NullPipeline && fd.value != FastNull {
      FastCallShape(fd.value, p.pushConstantOffset, fastIfNeeded, s);
      if fast.cmds != [] {
        OneDispatchHasNoBarrier(fast.cmds, fastIfNeeded, p.pushConstantOffset, PushWord(s.currentLevel, fast.levels));
      }
    }
    NoBarrierMeansZero(fast.cmds);
    if fast.levels == 0 {
      var general := GeneralCall(gd, p.pushConstantOffset, generalIfNeeded, s);
      GeneralCallShape(gd, p.pushConstantOffset, generalIfNeeded, s);
      if general.Returned? && gd == Baseline {
        OneDispatchHasNoBarrier(general.cmds, generalIfNeeded, p.pushConstantOffset, s.remainingLevels);
      } else if general.Returned? && gd != GeneralNull {
        OneDispatchHasNoBarrier(general.cmds, generalIfNeeded, p.pushConstantOffset,
                                PushWord(s.currentLevel, general.levels));
      }
      NoBarrierMeansZero(general.cmds);
      BarrierCountAppend(fast.cmds, general.cmds);
    }
  }

  /** One barrier fewer than iterations: barriers only between dispatches. */
  lemma {:induction false} ScheduleBarriers(p: Pipelines, gd: GeneralDispatcher, fd: Option<FastDispatcher>,
                                            s: State, fastIfNeeded: Pipeline, generalIfNeeded: Pipeline)
    requires DispatchersOk(p, gd, fd)
    ensures BarrierCount(Schedule(p, gd, fd, s, fastIfNeeded, generalIfNeeded).log)
            == |Schedule(p, gd, fd, s, fastIfNeeded, generalIfNeeded).steps| - 1
    decreases s.remainingLevels
  {
    var it := Iterate(p, gd, fd, s, fastIfNeeded, generalIfNeeded);
    StepHasNoBarrier(p, gd, fd, s, fastIfNeeded, generalIfNeeded);
    if it.assertsHold && Advance(s, it.step.levels).remainingLevels != 0 {
      var next := Advance(s, it.step.levels);
      ScheduleBarriers(p, gd, fd, next, it.fastNext, it.generalNext);
      var rest := Schedule(p, gd, fd, next, it.fastNext, it.generalNext);
      assert BarrierCount([ComputeToCompute]) == 1;
      BarrierCountAppend(it.step.cmds, [ComputeToCompute]);
      BarrierCountAppend(it.step.cmds + [ComputeToCompute], rest.log);
    }
  }

  /** The handle a dispatcher is given: its pipeline, unless the previous
      iteration used the same kind of dispatcher and so left it bound. */
  function ExpectedHandle(p: Pipelines, usedFast: bool, sameKindAsBefore: bool): Pipeline
  {
    if sameKindAsBefore then NullPipeline
    else if usedFast then p.fastPipeline
    else p.generalPipeline
  }

  /** The handles at the start of an iteration, given which kind of
      dispatcher (if any) the previous iteration used. */
  predicate HandlesAfter(p: Pipelines, previousFast: Option<bool>, fastIfNeeded: Pipeline, generalIfNeeded: Pipeline)
  {
    && fastIfNeeded == (if previousFast == Some(true) then NullPipeline else p.fastPipeline)
    && generalIfNeeded == (if previousFast == Some(false) then NullPipeline else p.generalPipeline)
  }

  /** Each iteration of `t` was given its pipeline exactly when its kind of
      dispatcher had not run in the iteration before (`previousFast` for the
      first). */
  predicate RebindsFrom(p: Pipelines, previousFast: Option<bool>, t: Trace)
  {
    && t.steps != []
    && t.steps[0].pipelineIfNeeded
       == ExpectedHandle(p, t.steps[0].usedFast, previousFast == Some(t.steps[0].usedFast))
    && forall i :: 1 <= i < |t.steps| ==>
         t.steps[i].pipelineIfNeeded
         == ExpectedHandle(p, t.steps[i].usedFast, t.steps[i - 1].usedFast == t.steps[i].usedFast)
  }

  lemma {:induction false} ScheduleRebindsFrom(p: Pipelines, gd: GeneralDispatcher, fd: Option<FastDispatcher>,
                                               s: State, fastIfNeeded: Pipeline, generalIfNeeded: Pipeline,
                                               previousFast: Option<bool>)
    requires DispatchersOk(p, gd, fd)
    requires HandlesAfter(p, previousFast, fastIfNeeded, generalIfNeeded)
    ensures RebindsFrom(p, previousFast, Schedule(p, gd, fd, s, fastIfNeeded, generalIfNeeded))
    decreases s.remainingLevels
  {
    var it := Iterate(p, gd, fd, s, fastIfNeeded, generalIfNeeded);
    var t := Schedule(p, gd, fd, s, fastIfNeeded, generalIfNeeded);
    ScheduleSteps(p, gd, fd, s, fastIfNeeded, generalIfNeeded);
    IterateAdvances(p, gd, fd, s, fastIfNeeded, generalIfNeeded);
    FirstHandle(p, previousFast, fastIfNeeded, generalIfNeeded, it.step);
    if it.assertsHold && Advance(s, it.step.levels).remainingLevels != 0 {
      var next := Advance(s, it.step.levels);
      ScheduleRebindsFrom(p, gd, fd, next, it.fastNext, it.generalNext, Some(it.step.usedFast));
      var rest := Schedule(p, gd, fd, next, it.fastNext, it.generalNext);
      RebindsCons(p, previousFast, it.step, t, rest);
    }
  }

  /** An iteration given the handle of its kind from `HandlesAfter` binds
      exactly when `ExpectedHandle` says so. */
  lemma FirstHandle(p: Pipelines, previousFast: Option<bool>, fastIfNeeded: Pipeline, generalIfNeeded: Pipeline,
                    step: Step)
    requires HandlesAfter(p, previousFast, fastIfNeeded, generalIfNeeded)
    requires step.pipelineIfNeeded == (if step.usedFast then fastIfNeeded else generalIfNeeded)
    ensures step.pipelineIfNeeded == ExpectedHandle(p, step.usedFast, previousFast == Some(step.usedFast))
  {
  }

  /** A first iteration with the right handle, followed by a run that binds
      as it should after it, binds as it should. */
  lemma RebindsCons(p: Pipelines, previousFast: Option<bool>, step: Step, t: Trace, rest: Trace)
    requires step.pipelineIfNeeded == ExpectedHandle(p, step.usedFast, previousFast == Some(step.usedFast))
    requires RebindsFrom(p, Some(step.usedFast), rest)
    requires t.steps == [step] + rest.steps
    ensures RebindsFrom(p, previousFast, t)
  {
    forall i | 1 <= i < |t.steps|
      ensures t.steps[i].pipelineIfNeeded
              == ExpectedHandle(p, t.steps[i].usedFast, t.steps[i - 1].usedFast == t.steps[i].usedFast)
    {
      assert t.steps[i] == rest.steps[i - 1];
      assert t.steps[i - 1] == if i == 1 then step else rest.steps[i - 2];
    }
  }

  /** From the start of `nvproCmdPyramidDispatch` the first dispatcher is
      given its pipeline, and afterwards a pipeline is bound again only when
      the other kind of dispatcher ran in between. */
  lemma ScheduleRebinds(p: Pipelines, gd: GeneralDispatcher, fd: Option<FastDispatcher>,
                        baseWidth: u32, baseHeight: u32, mipLevels: u32)
    requires DispatchersOk(p, gd, fd)
    ensures var t := ScheduleFromBase(p, gd, fd, baseWidth, baseHeight, mipLevels);
            && t.steps[0].pipelineIfNeeded == ExpectedHandle(p, t.steps[0].usedFast, false)
            && forall i :: 1 <= i < |t.steps| ==>
                 t.steps[i].pipelineIfNeeded
                 == ExpectedHandle(p, t.steps[i].usedFast, t.steps[i - 1].usedFast == t.steps[i].usedFast)
  {
    ScheduleRebindsFrom(p, gd, fd, InitialState(baseWidth, baseHeight, mipLevels),
                        p.fastPipeline, p.generalPipeline, None);
  }

  /** No iteration of `t` used the fast dispatcher. */
  predicate AllGeneral(t: Trace)
  {
    forall i :: 0 <= i < |t.steps| ==> !t.steps[i].usedFast
  }

  /** Without a fast pipeline the fast dispatcher is never consulted: every
      level is filled by the general one. */
  lemma {:induction false} NoFastPipelineNoFastSteps(p: Pipelines, gd: GeneralDispatcher, fd: Option<FastDispatcher>,
                                                     s: State, fastIfNeeded: Pipeline, generalIfNeeded: Pipeline)
    requires DispatchersOk(p, gd, fd) && p.fastPipeline == NullPipeline
    ensures AllGeneral(Schedule(p, gd, fd, s, fastIfNeeded, generalIfNeeded))
    decreases s.remainingLevels
  {
    var it := Iterate(p, gd, fd, s, fastIfNeeded, generalIfNeeded);
    var t := Schedule(p, gd, fd, s, fastIfNeeded, generalIfNeeded);
    ScheduleSteps(p, gd, fd, s, fastIfNeeded, generalIfNeeded);
    assert !it.step.usedFast;
    if it.assertsHold && Advance(s, it.step.levels).remainingLevels != 0 {
      var next := Advance(s, it.step.levels);
      NoFastPipelineNoFastSteps(p, gd, fd, next, it.fastNext, it.generalNext);
      var rest := Schedule(p, gd, fd, next, it.fastNext, it.generalNext);
      AllGeneralCons(it.step, t, rest);
    }
  }

  lemma AllGeneralCons(step: Step, t: Trace, rest: Trace)
    requires !step.usedFast && AllGeneral(rest) && t.steps == [step] + rest.steps
    ensures AllGeneral(t)
  {
    forall i | 1 <= i < |t.steps|
      ensures !t.steps[i].usedFast
    {
      assert t.steps[i] == rest.steps[i - 1];
    }
  }

  /** The whole call from a base image: when the chain has more than one
      level, the run ends normally, fills every level below the base exactly
      once, starting each dispatch at the level the previous one stopped at,
      and records one barrier fewer than dispatches. */
  lemma PyramidFromBase(p: Pipelines, gd: GeneralDispatcher, fd: Option<FastDispatcher>,
                        baseWidth: u32, baseHeight: u32, mipLevels: u32)
    requires DispatchersOk(p, gd, fd) && (gd == Baseline ==> p.fastPipeline == NullPipeline)
    requires baseWidth >= 1 && baseHeight >= 1
    requires RequestedLevels(baseWidth, baseHeight, mipLevels) >= 2
    ensures var t := ScheduleFromBase(p, gd, fd, baseWidth, baseHeight, mipLevels);
            && t.completed
            && SumLevels(t.steps) == RequestedLevels(baseWidth, baseHeight, mipLevels) - 1
            && BarrierCount(t.log) == |t.steps| - 1
            && forall i :: 0 <= i < |t.steps| ==>
                 && t.steps[i].before.currentLevel == SumLevels(t.steps[..i])
                 && t.steps[i].before.remainingLevels >= 1
                 && t.steps[i].before.currentX == MipDim(baseWidth, t.steps[i].before.currentLevel)
                 && t.steps[i].before.currentY == MipDim(baseHeight, t.steps[i].before.currentLevel)
  {
    var s := InitialState(baseWidth, baseHeight, mipLevels);
    var t := ScheduleFromBase(p, gd, fd, baseWidth, baseHeight, mipLevels);
    MipDimZero(baseWidth);
    MipDimZero(baseHeight);
    ScheduleCompletes(p, gd, fd, s, p.fastPipeline, p.generalPipeline);
    ScheduleChained(p, gd, fd, s, p.fastPipeline, p.generalPipeline);
    ScheduleBarriers(p, gd, fd, s, p.fastPipeline, p.generalPipeline);
    ChainFills(t.steps);
    forall i | 0 <= i < |t.steps|
      ensures t.steps[i].before.currentLevel == SumLevels(t.steps[..i])
      ensures t.steps[i].before.remainingLevels >= 1
      ensures t.steps[i].before.currentX == MipDim(baseWidth, t.steps[i].before.currentLevel)
      ensures t.steps[i].before.currentY == MipDim(baseHeight, t.steps[i].before.currentLevel)
    {
      ChainLevel(t.steps, i);
      ChainExtents(t.steps, i, baseWidth, baseHeight);
      if i >= 1 {
        assert Linked(t.steps[i - 1], t.steps[i]);
      }
    }
  }

  /** As written, a chain of one level (a 1 x 1 base with the full chain
      asked for, or `mipLevels == 1`) hands the dispatchers a state with no
      level left to fill, and the first `assert` on `levelsDone` fails. */
  lemma OneLevelChainFails(p: Pipelines, gd: GeneralDispatcher, fd: Option<FastDispatcher>,
                           baseWidth: u32, baseHeight: u32)
    requires DispatchersOk(p, gd, fd)
    ensures !ScheduleFromBase(p, gd, fd, 1, 1, 0).completed
    ensures !ScheduleFromBase(p, gd, fd, baseWidth, baseHeight, 1).completed
  {
    assert LevelCount(1, 1) == 1;
    EmptyChainFails(p, gd, fd, InitialState(1, 1, 0), p.fastPipeline, p.generalPipeline);
    EmptyChainFails(p, gd, fd, InitialState(baseWidth, baseHeight, 1), p.fastPipeline, p.generalPipeline);
  }

  /** With the one-level chain handled up front, every call with
      dispatchers that can finish ends normally, fills every requested level
      below the base, and never hands a dispatcher a state with no level left
      to fill. */
  lemma CheckedPyramidCompletes(p: Pipelines, gd: GeneralDispatcher, fd: Option<FastDispatcher>,
                                baseWidth: u32, baseHeight: u32, mipLevels: u32)
    requires DispatchersOk(p, gd, fd) && (gd == Baseline ==> p.fastPipeline == NullPipeline)
    ensures var t := CheckedSchedule(p, gd, fd, baseWidth, baseHeight, mipLevels);
            && t.completed
            && SumLevels(t.steps) == Max(RequestedLevels(baseWidth, baseHeight, mipLevels) - 1, 0)
            && forall i :: 0 <= i < |t.steps| ==> t.steps[i].before.remainingLevels >= 1
  {
    var t := CheckedSchedule(p, gd, fd, baseWidth, baseHeight, mipLevels);
    if RequestedLevels(baseWidth, baseHeight, mipLevels) >= 2 {
      var s := InitialState(baseWidth, baseHeight, mipLevels);
      ScheduleCompletes(p, gd, fd, s, p.fastPipeline, p.generalPipeline);
      ScheduleChained(p, gd, fd, s, p.fastPipeline, p.generalPipeline);
      ChainFills(t.steps);
      forall i | 1 <= i < |t.steps|
        ensures t.steps[i].before.remainingLevels >= 1
      {
        assert Linked(t.steps[i - 1], t.steps[i]);
      }
    }
  }

  /** Concrete chains: a 4096 x 4096 image has 13 levels; a 4095 x 4095 one
      has 12, and its level 1 is 2047 x 2047 (the shift rounds down). */
  lemma ChainExamples()
    ensures LevelCount(4096, 4096) == 13
    ensures LevelCount(4095, 4095) == 12
    ensures MipDim(4095, 1) == 2047
    ensures LevelCount(1, 1) == 1 && LevelCount(0, 0) == 0
  {
    assert BitLength(4096) == 13;
    assert BitLength(4095) == 12;
  }

  /** The null dispatcher reports every remaining level as filled and
      records nothing, so a run that reaches it ends with that one iteration
      and an empty log: no bind, no dispatch and no barrier. */
  lemma NullDispatcherFinishesAtOnce(p: Pipelines, gd: GeneralDispatcher, fd: Option<FastDispatcher>,
                                     s: State, fastIfNeeded: Pipeline, generalIfNeeded: Pipeline)
    requires DispatchersOk(p, gd, fd) && s.remainingLevels >= 1
    requires if p.fastPipeline != NullPipeline then fd == Some(FastNull) else gd == GeneralNull
    ensures var t := Schedule(p, gd, fd, s, fastIfNeeded, generalIfNeeded);
            t.completed && |t.steps| == 1 && t.steps[0].levels == s.remainingLevels && t.log == []
  {
    ScheduleSteps(p, gd, fd, s, fastIfNeeded, generalIfNeeded);
  }

  /** `fixed3levels` on a 16 x 16 base (five levels): the first iteration
      fills levels 1 to 3 with one fast dispatch (16 down to 2), the fast
      dispatcher then declines on 2 x 2 and the general one fills level 4,
      with one barrier between the two. */
  lemma Fixed3LevelsExample(fast: Pipeline, general: Pipeline)
    requires fast != NullPipeline
    ensures var p := Pipelines(fast, general, 0);
            var t := ScheduleFromBase(p, DefaultGeneral, Some(Fixed3Levels), 16, 16, 0);
            && t.completed && |t.steps| == 2
            && t.steps[0].usedFast && t.steps[0].levels == 3
            && !t.steps[1].usedFast && t.steps[1].levels == 1
            && t.steps[1].before.currentX == 2 && t.steps[1].before.currentY == 2
            && BarrierCount(t.log) == 1
  {
    var p := Pipelines(fast, general, 0);
    var fd := Some(Fixed3Levels);
    assert BitLength(16) == 5;
    var s0 := InitialState(16, 16, 0);
    assert s0 == State(0, 4, 16, 16);
    Fixed3LevelsFirstIteration(p);
    var s1 := Advance(s0, 3);
    assert s1 == State(3, 1, 2, 2);
    Fixed3LevelsSecondIteration(p);
    ScheduleSteps(p, DefaultGeneral, fd, s0, fast, general);
    ScheduleSteps(p, DefaultGeneral, fd, s1, NullPipeline, general);
    ScheduleBarriers(p, DefaultGeneral, fd, s0, fast, general);
  }

  /** The first iteration of that run: `fixed3levels` fills levels 1 to 3. */
  lemma Fixed3LevelsFirstIteration(p: Pipelines)
    requires p.fastPipeline != NullPipeline && p.pushConstantOffset == 0
    ensures var it := Iterate(p, DefaultGeneral, Some(Fixed3Levels), State(0, 4, 16, 16),
                              p.fastPipeline, p.generalPipeline);
            && it.step.usedFast && it.step.levels == 3 && it.assertsHold
            && it.fastNext == NullPipeline && it.generalNext == p.generalPipeline
  {
    var s := State(0, 4, 16, 16);
    assert EvenTimes(16, 3) by { assert MipDim(16, 1) == 8 && MipDim(16, 2) == 4; }
    Fixed3LevelsGate(0, p.fastPipeline, s);
  }

  /** The second iteration: one level remains, so the general dispatcher
      fills it. */
  lemma Fixed3LevelsSecondIteration(p: Pipelines)
    requires p.fastPipeline != NullPipeline && p.pushConstantOffset == 0
    ensures var it := Iterate(p, DefaultGeneral, Some(Fixed3Levels), State(3, 1, 2, 2),
                              NullPipeline, p.generalPipeline);
            && !it.step.usedFast && it.step.levels == 1 && it.assertsHold
  {
    var s := State(3, 1, 2, 2);
    Fixed3LevelsGate(0, NullPipeline, s);
    DefaultGeneralFills(0, p.generalPipeline, s);
  }
}
