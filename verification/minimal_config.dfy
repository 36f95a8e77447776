/** The minimal sample's configuration: its command line (`Config::Config`)
    and the decision whether the device can run the fast pipeline, which
    `main` takes from the subgroup properties the device reports. Help and
    error text are left out; the exit status is kept. */
module MinimalConfig {
  import opened MipMath
  import opened Optional
  import opened Commands
  import opened Dispatchers
  import opened PyramidDispatch
  import opened PyramidProperties

  /** The fields of `Config`. */
  datatype Fields = Fields(canUseFastPipeline: bool, forceDisableFastPipeline: bool, doPremultiplyAlpha: bool,
                           rawInputFilename: string, outputFilenameTemplate: string)

  /** The member initialisers. */
  function Defaults(): (f: Fields)
    ensures !f.canUseFastPipeline && !f.forceDisableFastPipeline && !f.doPremultiplyAlpha
  {
    Fields(false, false, false, "4096.jpg", "./vk_compute_mipmaps_minimal.tga")
  }

  /** The options `Config::Config` recognises. */
  datatype Opt = Help | Input | Output | ForceNoFast | Premultiplied | DoPremultiply | Unknown

  function Classify(arg: string): Opt
  {
    if arg == "-h" || arg == "/?" then Help
    else if arg == "-i" then Input
    else if arg == "-o" then Output
    else if arg == "-force-no-fast-pipeline" then ForceNoFast
    else if arg == "-premultiplied-alpha" then Premultiplied
    else if arg == "-do-premultiply-alpha" then DoPremultiply
    else Unknown
  }

  function ParamCount(arg: string): nat
  {
    if Classify(arg) in {Input, Output} then 1 else 0
  }

  /** One iteration: go on at `next`, or exit with `status`. */
  datatype Step = Next(next: nat, fields: Fields) | Stop(status: int)

  /** One iteration of the loop at index `i` (`argv[argc]` is the null
      pointer). */
  function ConfigStep(argv: seq<string>, i: nat, f: Fields): (r: Step)
    requires 1 <= i < |argv|
    ensures r.Stop? <==> Classify(argv[i]) in {Help, Unknown} || i + ParamCount(argv[i]) >= |argv|
    ensures r.Stop? ==> (r.status == 0 <==> Classify(argv[i]) == Help) && (r.status == 0 || r.status == 1)
    ensures r.Next? ==> r.next == i + 1 + ParamCount(argv[i])
  {
    match Classify(argv[i])
    case Help => Stop(0)
    case Input => if i + 1 < |argv| then Next(i + 2, f.(rawInputFilename := argv[i + 1])) else Stop(1)
    case Output => if i + 1 < |argv| then Next(i + 2, f.(outputFilenameTemplate := argv[i + 1])) else Stop(1)
    case ForceNoFast => Next(i + 1, f.(forceDisableFastPipeline := true))
    case Premultiplied => Next(i + 1, f.(doPremultiplyAlpha := false))
    case DoPremultiply => Next(i + 1, f.(doPremultiplyAlpha := true))
    case Unknown => Stop(1)
  }

  /** The loop from index `i`: the fields it ends with, or the exit
      status. */
  function ConfigFrom(argv: seq<string>, i: nat, f: Fields): Result
    decreases |argv| - i
  {
    if i == 0 || i >= |argv| then Parsed(f)
    else
      match ConfigStep(argv, i, f)
      case Stop(status) => Exit(status)
      case Next(j, f') => ConfigFrom(argv, j, f')
  }

  datatype Result = Parsed(fields: Fields) | Exit(status: int)

  /** The arguments read as options, skipping their parameters. */
  function OptionTokens(argv: seq<string>, i: nat): seq<string>
    decreases |argv| - i
  {
    if i >= |argv| then [] else [argv[i]] + OptionTokens(argv, i + 1 + ParamCount(argv[i]))
  }

  /** The alpha choice of the last of the two premultiply options read, if
      any. */
  function LastAlphaChoice(toks: seq<string>): Option<bool>
  {
    if toks == [] then None
    else
      var last := Classify(toks[|toks| - 1]);
      if last == Premultiplied then Some(false)
      else if last == DoPremultiply then Some(true)
      else LastAlphaChoice(toks[..|toks| - 1])
  }

  lemma LastAlphaChoiceCons(t: string, toks: seq<string>)
    ensures LastAlphaChoice([t] + toks) ==
              if LastAlphaChoice(toks).Some? then LastAlphaChoice(toks)
              else if Classify(t) == Premultiplied then Some(false)
              else if Classify(t) == DoPremultiply then Some(true)
              else None
    decreases |toks|
  {
    if toks != [] {
      assert ([t] + toks)[..|[t] + toks| - 1] == [t] + toks[..|toks| - 1];
      LastAlphaChoiceCons(t, toks[..|toks| - 1]);
    }
  }

  /** What one step leaves in `doPremultiplyAlpha`. */
  lemma StepAlpha(argv: seq<string>, i: nat, f: Fields)
    requires 1 <= i < |argv| && ConfigStep(argv, i, f).Next?
    ensures ConfigStep(argv, i, f).fields.doPremultiplyAlpha ==
              if Classify(argv[i]) == Premultiplied then false
              else if Classify(argv[i]) == DoPremultiply then true
              else f.doPremultiplyAlpha
  {
  }

  /** The loop goes on from the step's successor. */
  lemma ConfigFromStep(argv: seq<string>, i: nat, f: Fields)
    requires 1 <= i < |argv| && ConfigStep(argv, i, f).Next?
    ensures ConfigFrom(argv, i, f) == ConfigFrom(argv, ConfigStep(argv, i, f).next, ConfigStep(argv, i, f).fields)
    ensures OptionTokens(argv, i) == [argv[i]] + OptionTokens(argv, ConfigStep(argv, i, f).next)
  {
  }

  /** The last of `-premultiplied-alpha` and `-do-premultiply-alpha`
      decides; without either, the field keeps its value. */
  lemma {:induction false} LastAlphaOptionWins(argv: seq<string>, i: nat, f: Fields)
    requires 1 <= i && ConfigFrom(argv, i, f).Parsed?
    ensures var choice := LastAlphaChoice(OptionTokens(argv, i));
            ConfigFrom(argv, i, f).fields.doPremultiplyAlpha ==
              if choice.Some? then choice.value else f.doPremultiplyAlpha
    decreases |argv| - i
  {
    if i < |argv| {
      var step := ConfigStep(argv, i, f);
      assert step.Next?;
      ConfigFromStep(argv, i, f);
      StepAlpha(argv, i, f);
      LastAlphaOptionWins(argv, step.next, step.fields);
      LastAlphaChoiceCons(argv[i], OptionTokens(argv, step.next));
    }
  }

  /** The subgroup properties `main` reads from the device. */
  datatype SubgroupProperties = SubgroupProperties(subgroupSize: u32, computeStage: bool, shuffle: bool)

  /** `subgroupProperties = {}`. */
  const NoSubgroupSupport: SubgroupProperties := SubgroupProperties(0, false, false)

  class Config {
    var canUseFastPipeline: bool
    var forceDisableFastPipeline: bool
    var doPremultiplyAlpha: bool
    var rawInputFilename: string
    var outputFilenameTemplate: string

    function Current(): Fields
      reads this
    {
      Fields(canUseFastPipeline, forceDisableFastPipeline, doPremultiplyAlpha, rawInputFilename, outputFilenameTemplate)
    }

    /** The member initialisers; `ReadArguments` is the body of
        `Config::Config`. */
    constructor ()
      ensures Current() == Defaults()
    {
      canUseFastPipeline, forceDisableFastPipeline, doPremultiplyAlpha := false, false, false;
      rawInputFilename, outputFilenameTemplate := "4096.jpg", "./vk_compute_mipmaps_minimal.tga";
    }

    /** The argument loop of `Config::Config`; `exit` is the status the
        process exits with, if it does. */
    method ReadArguments(argv: seq<string>) returns (exit: Option<int>)
      modifies this
      ensures match ConfigFrom(argv, 1, old(Current()))
              case Exit(status) => exit == Some(status)
              case Parsed(f) => exit == None && Current() == f
    {
      var i := 1;
      while i < |argv|
        invariant 1 <= i
        invariant ConfigFrom(argv, i, Current()) == ConfigFrom(argv, 1, old(Current()))
        decreases |argv| - i
      {
        var arg := argv[i];
        match Classify(arg) {
        case Help =>
          return Some(0);
        case Input =>
          if i + 1 >= |argv| {
            return Some(1);
          }
          rawInputFilename := argv[i + 1];
          i := i + 1;
        case Output =>
          if i + 1 >= |argv| {
            return Some(1);
          }
          outputFilenameTemplate := argv[i + 1];
          i := i + 1;
        case ForceNoFast =>
          forceDisableFastPipeline := true;
        case Premultiplied =>
          doPremultiplyAlpha := false;
        case DoPremultiply =>
          doPremultiplyAlpha := true;
        case Unknown =>
          return Some(1);
        }
        i := i + 1;
      }
      exit := None;
    }

    /** The checks in `main`: assume the fast pipeline usable, fake a
        device without subgroup support when asked to, then rule it out
        for each missing feature. */
    method DecideFastPipeline(reported: SubgroupProperties)
      modifies this
      ensures canUseFastPipeline <==>
                !forceDisableFastPipeline && reported.subgroupSize >= 16 && reported.computeStage && reported.shuffle
      ensures Current() == old(Current()).(canUseFastPipeline := canUseFastPipeline)
    {
      canUseFastPipeline := true;
      var props := reported;
      if forceDisableFastPipeline {
        props := NoSubgroupSupport;
      }
      if props.subgroupSize < 16 {
        canUseFastPipeline := false;
      }
      if !props.computeStage {
        canUseFastPipeline := false;
      }
      if !props.shuffle {
        canUseFastPipeline := false;
      }
    }
  }

  /** The pipelines `app` passes: no fast pipeline handle when the fast
      pipeline is unusable. */
  function MinimalPipelines(canUseFastPipeline: bool, compiledFast: Pipeline, compiledGeneral: Pipeline): (p: Pipelines)
    ensures !canUseFastPipeline ==> p.fastPipeline == NullPipeline
    ensures p.generalPipeline == compiledGeneral && p.pushConstantOffset == 0
  {
    Pipelines(if canUseFastPipeline then compiledFast else NullPipeline, compiledGeneral, 0)
  }

  /** Without a usable fast pipeline the scheduler never runs the fast
      dispatcher: every step of the pyramid is a general one. */
  lemma UnusableFastNeverDispatched(compiledFast: Pipeline, compiledGeneral: Pipeline, width: u32, height: u32)
    ensures var p := MinimalPipelines(false, compiledFast, compiledGeneral);
            var t := ScheduleFromBase(p, DefaultGeneral, Some(DefaultFast(4, 6)), width, height, 0);
            forall i :: 0 <= i < |t.steps| ==> !t.steps[i].usedFast
  {
    var p := MinimalPipelines(false, compiledFast, compiledGeneral);
    var fd := Some(DefaultFast(4, 6));
    assert DispatchersOk(p, DefaultGeneral, fd);
    var s := InitialState(width, height, 0);
    NoFastPipelineNoFastSteps(p, DefaultGeneral, fd, s, p.fastPipeline, p.generalPipeline);
    assert ScheduleFromBase(p, DefaultGeneral, fd, width, height, 0)
        == Schedule(p, DefaultGeneral, fd, s, p.fastPipeline, p.generalPipeline);
  }
}
