/** The demo's command line (`parseArgs`): options are read left to right
    from `argv[1]`, an option with parameters consumes them, and the window
    is opened unless an output option disabled it and `-window` did not
    re-enable it.

    `argv` is the argument vector without its terminating null pointer:
    reading `argv[j]` for `j == argc` yields the null pointer, modelled as
    `None`. `strtol` is the C library's number parser, a parameter here;
    printing help and error text is left out, the exit status is kept. */
module AppArguments {
  import opened MipMath
  import opened Optional

  /** What `strtol(text, &endptr, 0)` reports: the `long` value and
      whether the whole text was consumed (`*endptr == '\0'`). */
  datatype LongParse = LongParse(value: int, wholeText: bool)

  /** The fields of `AppArgs`. */
  datatype Args = Args(inputFilename: string, outputFilename: string, outputPipelineAlternativeLabel: string,
                       test: bool, animationTextureWidth: u32, animationTextureHeight: u32,
                       benchmarkFilename: string, dumpPipelineStats: bool, openWindow: bool)

  /** The member initialisers as declared: `test` has none, so an
      `AppArgs` declared as a local starts with whatever `test` held. */
  function DeclaredDefaults(uninitialisedTest: bool): (a: Args)
    ensures a.test == uninitialisedTest
    ensures a.outputPipelineAlternativeLabel == "default" && !a.openWindow && !a.dumpPipelineStats
  {
    Args("", "", "default", uninitialisedTest, 16384, 16384, "", false, false)
  }

  /** The defaults with `test` starting false, as every other flag does. */
  function Defaults(): (a: Args)
    ensures !a.test && a == DeclaredDefaults(false)
  {
    DeclaredDefaults(false)
  }

  /** The loop's state: the fields written so far, the two window flags
      and the parameters reported as bad numbers. */
  datatype Scan = Scan(args: Args, windowExplicitlyEnabled: bool, windowImplicitlyDisabled: bool,
                       badNumbers: seq<string>)

  /** One iteration: go on at `next`, or exit the process with `status`. */
  datatype Step = Next(next: nat, scan: Scan) | Stop(status: int, scan: Scan)

  /** How the whole loop ends. */
  datatype Run = Finished(scan: Scan) | Exited(status: int, scan: Scan)

  /** `argv[j]`, or the null pointer at and past `argc`. */
  function Param(argv: seq<string>, j: nat): Option<string>
  {
    if j < |argv| then Some(argv[j]) else None
  }

  /** The options `parseArgs` recognises, by the `strcmp` that matches. */
  datatype Opt = Help | Input | Output | Pipeline | Test | Texture | Benchmark | Stats | Window | Unknown

  function Classify(arg: string): Opt
  {
    if arg == "-h" || arg == "/?" then Help
    else if arg == "-i" then Input
    else if arg == "-o" then Output
    else if arg == "-pipeline" then Pipeline
    else if arg == "-test" then Test
    else if arg == "-texture" then Texture
    else if arg == "-benchmark" then Benchmark
    else if arg == "-stats" then Stats
    else if arg == "-window" then Window
    else Unknown
  }

  /** How many following arguments an option consumes. */
  function ParamCount(arg: string): nat
  {
    match Classify(arg)
    case Input | Output | Pipeline | Benchmark => 1
    case Texture => 2
    case _ => 0
  }

  /** `badNumber` is called for a parameter that is not wholly a number or
      is not positive. */
  function ReportIfBad(bad: seq<string>, text: string, n: LongParse): seq<string>
  {
    if !n.wholeText || n.value <= 0 then bad + [text] else bad
  }

  /** One iteration of the loop at index `i`. */
  function ParseStep(argv: seq<string>, i: nat, sc: Scan, strtol: string -> LongParse): (r: Step)
    requires 1 <= i < |argv|
    ensures r.Stop? <==> Classify(argv[i]) in {Unknown, Help} || i + ParamCount(argv[i]) >= |argv|
    ensures r.Stop? ==> (r.status == 0 <==> Classify(argv[i]) == Help) && (r.status == 0 || r.status == 1)
    ensures r.Next? ==> r.next == i + 1 + ParamCount(argv[i]) <= |argv|
    ensures r.scan.windowExplicitlyEnabled == (sc.windowExplicitlyEnabled || Classify(argv[i]) == Window)
    ensures r.Next? ==> r.scan.windowImplicitlyDisabled == (sc.windowImplicitlyDisabled || Classify(argv[i]) in {Output, Benchmark})
    ensures r.scan.args.test == (sc.args.test || Classify(argv[i]) == Test)
  {
    var param0 := Param(argv, i + 1);
    var param1 := if param0.None? then None else Param(argv, i + 2);
    var a := sc.args;
    match Classify(argv[i])
    case Help => Stop(0, sc)
    case Input =>
      if param0.None? then Stop(1, sc)
      else Next(i + 2, sc.(args := a.(inputFilename := param0.value)))
    case Output =>
      var sc' := sc.(windowImplicitlyDisabled := true);
      if param0.None? then Stop(1, sc')
      else Next(i + 2, sc'.(args := a.(outputFilename := param0.value)))
    case Pipeline =>
      if param0.None? then Stop(1, sc)
      else Next(i + 2, sc.(args := a.(outputPipelineAlternativeLabel := param0.value)))
    case Test => Next(i + 1, sc.(args := a.(test := true)))
    case Texture =>
      if param0.None? then Stop(1, sc)
      else
        var x := strtol(param0.value);
        var bad := ReportIfBad(sc.badNumbers, param0.value, x);
        if param1.None? then Stop(1, sc.(badNumbers := bad))
        else
          var y := strtol(param1.value);
          Next(i + 3, sc.(args := a.(animationTextureWidth := Wrap(x.value), animationTextureHeight := Wrap(y.value)),
                          badNumbers := ReportIfBad(bad, param1.value, y)))
    case Benchmark =>
      var sc' := sc.(windowImplicitlyDisabled := true);
      if param0.None? then Stop(1, sc')
      else Next(i + 2, sc'.(args := a.(benchmarkFilename := param0.value)))
    case Stats => Next(i + 1, sc.(args := a.(dumpPipelineStats := true)))
    case Window => Next(i + 1, sc.(windowExplicitlyEnabled := true))
    case Unknown => Stop(1, sc)
  }

  /** The loop from index `i` on. */
  function ParseFrom(argv: seq<string>, i: nat, sc: Scan, strtol: string -> LongParse): Run
    decreases |argv| - i
  {
    if i == 0 || i >= |argv| then Finished(sc)
    else
      match ParseStep(argv, i, sc, strtol)
      case Stop(status, sc') => Exited(status, sc')
      case Next(j, sc') => ParseFrom(argv, j, sc', strtol)
  }

  /** What `parseArgs` leaves in `*outArgs` and whether it exits. */
  datatype Outcome = Outcome(args: Args, exit: Option<int>, badNumbers: seq<string>)

  function Parse(argv: seq<string>, init: Args, strtol: string -> LongParse): (r: Outcome)
  {
    match ParseFrom(argv, 1, Scan(init, false, false, []), strtol)
    case Exited(status, sc) => Outcome(sc.args, Some(status), sc.badNumbers)
    case Finished(sc) =>
      Outcome(sc.args.(openWindow := !sc.windowImplicitlyDisabled || sc.windowExplicitlyEnabled), None, sc.badNumbers)
  }

  /** The arguments the loop reads as options, skipping the parameters
      they consume. */
  function OptionTokens(argv: seq<string>, i: nat): seq<string>
    decreases |argv| - i
  {
    if i >= |argv| then [] else [argv[i]] + OptionTokens(argv, i + 1 + ParamCount(argv[i]))
  }

  /** The value an option with one parameter writes. */
  function OptionField(a: Args, o: Opt): string
    requires o in {Input, Output, Pipeline, Benchmark}
  {
    match o
    case Input => a.inputFilename
    case Output => a.outputFilename
    case Pipeline => a.outputPipelineAlternativeLabel
    case Benchmark => a.benchmarkFilename
  }

  /** An iteration that goes on reads nothing past the arguments it
      consumes, so arguments appended later do not change it. */
  lemma StepExtend(a: seq<string>, b: seq<string>, i: nat, sc: Scan, strtol: string -> LongParse)
    requires 1 <= i < |a| && ParseStep(a, i, sc, strtol).Next?
    ensures ParseStep(a + b, i, sc, strtol) == ParseStep(a, i, sc, strtol)
  {
    assert (a + b)[i] == a[i];
    assert i + 1 < |a| ==> (a + b)[i + 1] == a[i + 1];
    assert i + 2 < |a| ==> (a + b)[i + 2] == a[i + 2];
  }

  /** Parsing is compositional: when the arguments `a` parse to the end,
      parsing `a + b` is parsing `b` from where `a` left off. */
  lemma {:induction false} ParseAppend(a: seq<string>, b: seq<string>, i: nat, sc: Scan, strtol: string -> LongParse)
    requires 1 <= i <= |a| && ParseFrom(a, i, sc, strtol).Finished?
    ensures ParseFrom(a + b, i, sc, strtol) == ParseFrom(a + b, |a|, ParseFrom(a, i, sc, strtol).scan, strtol)
    decreases |a| - i
  {
    if i < |a| {
      var step := ParseStep(a, i, sc, strtol);
      StepExtend(a, b, i, sc, strtol);
      ParseAppend(a, b, step.next, step.scan, strtol);
    }
  }

  /** The window flags and `test` after a complete parse: each is its
      value before, or'ed with whether its option was read. */
  lemma {:induction false} FlagsFrom(argv: seq<string>, i: nat, sc: Scan, strtol: string -> LongParse)
    requires 1 <= i && ParseFrom(argv, i, sc, strtol).Finished?
    ensures var out := ParseFrom(argv, i, sc, strtol).scan;
            var toks := OptionTokens(argv, i);
            && out.windowExplicitlyEnabled == (sc.windowExplicitlyEnabled || "-window" in toks)
            && out.windowImplicitlyDisabled == (sc.windowImplicitlyDisabled || "-o" in toks || "-benchmark" in toks)
            && out.args.test == (sc.args.test || "-test" in toks)
    decreases |argv| - i
  {
    if i < |argv| {
      var step := ParseStep(argv, i, sc, strtol);
      StepFlags(argv, i, sc, strtol);
      FlagsFrom(argv, step.next, step.scan, strtol);
      assert OptionTokens(argv, i) == [argv[i]] + OptionTokens(argv, step.next);
    }
  }

  /** One iteration that goes on skips the option's parameters and sets
      each flag exactly when the option it read is that flag's. */
  lemma StepFlags(argv: seq<string>, i: nat, sc: Scan, strtol: string -> LongParse)
    requires 1 <= i < |argv| && ParseStep(argv, i, sc, strtol).Next?
    ensures var step, arg := ParseStep(argv, i, sc, strtol), argv[i];
            && step.next == i + 1 + ParamCount(arg)
            && step.scan.windowExplicitlyEnabled == (sc.windowExplicitlyEnabled || arg == "-window")
            && step.scan.windowImplicitlyDisabled
               == (sc.windowImplicitlyDisabled || arg == "-o" || arg == "-benchmark")
            && step.scan.args.test == (sc.args.test || arg == "-test")
  {
    var arg := argv[i];
    assert Classify(arg) == Window <==> arg == "-window";
    assert Classify(arg) in {Output, Benchmark} <==> arg == "-o" || arg == "-benchmark";
    assert Classify(arg) == Test <==> arg == "-test";
  }

  /** Whether the window opens depends only on which options were given,
      not on their order: unless `-o` or `-benchmark` was read, or if
      `-window` was. */
  lemma OpenWindowRule(argv: seq<string>, init: Args, strtol: string -> LongParse)
    requires Parse(argv, init, strtol).exit.None?
    ensures var toks := OptionTokens(argv, 1);
            Parse(argv, init, strtol).args.openWindow
              == (!("-o" in toks || "-benchmark" in toks) || "-window" in toks)
  {
    FlagsFrom(argv, 1, Scan(init, false, false, []), strtol);
  }

  /** An option that takes one parameter, given last, sets its field to
      that parameter, whatever came before. */
  lemma LastOptionWins(a: seq<string>, opt: string, value: string, init: Args, strtol: string -> LongParse)
    requires |a| >= 1 && Classify(opt) in {Input, Output, Pipeline, Benchmark}
    requires Parse(a, init, strtol).exit.None?
    ensures var r := Parse(a + [opt, value], init, strtol);
            r.exit.None? && OptionField(r.args, Classify(opt)) == value
  {
    var sc := Scan(init, false, false, []);
    ParseAppend(a, [opt, value], 1, sc, strtol);
    var argv := a + [opt, value];
    assert argv[|a|] == opt && argv[|a| + 1] == value;
  }

  /** An option whose parameter is missing exits with status 1. */
  lemma MissingParameterExits(a: seq<string>, opt: string, init: Args, strtol: string -> LongParse)
    requires |a| >= 1 && ParamCount(opt) >= 1
    requires Parse(a, init, strtol).exit.None?
    ensures Parse(a + [opt], init, strtol).exit == Some(1)
  {
    ParseAppend(a, [opt], 1, Scan(init, false, false, []), strtol);
    assert (a + [opt])[|a|] == opt;
  }

  /** An unrecognised argument exits with status 1, and `-h` or `/?` with
      status 0, whatever follows. */
  lemma UnknownOrHelpExits(a: seq<string>, arg: string, rest: seq<string>, init: Args, strtol: string -> LongParse)
    requires |a| >= 1 && Classify(arg) in {Unknown, Help}
    requires Parse(a, init, strtol).exit.None?
    ensures Parse(a + [arg] + rest, init, strtol).exit == Some(if Classify(arg) == Help then 0 else 1)
  {
    ParseAppend(a, [arg] + rest, 1, Scan(init, false, false, []), strtol);
    assert a + [arg] + rest == a + ([arg] + rest);
    assert (a + ([arg] + rest))[|a|] == arg;
  }

  /** `-texture` stores both values as `uint32_t` even when it reports
      them as bad numbers. */
  lemma TextureStoredEvenIfBad(a: seq<string>, w: string, h: string, init: Args, strtol: string -> LongParse)
    requires |a| >= 1 && Parse(a, init, strtol).exit.None?
    ensures var r := Parse(a + ["-texture", w, h], init, strtol);
            && r.exit.None?
            && r.args.animationTextureWidth == Wrap(strtol(w).value)
            && r.args.animationTextureHeight == Wrap(strtol(h).value)
            && (!strtol(w).wholeText || strtol(w).value <= 0 ==> w in r.badNumbers)
            && (!strtol(h).wholeText || strtol(h).value <= 0 ==> h in r.badNumbers)
  {
    ParseAppend(a, ["-texture", w, h], 1, Scan(init, false, false, []), strtol);
    var argv := a + ["-texture", w, h];
    assert argv[|a|] == "-texture" && argv[|a| + 1] == w && argv[|a| + 2] == h;
  }

  /** With the initialisers as declared, `test` can come out true with no
      `-test` given: for an empty command line it is whatever the
      uninitialised member held. */
  lemma TestUninitialised(strtol: string -> LongParse)
    ensures var r := Parse(["app"], DeclaredDefaults(true), strtol);
            r.exit.None? && r.args.test && "-test" !in OptionTokens(["app"], 1)
  {
  }

  /** Starting from `Defaults`, `test` is set exactly when `-test` was
      read. */
  lemma TestOnlyWhenRequested(argv: seq<string>, strtol: string -> LongParse)
    requires Parse(argv, Defaults(), strtol).exit.None?
    ensures Parse(argv, Defaults(), strtol).args.test <==> "-test" in OptionTokens(argv, 1)
  {
    FlagsFrom(argv, 1, Scan(Defaults(), false, false, []), strtol);
  }

  class AppArgs {
    var inputFilename: string
    var outputFilename: string
    var outputPipelineAlternativeLabel: string
    var test: bool
    var animationTextureWidth: u32
    var animationTextureHeight: u32
    var benchmarkFilename: string
    var dumpPipelineStats: bool
    var openWindow: bool

    function Fields(): Args
      reads this
    {
      Args(inputFilename, outputFilename, outputPipelineAlternativeLabel, test, animationTextureWidth,
           animationTextureHeight, benchmarkFilename, dumpPipelineStats, openWindow)
    }

    /** `AppArgs args;` with `test` starting false. */
    constructor ()
      ensures Fields() == Defaults()
    {
      inputFilename, outputFilename, outputPipelineAlternativeLabel := "", "", "default";
      test := false;
      animationTextureWidth, animationTextureHeight := 16384, 16384;
      benchmarkFilename, dumpPipelineStats, openWindow := "", false, false;
    }

    /** `parseArgs`: `exit` is the status the process exits with, if it
        does; the fields are as the loop left them. */
    method ParseArgs(argv: seq<string>, strtol: string -> LongParse) returns (exit: Option<int>, badNumbers: seq<string>)
      modifies this
      ensures var r := Parse(argv, old(Fields()), strtol);
              Fields() == r.args && exit == r.exit && badNumbers == r.badNumbers
    {
      var windowExplicitlyEnabled, windowImplicitlyDisabled := false, false;
      badNumbers := [];
      var i := 1;
      while i < |argv|
        invariant 1 <= i
        invariant ParseFrom(argv, i, Scan(Fields(), windowExplicitlyEnabled, windowImplicitlyDisabled, badNumbers), strtol)
                  == ParseFrom(argv, 1, Scan(old(Fields()), false, false, []), strtol)
        decreases |argv| - i
      {
        var stop;
        stop, i, windowExplicitlyEnabled, windowImplicitlyDisabled, badNumbers :=
          ParseOne(argv, i, strtol, windowExplicitlyEnabled, windowImplicitlyDisabled, badNumbers);
        if stop.Some? {
          return stop, badNumbers;
        }
      }
      openWindow := !windowImplicitlyDisabled || windowExplicitlyEnabled;
      exit := None;
    }

    /** The body of the loop of `parseArgs` for the argument at `i`. */
    method ParseOne(argv: seq<string>, i: nat, strtol: string -> LongParse,
                    explicitIn: bool, implicitIn: bool, badIn: seq<string>)
      returns (stop: Option<int>, next: nat, windowExplicitlyEnabled: bool, windowImplicitlyDisabled: bool,
               badNumbers: seq<string>)
      requires 1 <= i < |argv|
      modifies this
      ensures var step := ParseStep(argv, i, Scan(old(Fields()), explicitIn, implicitIn, badIn), strtol);
              && (stop.Some? <==> step.Stop?)
              && (step.Stop? ==> stop.value == step.status)
              && (step.Next? ==> next == step.next)
              && Scan(Fields(), windowExplicitlyEnabled, windowImplicitlyDisabled, badNumbers) == step.scan
    {
      windowExplicitlyEnabled, windowImplicitlyDisabled, badNumbers := explicitIn, implicitIn, badIn;
      stop, next := None, i + 1;
      var param0 := Param(argv, i + 1);
      match Classify(argv[i])
      case Help =>
        stop := Some(0);
      case Input =>
        if param0.None? {
          stop := Some(1);
          return;
        }
        inputFilename := param0.value;
        next := next + 1;
      case Output =>
        windowImplicitlyDisabled := true;
        if param0.None? {
          stop := Some(1);
          return;
        }
        outputFilename := param0.value;
        next := next + 1;
      case Pipeline =>
        if param0.None? {
          stop := Some(1);
          return;
        }
        outputPipelineAlternativeLabel := param0.value;
        next := next + 1;
      case Test =>
        test := true;
      case Texture =>
        stop, next, badNumbers := ParseTexture(argv, i, strtol, badIn);
      case Benchmark =>
        windowImplicitlyDisabled := true;
        if param0.None? {
          stop := Some(1);
          return;
        }
        benchmarkFilename := param0.value;
        next := next + 1;
      case Stats =>
        dumpPipelineStats := true;
      case Window =>
        windowExplicitlyEnabled := true;
      case Unknown =>
        stop := Some(1);
    }

    /** The `-texture` branch: both parameters are parsed with `strtol`,
        reported when bad, and stored as `uint32_t` all the same. */
    method ParseTexture(argv: seq<string>, i: nat, strtol: string -> LongParse, badIn: seq<string>)
      returns (stop: Option<int>, next: nat, badNumbers: seq<string>)
      requires 1 <= i < |argv| && Classify(argv[i]) == Texture
      modifies this
      ensures var step := ParseStep(argv, i, Scan(old(Fields()), false, false, badIn), strtol);
              && (stop.Some? <==> step.Stop?)
              && (step.Stop? ==> stop.value == step.status)
              && (step.Next? ==> next == step.next)
              && Fields() == step.scan.args && badNumbers == step.scan.badNumbers
    {
      stop, next, badNumbers := None, i + 3, badIn;
      var param0 := Param(argv, i + 1);
      var param1 := if param0.None? then None else Param(argv, i + 2);
      if param0.None? {
        stop := Some(1);
        return;
      }
      var x := strtol(param0.value);
      if !x.wholeText || x.value <= 0 {
        badNumbers := badNumbers + [param0.value];
      }
      if param1.None? {
        stop := Some(1);
        return;
      }
      var y := strtol(param1.value);
      if !y.wholeText || y.value <= 0 {
        badNumbers := badNumbers + [param1.value];
      }
      animationTextureWidth := Wrap(x.value);
      animationTextureHeight := Wrap(y.value);
    }
  }
}
