/** Pipeline alternatives: the named variants of the fast and general
    pipelines the demo can compile and compare, the configuration bits that
    adjust their shaders, and the table of alternatives the demo offers.

    The name "default" means the library's own pipeline, "none" (fast slot
    only) means no fast pipeline, and "blit" (general slot only) means blits
    instead of a general pipeline. */
module PipelineAlternatives {
  import opened MipMath

  /** `PipelineAlternativeDescription`. */
  datatype Description = Description(name: string, basePipelineName: string, configBits: u32)

  /** A description with only its name given; the other members keep their
      defaults. */
  function Named(name: string): (d: Description)
    ensures d.name == name && d.basePipelineName == "" && d.configBits == 0
  {
    Description(name, "", 0)
  }

  /** A description with all defaults: the library's own pipeline. */
  const DefaultDescription: Description := Named("default")

  /** `PipelineAlternative`: a label and the general and fast descriptions. */
  datatype Alternative = Alternative(labelText: string, general: Description, fast: Description)

  const SrgbSharedBit: u32 := 1
  const F16SharedBit: u32 := 2
  const NoBilinearBit: u32 := 4

  predicate IsConfigBit(flag: u32)
  {
    flag == SrgbSharedBit || flag == F16SharedBit || flag == NoBilinearBit
  }

  /** `(bits & flag) != 0` for one of the single-bit flags. */
  predicate HasFlag(bits: u32, flag: u32)
    requires IsConfigBit(flag)
  {
    (bits / flag) % 2 == 1
  }

  /** The three configuration bits are distinct powers of two: each flag has
      its own bit set and no other flag's bit. */
  lemma ConfigBitsDistinct()
    ensures forall f, g :: IsConfigBit(f) && IsConfigBit(g) ==> (HasFlag(f, g) <==> f == g)
  {
  }

  function FlagSuffix(bits: u32, flag: u32, suffix: string): string
    requires IsConfigBit(flag)
  {
    if HasFlag(bits, flag) then suffix else ""
  }

  /** `toString`: the name, then one word per configuration bit set. */
  function ToString(d: Description): (r: string)
    ensures d.name <= r
    ensures d.configBits == 0 ==> r == d.name
  {
    d.name + FlagSuffix(d.configBits, SrgbSharedBit, " srgbSharedBit")
           + FlagSuffix(d.configBits, F16SharedBit, " f16SharedBit")
           + FlagSuffix(d.configBits, NoBilinearBit, " noBilinearBit")
  }

  /** Bits above the three flags add nothing to the text. */
  lemma ToStringIgnoresHighBits(d: Description)
    ensures ToString(d) == ToString(d.(configBits := d.configBits % 8))
  {
    HasFlagLowBits(d.configBits, SrgbSharedBit);
    HasFlagLowBits(d.configBits, F16SharedBit);
    HasFlagLowBits(d.configBits, NoBilinearBit);
  }

  lemma HasFlagLowBits(bits: u32, flag: u32)
    requires IsConfigBit(flag)
    ensures HasFlag(bits, flag) == HasFlag(bits % 8, flag)
  {
    var q, c := bits / 8, bits % 8;
    var k := 8 / flag;
    assert bits == flag * (k * q + c / flag) + c % flag;
    DivUnique(bits, flag, k * q + c / flag, c % flag);
    assert k % 2 == 0;
    DivUnique(k * q + c / flag, 2, (k / 2) * q + (c / flag) / 2, (c / flag) % 2);
  }

  /** The text tells which flags are set: two descriptions with the same
      name and the same text agree on every flag. */
  lemma ToStringDeterminesFlags(d: Description, e: Description)
    requires d.name == e.name && ToString(d) == ToString(e)
    ensures forall f :: IsConfigBit(f) ==> (HasFlag(d.configBits, f) <==> HasFlag(e.configBits, f))
  {
    var n := |d.name|;
    var s, t := ToString(d)[n..], ToString(e)[n..];
    assert s == t;
    SuffixLetters(d.configBits, ToString(d), d.name);
    SuffixLetters(e.configBits, ToString(e), e.name);
  }

  /** Where a word of the suffix starts. */
  predicate WordAt(s: string, i: nat, w: string)
  {
    i + |w| <= |s| && s[i..i + |w|] == w
  }

  /** Reading the flags back from the words after the name: each word is
      there exactly when its bit is set, " srgbSharedBit" first,
      " f16SharedBit" next and " noBilinearBit" last. */
  lemma SuffixFlags(bits: u32, name: string)
    ensures var s := ToString(Description(name, "", bits))[|name|..];
            && (HasFlag(bits, SrgbSharedBit) <==> WordAt(s, 0, " srgbSharedBit"))
            && (HasFlag(bits, F16SharedBit) <==>
                  WordAt(s, 0, " f16SharedBit") || WordAt(s, |" srgbSharedBit"|, " f16SharedBit"))
            && (HasFlag(bits, NoBilinearBit) <==>
                  |s| >= |" noBilinearBit"| && WordAt(s, |s| - |" noBilinearBit"|, " noBilinearBit"))
  {
    SrgbWordFlag(bits, name);
    F16WordFlag(bits, name);
    NoBilinearWordFlag(bits, name);
  }

  /** `SuffixFlags` for the sRGB word. */
  lemma SrgbWordFlag(bits: u32, name: string)
    ensures var s := ToString(Description(name, "", bits))[|name|..];
            HasFlag(bits, SrgbSharedBit) <==> WordAt(s, 0, " srgbSharedBit")
  {
    var text := ToString(Description(name, "", bits));
    var a := FlagSuffix(bits, SrgbSharedBit, " srgbSharedBit");
    var b := FlagSuffix(bits, F16SharedBit, " f16SharedBit");
    var c := FlagSuffix(bits, NoBilinearBit, " noBilinearBit");
    var s := text[|name|..];
    assert s == a + b + c;
    SuffixLetters(bits, text, name);
    if WordAt(s, 0, " srgbSharedBit") {
      assert s[1] == s[0..14][1] == 's';
    }
    if a != [] { assert s[0..14] == a; }
  }

  /** `SuffixFlags` for the f16 word. */
  lemma F16WordFlag(bits: u32, name: string)
    ensures var s := ToString(Description(name, "", bits))[|name|..];
            HasFlag(bits, F16SharedBit) <==>
              WordAt(s, 0, " f16SharedBit") || WordAt(s, |" srgbSharedBit"|, " f16SharedBit")
  {
    var text := ToString(Description(name, "", bits));
    var a := FlagSuffix(bits, SrgbSharedBit, " srgbSharedBit");
    var b := FlagSuffix(bits, F16SharedBit, " f16SharedBit");
    var c := FlagSuffix(bits, NoBilinearBit, " noBilinearBit");
    var s := text[|name|..];
    assert s == a + b + c;
    SuffixLetters(bits, text, name);
    if WordAt(s, 0, " f16SharedBit") {
      assert s[1] == s[0..13][1] == 'f';
    }
    if WordAt(s, 14, " f16SharedBit") {
      assert s[15] == s[14..27][1] == 'f';
    }
    if b != [] {
      if a == [] { assert s[0..13] == b; } else { assert s[14..27] == b; }
    }
  }

  /** `SuffixFlags` for the no-bilinear word. */
  lemma NoBilinearWordFlag(bits: u32, name: string)
    ensures var s := ToString(Description(name, "", bits))[|name|..];
            HasFlag(bits, NoBilinearBit) <==>
              |s| >= |" noBilinearBit"| && WordAt(s, |s| - |" noBilinearBit"|, " noBilinearBit")
  {
    var text := ToString(Description(name, "", bits));
    var s := text[|name|..];
    if |s| >= 14 && WordAt(s, |s| - 14, " noBilinearBit") {
      SuffixLetters(bits, text, name);
      assert s[|s| - 13] == s[|s| - 14..][1] == 'n';
      assert s[|s| - 12] == s[|s| - 14..][2] == 'o';
    }
    if HasFlag(bits, NoBilinearBit) {
      var ab := FlagSuffix(bits, SrgbSharedBit, " srgbSharedBit") + FlagSuffix(bits, F16SharedBit, " f16SharedBit");
      assert s == ab + " noBilinearBit";
      assert s[|ab|..] == " noBilinearBit";
    }
  }

  /** The same, letter by letter: the second character of a suffix word
      is the first letter of its flag. */
  lemma SuffixLetters(bits: u32, text: string, name: string)
    requires text == ToString(Description(name, "", bits))
    ensures var s := text[|name|..];
            && (HasFlag(bits, SrgbSharedBit) <==> |s| >= 2 && s[1] == 's')
            && (HasFlag(bits, F16SharedBit) <==>
                  (|s| >= 2 && s[1] == 'f') || (|s| >= 16 && s[15] == 'f'))
            && (HasFlag(bits, NoBilinearBit) <==> |s| >= 2 && s[|s| - 13] == 'n' && s[|s| - 12] == 'o')
  {
    var a := FlagSuffix(bits, SrgbSharedBit, " srgbSharedBit");
    var b := FlagSuffix(bits, F16SharedBit, " f16SharedBit");
    var c := FlagSuffix(bits, NoBilinearBit, " noBilinearBit");
    var s := text[|name|..];
    assert s == a + b + c;
  }

  /** The key of the pipeline dictionaries: the directory of the shader,
      which is `basePipelineName` when that is given, and the bits. */
  function PipelineKey(d: Description): (k: (string, u32))
    ensures d.basePipelineName != "" ==> k.0 == d.basePipelineName
    ensures d.basePipelineName == "" ==> k.0 == d.name
    ensures k.1 == d.configBits
  {
    (if d.basePipelineName == "" then d.name else d.basePipelineName, d.configBits)
  }

  const DefaultAlternativeIndex: nat := 0
  const BlitAlternativeIndex: nat := 1

  /** The table `pipelineAlternatives` as the preprocessor leaves it for a
      value `level` of `PIPELINE_ALTERNATIVES`. */
  function Table(level: nat): (t: seq<Alternative>)
    ensures |t| >= 2
  {
    [ Alternative("default", DefaultDescription, DefaultDescription),
      Alternative("blit", Named("blit"), Named("none")) ]
    + (if level != 0 && level != 2 then RelevantAlternatives() else [])
    + (if level >= 3 then MoreAlternatives() else [])
    + (if level != 0 && level != 1 then [Alternative("baseline", Named("baseline"), Named("none"))] else [])
  }

  /** The most relevant alternatives and the configuration-macro tests. */
  function RelevantAlternatives(): seq<Alternative>
  {
    [ Alternative("generalblit", Named("blit"), Named("default")),
      Alternative("onelevel", Named("onelevel"), Named("onelevel")),
      Alternative("generalonly", DefaultDescription, Named("none")),
      Alternative("levels_1_3", DefaultDescription, Named("noshared")),
      Alternative("levels_3_3", DefaultDescription, Named("fixed3levels")),
      Alternative("levels_1_5", DefaultDescription, Description("levels_1_5", "default", 0)),
      Alternative("levels_1_6", DefaultDescription, Description("levels_1_6", "default", 0)),
      Alternative("workgroup1024", DefaultDescription, Description("workgroup1024", "workgroup1024", 0)),
      Alternative("srgbShared", Description("default", "", SrgbSharedBit), Description("default", "", SrgbSharedBit)),
      Alternative("srgbSharedGeneral", Description("default", "", SrgbSharedBit), DefaultDescription),
      Alternative("f16Shared", Description("default", "", F16SharedBit), Description("default", "", F16SharedBit)),
      Alternative("f16SharedGeneral", Description("default", "", F16SharedBit), DefaultDescription),
      Alternative("noBilinear", DefaultDescription, Description("default", "", NoBilinearBit)) ]
  }

  /** More general and fast alternatives and the deliberately incorrect
      ones. */
  function MoreAlternatives(): seq<Alternative>
  {
    [ Alternative("generalonelevel", Named("onelevel"), Named("default")),
      Alternative("general3level", Named("general3level"), DefaultDescription),
      Alternative("general2", Description("general2", "general2", 0), DefaultDescription),
      Alternative("general2max1", Description("general2max1", "general2", 0), DefaultDescription),
      Alternative("general2s", Named("general2s"), DefaultDescription),
      Alternative("general2smax1", Description("general2smax1", "general2s", 0), DefaultDescription),
      Alternative("quad3", DefaultDescription, Named("quad3")),
      Alternative("quad4", DefaultDescription, Named("quad4")),
      Alternative("quadflex", DefaultDescription, Named("quadflex")),
      Alternative("quadflexmin1", DefaultDescription, Description("quadflexmin1", "quadflex", 0)),
      Alternative("quadshared", DefaultDescription, Named("quadshared")),
      Alternative("quadsharedmin1", DefaultDescription, Description("quadsharedmin1", "quadshared", 0)),
      Alternative("maybequad", DefaultDescription, Named("maybequad")),
      Alternative("maybequadmin1", DefaultDescription, Description("maybequadmin1", "maybequad", 0)),
      Alternative("null", Description("null", "default", 0), Description("null", "default", 0)),
      Alternative("generalnull", Description("null", "default", 0), DefaultDescription) ]
  }

  /** Entry 0 is the library default and entry 1 the blit alternative, in
      every build; without alternatives the table has just those two. */
  lemma TableHead(level: nat)
    ensures Table(level)[DefaultAlternativeIndex] == Alternative("default", Named("default"), Named("default"))
    ensures Table(level)[BlitAlternativeIndex] == Alternative("blit", Named("blit"), Named("none"))
    ensures |Table(0)| == 2
  {
  }

  /** "blit" appears only in general slots and "none" only in fast ones. */
  predicate SlotsRespected(t: seq<Alternative>)
  {
    forall i :: 0 <= i < |t| ==> t[i].fast.name != "blit" && t[i].general.name != "none"
  }

  lemma SlotsAppend(a: seq<Alternative>, b: seq<Alternative>)
    requires SlotsRespected(a) && SlotsRespected(b)
    ensures SlotsRespected(a + b)
  {
    forall i | 0 <= i < |a + b|
      ensures (a + b)[i].fast.name != "blit" && (a + b)[i].general.name != "none"
    {
      if i >= |a| {
        assert (a + b)[i] == b[i - |a|];
      }
    }
  }

  lemma RelevantSlots()
    ensures SlotsRespected(RelevantAlternatives())
  {
  }

  lemma MoreSlots()
    ensures SlotsRespected(MoreAlternatives())
  {
  }

  /** "blit" is only ever a general alternative and "none" only a fast
      one, whatever the build. */
  lemma TableSlots(level: nat)
    ensures forall i :: 0 <= i < |Table(level)| ==>
              Table(level)[i].fast.name != "blit" && Table(level)[i].general.name != "none"
  {
    var head := [ Alternative("default", DefaultDescription, DefaultDescription),
                  Alternative("blit", Named("blit"), Named("none")) ];
    var r := if level != 0 && level != 2 then RelevantAlternatives() else [];
    var m := if level >= 3 then MoreAlternatives() else [];
    var b := if level != 0 && level != 1 then [Alternative("baseline", Named("baseline"), Named("none"))] else [];
    RelevantSlots();
    MoreSlots();
    SlotsAppend(head, r);
    SlotsAppend(head + r, m);
    SlotsAppend(head + r + m, b);
    assert Table(level) == head + r + m + b;
  }
}
