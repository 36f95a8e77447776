/** The file names `writeMipmapsTga` writes the levels of a pyramid to:
    level 0 keeps the base name, and level `k` gets the decimal `k`
    spliced in before the extension, so that `image.name.tga` becomes
    `image.name.k.tga`. */
module TgaNames {
  import opened Optional

  /** `strrchr(name, '.')`: the index of the last `.`, if there is one. */
  function LastDot(s: string): (r: Option<nat>)
    ensures r.Some? ==> r.value < |s| && s[r.value] == '.' && forall j :: r.value < j < |s| ==> s[j] != '.'
    ensures r.None? ==> forall j :: 0 <= j < |s| ==> s[j] != '.'
  {
    if s == [] then None
    else if s[|s| - 1] == '.' then Some(|s| - 1)
    else LastDot(s[..|s| - 1])
  }

  /** The text through the last `.`, or the whole name without one. */
  function Prefix(base: string): string
  {
    match LastDot(base)
    case Some(i) => base[..i + 1]
    case None => base
  }

  /** The text from the last `.` on (the extension with its dot), or
      nothing without one. */
  function Suffix(base: string): string
  {
    match LastDot(base)
    case Some(i) => base[i..]
    case None => ""
  }

  /** The character of a decimal digit. */
  function DigitChar(d: nat): (c: char)
    requires d < 10
    ensures '0' <= c <= '9'
  {
    (48 + d) as char
  }

  /** `std::to_string` of an unsigned level: its decimal digits, most
      significant first, without leading zeros. */
  function Decimal(n: nat): (r: string)
    ensures |r| >= 1 && forall j :: 0 <= j < |r| ==> '0' <= r[j] <= '9'
    ensures n >= 10 ==> r[0] != '0'
  {
    if n < 10 then [DigitChar(n)] else Decimal(n / 10) + [DigitChar(n % 10)]
  }

  /** The value of a string of decimal digits. */
  function DecimalValue(s: string): nat
    requires forall j :: 0 <= j < |s| ==> '0' <= s[j] <= '9'
  {
    if s == [] then 0 else 10 * DecimalValue(s[..|s| - 1]) + (s[|s| - 1] as int - 48)
  }

  /** The digits read back give the level: distinct levels have distinct
      digits. */
  lemma {:induction false} DecimalRoundTrip(n: nat)
    ensures DecimalValue(Decimal(n)) == n
    decreases n
  {
    if n >= 10 {
      DecimalRoundTrip(n / 10);
      var s := Decimal(n);
      assert s[..|s| - 1] == Decimal(n / 10);
    }
  }

  /** The name level `level` is written to. */
  function LevelFilename(base: string, level: nat): string
  {
    if level == 0 then base else Prefix(base) + Decimal(level) + Suffix(base)
  }

  /** The name of level `level >= 1` is the base name with the digits and
      a dot inserted after its last dot, or with the digits appended when
      it has none. */
  lemma LevelFilenameShape(base: string, level: nat)
    requires level >= 1
    ensures LastDot(base).Some? ==>
              var i := LastDot(base).value;
              LevelFilename(base, level) == base[..i + 1] + Decimal(level) + base[i..]
    ensures LastDot(base).None? ==> LevelFilename(base, level) == base + Decimal(level)
    ensures |LevelFilename(base, level)| == |base| + |Decimal(level)| + (if LastDot(base).Some? then 1 else 0)
  {
  }

  /** The last `.` of a string is the only `.` with no `.` after it. */
  lemma {:induction false} LastDotUnique(s: string, i: nat)
    requires i < |s| && s[i] == '.' && forall j :: i < j < |s| ==> s[j] != '.'
    ensures LastDot(s) == Some(i)
    decreases |s|
  {
    if i < |s| - 1 {
      LastDotUnique(s[..|s| - 1], i);
    }
  }

  /** Every level's file keeps the base name's extension. */
  lemma LevelFilenameKeepsExtension(base: string, level: nat)
    ensures Suffix(LevelFilename(base, level)) == Suffix(base)
  {
    if level >= 1 {
      var digits := Decimal(level);
      assert NoDot(digits);
      match LastDot(base)
      case Some(i) =>
        assert LevelFilename(base, level) == base[..i + 1] + digits + base[i..];
        SuffixAfterInsert(base, i, digits);
      case None =>
        assert LevelFilename(base, level) == base + digits;
        SuffixAfterAppend(base, digits);
    }
  }

  predicate NoDot(s: string)
  {
    forall j :: 0 <= j < |s| ==> s[j] != '.'
  }

  /** Text without a dot inserted after the last dot of a name leaves the
      text from that dot on as the last dot's suffix. */
  lemma SuffixAfterInsert(base: string, i: nat, digits: string)
    requires LastDot(base) == Some(i) && NoDot(digits)
    ensures Suffix(base[..i + 1] + digits + base[i..]) == base[i..]
  {
    var p, s := base[..i + 1], base[i..];
    var name := p + digits + s;
    forall j | |p| + |digits| < j < |name|
      ensures name[j] != '.'
    {
      assert name[j] == s[j - |p| - |digits|];
      assert s[j - |p| - |digits|] == base[i + (j - |p| - |digits|)];
    }
    LastDotUnique(name, |p| + |digits|);
    assert name[|p| + |digits| ..] == s;
  }

  /** Text without a dot appended to a name without one leaves no dot. */
  lemma SuffixAfterAppend(base: string, digits: string)
    requires LastDot(base).None? && NoDot(digits)
    ensures Suffix(base + digits) == ""
  {
    var name := base + digits;
    forall j | 0 <= j < |name|
      ensures name[j] != '.'
    {
      if j >= |base| {
        assert name[j] == digits[j - |base|];
      }
    }
  }

  /** No two levels are written to the same file. */
  lemma LevelFilenamesDistinct(base: string, a: nat, b: nat)
    requires a != b
    ensures LevelFilename(base, a) != LevelFilename(base, b)
  {
    if a >= 1 && b >= 1 {
      var p, s := Prefix(base), Suffix(base);
      var da, db := Decimal(a), Decimal(b);
      if LevelFilename(base, a) == LevelFilename(base, b) {
        var name := p + da + s;
        assert name == p + db + s;
        assert |da| == |db|;
        assert da == name[|p| .. |p| + |da|] == db;
        DecimalRoundTrip(a);
        DecimalRoundTrip(b);
      }
    } else if a >= 1 {
      LevelFilenameShape(base, a);
    } else {
      LevelFilenameShape(base, b);
    }
  }

  /** Level 0 keeps the name; `a.tga` becomes `a.1.tga` and
      `image.name.tga` becomes `image.name.12.tga` at level 12; a name
      without a dot gets the digits appended. */
  lemma LevelFilenameExamples()
    ensures LevelFilename("a.tga", 0) == "a.tga"
    ensures LevelFilename("a.tga", 1) == "a.1.tga"
    ensures LevelFilename("image.name.tga", 12) == "image.name.12.tga"
    ensures LevelFilename("mips", 3) == "mips3"
  {
    ExampleOneLevel();
    ExampleTwoDigits();
    ExampleNoDot();
  }

  // The examples one by one, each with the last dot it splices at.

  lemma ExampleOneLevel()
    ensures LevelFilename("a.tga", 1) == "a.1.tga"
  {
    LastDotUnique("a.tga", 1);
    assert Decimal(1) == "1";
    assert "a.tga"[..2] + "1" + "a.tga"[1..] == "a.1.tga";
  }

  lemma ExampleTwoDigits()
    ensures LevelFilename("image.name.tga", 12) == "image.name.12.tga"
  {
    LastDotUnique("image.name.tga", 10);
    assert Decimal(12) == "12";
    assert "image.name.tga"[..11] + "12" + "image.name.tga"[10..] == "image.name.12.tga";
  }

  lemma ExampleNoDot()
    ensures LevelFilename("mips", 3) == "mips3"
  {
    assert NoDot("mips");
    assert Decimal(3) == "3";
  }
}
