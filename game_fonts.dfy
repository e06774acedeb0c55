/** The locale-dependent font path of a game font, as GameFontFamilyAndSizeAttribute
    computes it when it is constructed: on a Chinese (simplified or traditional) or Korean
    client the standard AXIS font files are swapped for that locale's own files.

    The client language, a process-wide setting in the program, is a parameter here. */
module GameFonts {
  import opened Wrappers

  /** The client languages. Only the three named below get a font code; every other
      language (the game's Japanese, English, German and French) gets none. */
  datatype ClientLanguage =
    | Japanese | English | German | French
    | ChineseSimplified | Korean | TraditionalChinese

  /** The prefix of the font file names of a localised client, or None. */
  function FontCode(language: ClientLanguage): (code: Option<string>)
    ensures code.Some? ==> |code.value| > 0 && LowerCase(code.value)
  {
    match language
    case ChineseSimplified => Some("chn")
    case Korean => Some("krn")
    case TraditionalChinese => Some("tc")
    case _ => None
  }

  predicate LowerCase(s: string)
  {
    forall i :: 0 <= i < |s| ==> 'a' <= s[i] <= 'z'
  }

  /** The three localised clients use three different font sets. */
  lemma FontCodeInjective(a: ClientLanguage, b: ClientLanguage)
    requires FontCode(a).Some? && FontCode(a) == FontCode(b)
    ensures a == b
  {
    assert "chn" != "krn" && "chn" != "tc" && "krn" != "tc" by {
      assert "chn"[0] != "krn"[0] && "chn"[0] != "tc"[0] && "krn"[0] != "tc"[0];
    }
  }

  /** The languages that have a font code are exactly the three localised ones. */
  lemma FontCodeDomain(language: ClientLanguage)
    ensures FontCode(language).Some? <==>
      language == ChineseSimplified || language == Korean || language == TraditionalChinese
  {
  }

  /** One row of the size table: a file of size InputSize is replaced by the localised
      file of size TargetSize. */
  datatype SizeMapping = SizeMapping(InputSize: string, TargetSize: string)

  /** The size table, in the order it is scanned. The localised clients have no size-96
      AXIS file, so 96 falls back to 12. */
  const Mappings: seq<SizeMapping> := [
    SizeMapping("12", "12"),
    SizeMapping("14", "14"),
    SizeMapping("18", "18"),
    SizeMapping("36", "36"),
    SizeMapping("96", "12")
  ]

  /** `common/font/AXIS_{size}.fdt`: the standard font file the table looks for. */
  function AxisPath(size: string): string
  {
    "common/font/AXIS_" + size + ".fdt"
  }

  /** `common/font/{code}axis_{size}0.fdt`: the localised font file. */
  function LocalePath(code: string, size: string): string
  {
    "common/font/" + code + "axis_" + size + "0.fdt"
  }

  /** `common/font/font_{code}_{0}.tex`: the localised texture path format; `{0}` is
      left for a later string.Format to fill in. */
  function LocaleTexPathFormat(code: string): string
  {
    "common/font/font_" + code + "_{0}.tex"
  }

  /** Ordinal (case-sensitive) substring test, as C#'s string.Contains(string). */
  predicate Contains(s: string, part: string)
  {
    exists i :: 0 <= i <= |s| - |part| && OccursAt(s, part, i)
  }

  predicate OccursAt(s: string, part: string, i: int)
  {
    0 <= i <= |s| - |part| && s[i..i + |part|] == part
  }

  predicate Matches(path: string, m: SizeMapping)
  {
    Contains(path, AxisPath(m.InputSize))
  }

  /** The index of the first row of `mappings` whose AXIS file `path` contains. */
  function FirstMatch(mappings: seq<SizeMapping>, path: string): (r: Option<nat>)
    ensures r.Some? ==>
      r.value < |mappings| && Matches(path, mappings[r.value]) &&
      forall j :: 0 <= j < r.value ==> !Matches(path, mappings[j])
    ensures r.None? ==> forall j :: 0 <= j < |mappings| ==> !Matches(path, mappings[j])
  {
    if mappings == [] then None
    else if Matches(path, mappings[0]) then Some(0)
    else
      match FirstMatch(mappings[1..], path)
      case None => None
      case Some(k) => Some(k + 1)
  }

  /** The three values the attribute exposes. */
  datatype GameFontFamilyAndSize = GameFontFamilyAndSize(
    Path: string, TexPathFormat: string, HorizontalOffset: int)

  /** What the attribute holds for the given constructor arguments on a client of the
      given language: the first matching table row decides the localised paths; with no
      font code or no matching row, the arguments are kept. */
  function Localized(language: ClientLanguage, path: string, texPathFormat: string,
                     horizontalOffset: int): (r: GameFontFamilyAndSize)
    ensures r.HorizontalOffset == horizontalOffset
    ensures FontCode(language).None? ==> r.Path == path && r.TexPathFormat == texPathFormat
    ensures r.Path != path ==>
      FontCode(language).Some? && r.TexPathFormat == LocaleTexPathFormat(FontCode(language).value)
  {
    match FontCode(language)
    case None => GameFontFamilyAndSize(path, texPathFormat, horizontalOffset)
    case Some(code) =>
      match FirstMatch(Mappings, path)
      case None => GameFontFamilyAndSize(path, texPathFormat, horizontalOffset)
      case Some(k) =>
        GameFontFamilyAndSize(
          LocalePath(code, Mappings[k].TargetSize), LocaleTexPathFormat(code), horizontalOffset)
  }

  /** The attribute's constructor: scan the table in order and rewrite the two paths at
      the first row that matches, then stop. */
  method NewGameFontFamilyAndSize(language: ClientLanguage, path: string, texPathFormat: string,
                                  horizontalOffset: int)
    returns (attr: GameFontFamilyAndSize)
    ensures attr == Localized(language, path, texPathFormat, horizontalOffset)
  {
    var p, tex := path, texPathFormat;
    var fontCode := FontCode(language);
    if fontCode.Some? {
      var mappings := Mappings;
      var i := 0;
      while i < |mappings|
        invariant 0 <= i <= |mappings|
        invariant p == path && tex == texPathFormat
        invariant forall j :: 0 <= j < i ==> !Matches(path, mappings[j])
      {
        if Contains(p, AxisPath(mappings[i].InputSize)) {
          p := LocalePath(fontCode.value, mappings[i].TargetSize);
          tex := LocaleTexPathFormat(fontCode.value);
          break;
        }
        i := i + 1;
      }
    }
    attr := GameFontFamilyAndSize(p, tex, horizontalOffset);
  }

  // ---------------------------------------------------------------------------
  // Properties of the remapping

  /** With a font code, the first row whose AXIS file the path contains decides the
      result, whatever later rows would also match. */
  lemma FirstMatchWins(language: ClientLanguage, path: string, texPathFormat: string,
                       horizontalOffset: int, k: nat)
    requires FontCode(language).Some?
    requires k < |Mappings| && Matches(path, Mappings[k])
    requires forall j :: 0 <= j < k ==> !Matches(path, Mappings[j])
    ensures Localized(language, path, texPathFormat, horizontalOffset) ==
            GameFontFamilyAndSize(
              LocalePath(FontCode(language).value, Mappings[k].TargetSize),
              LocaleTexPathFormat(FontCode(language).value),
              horizontalOffset)
  {
    var r := FirstMatch(Mappings, path);
    assert r.Some?;
  }

  /** With a font code, a path that contains none of the table's AXIS files is kept,
      and so is the texture path format. */
  lemma NoMatchKeepsPaths(language: ClientLanguage, path: string, texPathFormat: string,
                          horizontalOffset: int)
    requires forall j :: 0 <= j < |Mappings| ==> !Matches(path, Mappings[j])
    ensures Localized(language, path, texPathFormat, horizontalOffset) ==
            GameFontFamilyAndSize(path, texPathFormat, horizontalOffset)
  {
    assert FirstMatch(Mappings, path).None?;
  }

  /** A string contains itself. */
  lemma ContainsSelf(s: string)
    ensures Contains(s, s)
  {
    assert s[0..|s|] == s;
    assert OccursAt(s, s, 0);
  }

  /** Two strings of the same length contain one another only when they are equal. */
  lemma ContainsSameLength(s: string, part: string)
    requires |s| == |part| && Contains(s, part)
    ensures s == part
  {
    var i :| 0 <= i <= |s| - |part| && OccursAt(s, part, i);
    assert i == 0;
    assert s[0..|s|] == s;
  }

  /** Every character of a contained string is a character of the containing one. */
  lemma ContainsChar(s: string, part: string, c: char)
    requires Contains(s, part) && c in part
    ensures c in s
  {
    var i :| 0 <= i <= |s| - |part| && OccursAt(s, part, i);
    var k :| 0 <= k < |part| && part[k] == c;
    assert s[i + k] == part[k];
  }

  /** The AXIS files of the different sizes in the table are different files. */
  lemma AxisPathsDiffer(a: string, b: string)
    requires |a| == 2 && |b| == 2 && a != b
    ensures AxisPath(a) != AxisPath(b)
    ensures !Contains(AxisPath(a), AxisPath(b))
  {
    var pa, pb := AxisPath(a), AxisPath(b);
    if a[0] != b[0] {
      assert pa[17] == a[0] && pb[17] == b[0];
    } else {
      assert a[1] != b[1];
      assert pa[18] == a[1] && pb[18] == b[1];
    }
    if Contains(pa, pb) {
      ContainsSameLength(pa, pb);
    }
  }

  /** A file of one of the standard sizes 12, 14, 18 and 36 named exactly is replaced by
      the localised file of the same size and the localised texture format. */
  lemma StandardSizeRemapped(language: ClientLanguage, k: nat, texPathFormat: string,
                             horizontalOffset: int)
    requires FontCode(language).Some? && k < 4
    ensures Mappings[k].TargetSize == Mappings[k].InputSize
    ensures Localized(language, AxisPath(Mappings[k].InputSize), texPathFormat, horizontalOffset) ==
            GameFontFamilyAndSize(
              LocalePath(FontCode(language).value, Mappings[k].InputSize),
              LocaleTexPathFormat(FontCode(language).value),
              horizontalOffset)
  {
    var path := AxisPath(Mappings[k].InputSize);
    ContainsSelf(path);
    forall j | 0 <= j < k
      ensures !Matches(path, Mappings[j])
    {
      AxisPathsDiffer(Mappings[k].InputSize, Mappings[j].InputSize);
    }
    FirstMatchWins(language, path, texPathFormat, horizontalOffset, k);
  }

  /** The size-96 AXIS file is replaced by the localised size-12 file. */
  lemma Size96RemappedTo12(language: ClientLanguage, texPathFormat: string, horizontalOffset: int)
    requires FontCode(language).Some?
    ensures Localized(language, "common/font/AXIS_96.fdt", texPathFormat, horizontalOffset) ==
            GameFontFamilyAndSize(
              "common/font/" + FontCode(language).value + "axis_120.fdt",
              LocaleTexPathFormat(FontCode(language).value),
              horizontalOffset)
  {
    var path := AxisPath("96");
    assert path == "common/font/AXIS_96.fdt";
    ContainsSelf(path);
    forall j | 0 <= j < 4
      ensures !Matches(path, Mappings[j])
    {
      AxisPathsDiffer("96", Mappings[j].InputSize);
    }
    FirstMatchWins(language, path, texPathFormat, horizontalOffset, 4);
    assert LocalePath(FontCode(language).value, "12") ==
           "common/font/" + FontCode(language).value + "axis_120.fdt";
  }

  /** A localised path never contains a standard AXIS file name: the AXIS names have an
      upper-case `A`, the localised ones have none. */
  lemma LocalePathMatchesNothing(code: string, k: nat, j: nat)
    requires LowerCase(code) && k < |Mappings| && j < |Mappings|
    ensures !Matches(LocalePath(code, Mappings[k].TargetSize), Mappings[j])
  {
    var p := LocalePath(code, Mappings[k].TargetSize);
    assert AxisPath(Mappings[j].InputSize)[12] == 'A';
    if Matches(p, Mappings[j]) {
      ContainsChar(p, AxisPath(Mappings[j].InputSize), 'A');
    }
  }

  /** Constructing the attribute again from its own paths changes nothing: a localised
      path no longer contains any AXIS name the table looks for. */
  lemma LocalizedIdempotent(language: ClientLanguage, path: string, texPathFormat: string,
                            horizontalOffset: int)
    ensures var a := Localized(language, path, texPathFormat, horizontalOffset);
            Localized(language, a.Path, a.TexPathFormat, a.HorizontalOffset) == a
  {
    var a := Localized(language, path, texPathFormat, horizontalOffset);
    match FontCode(language)
    case None =>
    case Some(code) =>
      match FirstMatch(Mappings, path)
      case None =>
      case Some(k) =>
        forall j | 0 <= j < |Mappings|
          ensures !Matches(a.Path, Mappings[j])
        {
          LocalePathMatchesNothing(code, k, j);
        }
        NoMatchKeepsPaths(language, a.Path, a.TexPathFormat, a.HorizontalOffset);
  }
}
