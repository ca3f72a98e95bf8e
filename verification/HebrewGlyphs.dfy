/**
 Pointed Hebrew letters: a base with its marks, the consonant and the vowel each one stands for,
 and the letters that a geresh turns into another sound.
 */
module HebrewGlyphs {
  import opened Wrappers

  datatype Glyph = Glyph(base: string, marks: seq<char>) {
    predicate Has(mark: char) {
      mark in marks
    }
  }

  const DAGESH := '\U{5BC}'
  const SHIN_DOT := '\U{5C1}'
  const SIN_DOT := '\U{5C2}'
  const GERESH := '\U{5F3}'

  const ALEF := '\U{5D0}'
  const BET := '\U{5D1}'
  const GIMEL := '\U{5D2}'
  const DALET := '\U{5D3}'
  const HE := '\U{5D4}'
  const VAV := '\U{5D5}'
  const ZAYIN := '\U{5D6}'
  const HET := '\U{5D7}'
  const TET := '\U{5D8}'
  const YOD := '\U{5D9}'
  const KAF_FINAL := '\U{5DA}'
  const KAF := '\U{5DB}'
  const LAMED := '\U{5DC}'
  const MEM_FINAL := '\U{5DD}'
  const MEM := '\U{5DE}'
  const NUN_FINAL := '\U{5DF}'
  const NUN := '\U{5E0}'
  const SAMEKH := '\U{5E1}'
  const AYIN := '\U{5E2}'
  const PE_FINAL := '\U{5E3}'
  const PE := '\U{5E4}'
  const TSADI_FINAL := '\U{5E5}'
  const TSADI := '\U{5E6}'
  const QOF := '\U{5E7}'
  const RESH := '\U{5E8}'
  const SHIN := '\U{5E9}'
  const TAV := '\U{5EA}'

  const SHEVA := '\U{5B0}'
  const HATAF_SEGOL := '\U{5B1}'
  const HATAF_PATAH := '\U{5B2}'
  const HATAF_QAMATS := '\U{5B3}'
  const HIRIQ := '\U{5B4}'
  const TSERE := '\U{5B5}'
  const SEGOL := '\U{5B6}'
  const PATAH := '\U{5B7}'
  const QAMATS := '\U{5B8}'
  const HOLAM := '\U{5B9}'
  const QUBUTZ := '\U{5BB}'
  const QAMATS_QATAN := '\U{5C7}'

  const SCHWA := '\U{259}'
  const GLOTTAL := '\U{294}'
  const STRESS := '\U{2C8}'
  const TIE := '\U{361}'

  // The consonant of alef and ayin until it is known whether it is sounded.
  const SILENT_GLOTTAL := "<GLT>"

  // ---------- Consonants ----------

  function FinalFormBase(c: char): char {
    if c == KAF_FINAL then KAF
    else if c == MEM_FINAL then MEM
    else if c == NUN_FINAL then NUN
    else if c == PE_FINAL then PE
    else if c == TSADI_FINAL then TSADI
    else c
  }

  // Neither the stress mark nor the schwa.
  predicate Unmarked(s: string) {
    STRESS !in s && SCHWA !in s
  }

  function MapConsonant(base: char, marks: seq<char>, isFinal: bool): (r: string)
    ensures Unmarked(r)
  {
    var b := FinalFormBase(base);
    if b == ALEF || b == AYIN then SILENT_GLOTTAL
    else if b == HE then (if isFinal && DAGESH !in marks then "" else "h")
    else if b == YOD then "j"
    else if b == VAV then "v"
    else if b == SHIN then (if SHIN_DOT in marks then "\U{283}" else if SIN_DOT in marks then "s" else "\U{283}")
    else if b == BET then (if DAGESH in marks then "b" else "v")
    else if b == KAF then (if DAGESH in marks then "k" else "\U{3C7}")
    else if b == PE then (if DAGESH in marks then "p" else "f")
    else if b == GIMEL then "g"
    else if b == DALET then "d"
    else if b == HET then "\U{3C7}"
    else if b == TET then "t"
    else if b == LAMED then "l"
    else if b == MEM then "m"
    else if b == NUN then "n"
    else if b == SAMEKH then "s"
    else if b == TSADI then "t\U{361}s"
    else if b == QOF then "k"
    else if b == RESH then "\U{281}"
    else if b == TAV then "t"
    else if b == ZAYIN then "z"
    else ""
  }

  // ---------- Geresh digraphs ----------

  function DigraphSound(base: string): (r: Option<string>)
    ensures r.Some? ==> |base| == 1 && Unmarked(r.value)
  {
    if base == [GIMEL] then Some("d\U{361}\U{292}")
    else if base == [ZAYIN] then Some("\U{292}")
    else if base == [TSADI] then Some("t\U{361}\U{283}")
    else None
  }

  function DigraphBase(sound: string): (r: string)
    ensures DigraphIpa(r) == Some(sound)
  {
    assert ("<IPA:" + sound + ">")[5..5 + |sound|] == sound;
    "<IPA:" + sound + ">"
  }

  function DigraphIpa(base: string): Option<string> {
    if "<IPA:" <= base && |base| > 5 && base[|base| - 1] == '>' then Some(base[5..|base| - 1]) else None
  }

  predicate StartsDigraph(glyphs: seq<Glyph>, i: nat) {
    i + 1 < |glyphs| && glyphs[i + 1].base == [GERESH] && DigraphSound(glyphs[i].base).Some?
  }

  function WithGeresh(first: Glyph, second: Glyph): Glyph
    requires DigraphSound(first.base).Some?
  {
    Glyph(DigraphBase(DigraphSound(first.base).value), first.marks + second.marks)
  }

  function Collapse(glyphs: seq<Glyph>, i: nat): seq<Glyph>
    decreases |glyphs| - i
  {
    if i >= |glyphs| then []
    else if StartsDigraph(glyphs, i) then [WithGeresh(glyphs[i], glyphs[i + 1])] + Collapse(glyphs, i + 2)
    else [glyphs[i]] + Collapse(glyphs, i + 1)
  }

  method ApplyGereshDigraphs(glyphs: seq<Glyph>) returns (out: seq<Glyph>)
    ensures out == Collapse(glyphs, 0)
  {
    hide Collapse, DigraphBase, DigraphIpa, DigraphSound;
    out := [];
    var i := 0;
    while i < |glyphs|
      invariant 0 <= i && out + Collapse(glyphs, i) == Collapse(glyphs, 0)
      decreases |glyphs| - i
    {
      CollapseStep(glyphs, i);
      assert out + ([Collapse(glyphs, i)[0]] + Collapse(glyphs, i)[1..]) == out + Collapse(glyphs, i);
      if i + 1 < |glyphs| && glyphs[i + 1].base == [GERESH] {
        var sound := DigraphSound(glyphs[i].base);
        if sound.Some? {
          var marks := glyphs[i].marks + glyphs[i + 1].marks;
          out := out + [Glyph(DigraphBase(sound.value), marks)];
          i := i + 2;
          continue;
        }
      }
      out := out + [glyphs[i]];
      i := i + 1;
    }
    NothingToCollapse(glyphs, i);
  }

  lemma CollapseStep(glyphs: seq<Glyph>, i: nat)
    requires i < |glyphs|
    ensures Collapse(glyphs, i) ==
      if StartsDigraph(glyphs, i) then [WithGeresh(glyphs[i], glyphs[i + 1])] + Collapse(glyphs, i + 2)
      else [glyphs[i]] + Collapse(glyphs, i + 1)
  {
  }

  lemma {:induction false} NothingToCollapse(glyphs: seq<Glyph>, i: nat)
    requires i >= |glyphs|
    ensures Collapse(glyphs, i) == []
  {
  }

  function AllMarks(glyphs: seq<Glyph>, i: nat): seq<char>
    decreases |glyphs| - i
  {
    if i >= |glyphs| then [] else glyphs[i].marks + AllMarks(glyphs, i + 1)
  }

  // No vowel point is lost with the geresh, even one written between the letter and the geresh.
  lemma {:induction false} CollapseKeepsMarks(glyphs: seq<Glyph>, i: nat)
    ensures AllMarks(Collapse(glyphs, i), 0) == AllMarks(glyphs, i)
    decreases |glyphs| - i
  {
    hide Collapse, StartsDigraph, WithGeresh;
    if i >= |glyphs| {
      NothingToCollapse(glyphs, i);
    } else {
      CollapseStep(glyphs, i);
      if StartsDigraph(glyphs, i) {
        CollapseKeepsMarks(glyphs, i + 2);
        MergedMarks(glyphs, i);
        MarksOfHead(WithGeresh(glyphs[i], glyphs[i + 1]), Collapse(glyphs, i + 2));
      } else {
        CollapseKeepsMarks(glyphs, i + 1);
        MarksOfHead(glyphs[i], Collapse(glyphs, i + 1));
      }
    }
  }

  lemma MergedMarks(glyphs: seq<Glyph>, i: nat)
    requires StartsDigraph(glyphs, i)
    ensures i + 1 < |glyphs| && DigraphSound(glyphs[i].base).Some?
    ensures WithGeresh(glyphs[i], glyphs[i + 1]).marks + AllMarks(glyphs, i + 2) == AllMarks(glyphs, i)
  {
    hide DigraphSound, DigraphBase;
    assert AllMarks(glyphs, i) == glyphs[i].marks + (glyphs[i + 1].marks + AllMarks(glyphs, i + 2));
  }

  lemma {:induction false} MarksOfHead(first: Glyph, rest: seq<Glyph>)
    ensures AllMarks([first] + rest, 0) == first.marks + AllMarks(rest, 0)
  {
    MarksOfTail(first, rest, 0);
  }

  lemma {:induction false} MarksOfTail(first: Glyph, rest: seq<Glyph>, i: nat)
    ensures AllMarks([first] + rest, i + 1) == AllMarks(rest, i)
    decreases |rest| - i
  {
    if i < |rest| {
      MarksOfTail(first, rest, i + 1);
    }
  }

  // One pass finds every digraph: none starts anywhere in the result.
  lemma {:induction false} CollapseIsComplete(glyphs: seq<Glyph>, i: nat, k: nat)
    ensures !StartsDigraph(Collapse(glyphs, i), k)
    decreases |glyphs| - i
  {
    var out := Collapse(glyphs, i);
    if i < |glyphs| && k + 1 < |out| {
      var next := if StartsDigraph(glyphs, i) then i + 2 else i + 1;
      var rest := Collapse(glyphs, next);
      if k > 0 {
        CollapseIsComplete(glyphs, next, k - 1);
        assert out[k] == rest[k - 1] && out[k + 1] == rest[k];
      } else {
        assert out[1] == rest[0];
        MergedBaseIsLong(glyphs, next);
        MergedBaseIsLong(glyphs, i);
      }
    }
  }

  // The first glyph of the result is the glyph itself or has a base of several characters.
  lemma {:induction false} MergedBaseIsLong(glyphs: seq<Glyph>, i: nat)
    requires i < |glyphs|
    ensures if StartsDigraph(glyphs, i) then |Collapse(glyphs, i)[0].base| > 5 else Collapse(glyphs, i)[0] == glyphs[i]
  {
  }

  // A letter that a geresh turns into another sound, and that geresh.
  predicate IsDigraph(first: Glyph, second: Glyph) {
    first.base in [[GIMEL], [ZAYIN], [TSADI]] && second.base == [GERESH]
  }

  lemma {:induction false} CollapseOfTail(a: seq<Glyph>, b: seq<Glyph>, j: nat)
    ensures Collapse(a + b, |a| + j) == Collapse(b, j)
    decreases |b| - j
  {
    hide Collapse, DigraphSound, WithGeresh;
    if j < |b| {
      CollapseStep(a + b, |a| + j);
      CollapseStep(b, j);
      assert StartsDigraph(a + b, |a| + j) <==> StartsDigraph(b, j);
      CollapseOfTail(a, b, j + 1);
      CollapseOfTail(a, b, j + 2);
      assert (a + b)[|a| + j] == b[j];
      if StartsDigraph(b, j) {
        assert (a + b)[|a| + j + 1] == b[j + 1];
      }
    } else {
      NothingToCollapse(a + b, |a| + j);
      NothingToCollapse(b, j);
    }
  }

  lemma {:induction false} CollapseOfFront(a: seq<Glyph>, b: seq<Glyph>, i: nat)
    requires i <= |a| && (a != [] && b != [] ==> !IsDigraph(a[|a| - 1], b[0]))
    ensures Collapse(a + b, i) == Collapse(a, i) + Collapse(b, 0)
    decreases |a| - i
  {
    hide Collapse, WithGeresh, DigraphBase;
    if i < |a| {
      CollapseStep(a + b, i);
      CollapseStep(a, i);
      assert StartsDigraph(a + b, i) <==> StartsDigraph(a, i);
      if StartsDigraph(a, i) {
        CollapseOfFront(a, b, i + 2);
      } else {
        CollapseOfFront(a, b, i + 1);
      }
    } else {
      NothingToCollapse(a, i);
      CollapseOfTail(a, b, 0);
    }
  }

  // The collapse, law by law: a letter alone stays as it is, a digraph becomes one letter with the marks
  // of both, and the parts of a word that no digraph joins are collapsed on their own.
  lemma {:induction false} CollapseIsByParts(a: seq<Glyph>, b: seq<Glyph>, first: Glyph, second: Glyph)
    ensures (a != [] && b != [] ==> !IsDigraph(a[|a| - 1], b[0]))
      ==> Collapse(a + b, 0) == Collapse(a, 0) + Collapse(b, 0)
    ensures Collapse([first], 0) == [first]
    ensures IsDigraph(first, second) ==>
      |Collapse([first, second], 0)| == 1 && Collapse([first, second], 0)[0].marks == first.marks + second.marks
  {
    if a != [] && b != [] ==> !IsDigraph(a[|a| - 1], b[0]) {
      CollapseOfFront(a, b, 0);
    }
    CollapseStep([first], 0);
    NothingToCollapse([first], 1);
    CollapseStep([first, second], 0);
    NothingToCollapse([first, second], 2);
  }

  function GlyphConsonant(g: Glyph, isFinal: bool): string {
    match DigraphIpa(g.base)
    case Some(ipa) => ipa
    case None => MapConsonant(if g.base == "" then '\0' else g.base[0], g.marks, isFinal)
  }

  // ---------- Vowels ----------

  const VOWEL_MARKS: seq<char> := [SHEVA, HATAF_SEGOL, HATAF_PATAH, HATAF_QAMATS, HIRIQ, TSERE, SEGOL, PATAH, QAMATS,
                                   HOLAM, QUBUTZ, QAMATS_QATAN]

  predicate HasVowelMark(g: Glyph) {
    exists k :: 0 <= k < |g.marks| && g.marks[k] in VOWEL_MARKS
  }

  // The vowel of the points and whether it is a full vowel.
  function MapBasicVowel(g: Glyph): (r: (string, bool))
    ensures r.1 ==> r.0 != "" && Unmarked(r.0)
  {
    if g.Has(QAMATS_QATAN) then ("o", true)
    else if g.Has(QUBUTZ) then ("u", true)
    else if g.Has(HIRIQ) then ("i", true)
    else if g.Has(TSERE) || g.Has(SEGOL) then ("e", true)
    else if g.Has(PATAH) || g.Has(QAMATS) || g.Has(HATAF_PATAH) then ("a", true)
    else if g.Has(HATAF_SEGOL) then ("e", true)
    else if g.Has(HATAF_QAMATS) then ("o", true)
    else if g.Has(SHEVA) then ([SCHWA], false)
    else ("", false)
  }

  predicate IsShuruk(g: Glyph) {
    g.base == [VAV] && g.Has(DAGESH) && !HasVowelMark(g)
  }

  predicate IsHolamMale(g: Glyph) {
    g.base == [VAV] && g.Has(HOLAM) && !g.Has(DAGESH)
  }

  predicate IsHiriqYod(glyphs: seq<Glyph>, i: nat)
    requires i < |glyphs|
  {
    i + 1 < |glyphs| && glyphs[i].Has(HIRIQ) && glyphs[i + 1].base == [YOD] && !HasVowelMark(glyphs[i + 1])
  }
}
