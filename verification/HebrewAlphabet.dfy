/** The sounds of the Hebrew letters and points, as tables. */
module HebrewAlphabet {
  import opened Wrappers
  import opened HebrewGlyphs

  // Bet, kaf and pe sound otherwise with a dagesh.
  lemma SoundsWithDagesh(marks: seq<char>, isFinal: bool)
    ensures MapConsonant(BET, marks, isFinal) == if DAGESH in marks then "b" else "v"
    ensures MapConsonant(KAF, marks, isFinal) == if DAGESH in marks then "k" else "\U{3C7}"
    ensures MapConsonant(PE, marks, isFinal) == if DAGESH in marks then "p" else "f"
  {
  }

  // The letters that always sound the same, among them four pairs that sound like others: vav as
  // bet, het as kaf, qof as kaf with a dagesh, tet and tav alike.
  lemma SoundsOfLetters(marks: seq<char>, isFinal: bool)
    ensures MapConsonant(GIMEL, marks, isFinal) == "g"
    ensures MapConsonant(DALET, marks, isFinal) == "d"
    ensures MapConsonant(VAV, marks, isFinal) == "v"
    ensures MapConsonant(ZAYIN, marks, isFinal) == "z"
    ensures MapConsonant(HET, marks, isFinal) == "\U{3C7}"
    ensures MapConsonant(TET, marks, isFinal) == MapConsonant(TAV, marks, isFinal) == "t"
    ensures MapConsonant(YOD, marks, isFinal) == "j"
    ensures MapConsonant(LAMED, marks, isFinal) == "l"
    ensures MapConsonant(MEM, marks, isFinal) == "m"
    ensures MapConsonant(NUN, marks, isFinal) == "n"
    ensures MapConsonant(SAMEKH, marks, isFinal) == "s"
    ensures MapConsonant(TSADI, marks, isFinal) == "t\U{361}s"
    ensures MapConsonant(QOF, marks, isFinal) == "k"
    ensures MapConsonant(RESH, marks, isFinal) == "\U{281}"
  {
  }

  // Shin depends on its dot, he is silent at the end of a word unless it has a dagesh, and whether
  // alef and ayin are silent depends on their vowel.
  lemma SoundsOfOtherLetters(marks: seq<char>, isFinal: bool)
    ensures MapConsonant(SHIN, marks, isFinal) == if SIN_DOT in marks && SHIN_DOT !in marks then "s" else "\U{283}"
    ensures MapConsonant(HE, marks, isFinal) == if isFinal && DAGESH !in marks then "" else "h"
    ensures MapConsonant(ALEF, marks, isFinal) == MapConsonant(AYIN, marks, isFinal) == "<GLT>"
  {
  }

  // The letters that sound alike: vav and a bet without dagesh, het and a kaf without one, qof and a kaf
  // with one, tet and tav, samekh and a shin with the sin dot, alef and ayin, and each final form and the
  // letter it is a form of.
  lemma LettersThatSoundAlike(marks: seq<char>, others: seq<char>, isFinal: bool)
    requires DAGESH !in others && SHIN_DOT !in others && SIN_DOT in others
    ensures MapConsonant(VAV, marks, isFinal) == MapConsonant(BET, others, isFinal)
    ensures MapConsonant(HET, marks, isFinal) == MapConsonant(KAF, others, isFinal)
    ensures MapConsonant(QOF, marks, isFinal) == MapConsonant(KAF, others + [DAGESH], isFinal)
    ensures MapConsonant(TET, marks, isFinal) == MapConsonant(TAV, others, isFinal)
    ensures MapConsonant(SAMEKH, marks, isFinal) == MapConsonant(SHIN, others, isFinal)
    ensures MapConsonant(ALEF, marks, isFinal) == MapConsonant(AYIN, others, isFinal)
    ensures MapConsonant(KAF_FINAL, marks, isFinal) == MapConsonant(KAF, marks, isFinal)
    ensures MapConsonant(MEM_FINAL, marks, isFinal) == MapConsonant(MEM, others, isFinal)
    ensures MapConsonant(NUN_FINAL, marks, isFinal) == MapConsonant(NUN, others, isFinal)
    ensures MapConsonant(PE_FINAL, marks, isFinal) == MapConsonant(PE, marks, isFinal)
    ensures MapConsonant(TSADI_FINAL, marks, isFinal) == MapConsonant(TSADI, others, isFinal)
  {
    hide MapConsonant;
    SoundsOfLetters(marks, isFinal);
    SoundsOfLetters(others, isFinal);
    SoundsWithDagesh(marks, isFinal);
    SoundsWithDagesh(others, isFinal);
    SoundsWithDagesh(others + [DAGESH], isFinal);
    SoundsOfOtherLetters(marks, isFinal);
    SoundsOfOtherLetters(others, isFinal);
    FinalForms(marks, isFinal);
  }

  lemma FinalForms(marks: seq<char>, isFinal: bool)
    ensures MapConsonant(KAF_FINAL, marks, isFinal) == MapConsonant(KAF, marks, isFinal)
    ensures MapConsonant(MEM_FINAL, marks, isFinal) == MapConsonant(MEM, marks, isFinal)
    ensures MapConsonant(NUN_FINAL, marks, isFinal) == MapConsonant(NUN, marks, isFinal)
    ensures MapConsonant(PE_FINAL, marks, isFinal) == MapConsonant(PE, marks, isFinal)
    ensures MapConsonant(TSADI_FINAL, marks, isFinal) == MapConsonant(TSADI, marks, isFinal)
  {
  }

  // But for the dots of shin and a final he, points change the consonant of bet, kaf and pe alone, and
  // there only a dagesh does.
  lemma OnlyADageshMakesADifference(base: char, a: seq<char>, b: seq<char>)
    requires base != SHIN
    ensures MapConsonant(base, a, false) != MapConsonant(base, b, false)
      <==> base in {BET, KAF, KAF_FINAL, PE, PE_FINAL} && (DAGESH in a <==> DAGESH !in b)
  {
  }

  // Every character outside the alphabet, alef to tav, is silent.
  lemma OnlyLettersSound(base: char, marks: seq<char>, isFinal: bool)
    requires !('\U{5D0}' <= base <= '\U{5EA}')
    ensures MapConsonant(base, marks, isFinal) == ""
  {
  }

  // The full vowels: the first one of the list that a letter carries is heard.
  const VOWELS: seq<(char, string)> := [
    (QAMATS_QATAN, "o"), (QUBUTZ, "u"), (HIRIQ, "i"), (TSERE, "e"), (SEGOL, "e"),
    (PATAH, "a"), (QAMATS, "a"), (HATAF_PATAH, "a"), (HATAF_SEGOL, "e"), (HATAF_QAMATS, "o")]

  predicate HeardFirst(g: Glyph, k: nat)
    requires k < |VOWELS|
  {
    g.Has(VOWELS[k].0) && forall j | 0 <= j < k :: !g.Has(VOWELS[j].0)
  }

  lemma FirstVowelIsHeard(g: Glyph, k: nat)
    requires k < |VOWELS| && HeardFirst(g, k)
    ensures MapBasicVowel(g) == (VOWELS[k].1, true)
  {
    hide Glyph.Has;
    assert k > 0 ==> !g.Has(VOWELS[0].0);
    assert k > 1 ==> !g.Has(VOWELS[1].0);
    assert k > 2 ==> !g.Has(VOWELS[2].0);
    assert k > 3 ==> !g.Has(VOWELS[3].0);
    assert k > 4 ==> !g.Has(VOWELS[4].0);
    assert k > 5 ==> !g.Has(VOWELS[5].0);
    assert k > 6 ==> !g.Has(VOWELS[6].0);
    assert k > 7 ==> !g.Has(VOWELS[7].0);
    assert k > 8 ==> !g.Has(VOWELS[8].0);
  }

  // Without any of them a letter has no full vowel; a sheva is a schwa.
  lemma NoVowelIsHeard(g: Glyph)
    requires forall k | 0 <= k < |VOWELS| :: !g.Has(VOWELS[k].0)
    ensures MapBasicVowel(g) == (if SHEVA in g.marks then "\U{259}" else "", false)
  {
    assert VOWELS[0].0 == QAMATS_QATAN && VOWELS[1].0 == QUBUTZ && VOWELS[2].0 == HIRIQ && VOWELS[3].0 == TSERE;
    assert VOWELS[4].0 == SEGOL && VOWELS[5].0 == PATAH && VOWELS[6].0 == QAMATS && VOWELS[7].0 == HATAF_PATAH;
    assert VOWELS[8].0 == HATAF_SEGOL && VOWELS[9].0 == HATAF_QAMATS;
  }

  // A geresh turns gimel, zayin and tsadi into other sounds, and no other letter.
  lemma SoundsOfDigraphs(base: string, marks: seq<char>)
    ensures DigraphSound(base).Some? <==> base in [[GIMEL], [ZAYIN], [TSADI]]
    ensures GlyphConsonant(WithGeresh(Glyph([GIMEL], marks), Glyph([GERESH], [])), false) == "d\U{361}\U{292}"
    ensures GlyphConsonant(WithGeresh(Glyph([ZAYIN], marks), Glyph([GERESH], [])), false) == "\U{292}"
    ensures GlyphConsonant(WithGeresh(Glyph([TSADI], marks), Glyph([GERESH], [])), false) == "t\U{361}\U{283}"
  {
  }
}
