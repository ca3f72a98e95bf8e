/**
 What the points of a Hebrew word decide: whether it has any syllable, which shevas are silent, and
 whether its consonants all survive.
 */
module HebrewVowels {
  import opened Wrappers
  import opened HebrewGlyphs
  import opened HebrewSegments

  // The letters that make a syllable. A holam counts only on a vav.
  predicate IsVoweled(g: Glyph) {
    IsShuruk(g) || IsHolamMale(g) || MapBasicVowel(g).1 || g.Has(SHEVA)
  }

  predicate HasVoweledLetter(glyphs: seq<Glyph>) {
    exists k :: 0 <= k < |glyphs| && IsVoweled(glyphs[k])
  }

  function LastVoweled(glyphs: seq<Glyph>, i: nat): (r: Option<nat>)
    requires i <= |glyphs|
    ensures r.Some? ==> r.value < i && IsVoweled(glyphs[r.value])
    ensures r.Some? ==> forall k | r.value < k < i :: !IsVoweled(glyphs[k])
    ensures r.None? ==> forall k | 0 <= k < i :: !IsVoweled(glyphs[k])
  {
    if i == 0 then None else if IsVoweled(glyphs[i - 1]) then Some(i - 1) else LastVoweled(glyphs, i - 1)
  }

  predicate IsShevaLetter(g: Glyph) {
    g.Has(SHEVA) && !IsShuruk(g) && !IsHolamMale(g) && !MapBasicVowel(g).1
  }

  // A sheva is silent unless it comes first, has a dagesh, or follows a silent sheva.
  predicate SilentSheva(glyphs: seq<Glyph>, k: nat)
    requires k < |glyphs|
    decreases k
  {
    && IsShevaLetter(glyphs[k]) && !glyphs[k].Has(DAGESH)
    && match LastVoweled(glyphs, k)
       case None => false
       case Some(j) => !SilentSheva(glyphs, j)
  }

  // The yod that lengthens a hiriq is no consonant.
  predicate Swallowed(glyphs: seq<Glyph>, m: nat)
    requires m <= |glyphs|
  {
    m > 0 && IsHiriqYod(glyphs, m - 1)
  }

  predicate SoundsConsonant(glyphs: seq<Glyph>, m: nat)
    requires m < |glyphs|
  {
    !Swallowed(glyphs, m) && GlyphConsonant(glyphs[m], m == |glyphs| - 1) != ""
  }

  predicate ConsonantBetween(glyphs: seq<Glyph>, from: nat, to: nat)
    requires to <= |glyphs|
  {
    exists m: nat :: from <= m < to && SoundsConsonant(glyphs, m)
  }

  // ---------- Letters and segments ----------

  // What the segments built so far show of the letters before position i.
  ghost predicate Shows(glyphs: seq<Glyph>, i: nat, b: Builder)
    requires i <= |glyphs|
  {
    && !Swallowed(glyphs, i)
    && match LastVoweled(glyphs, i)
       case None => b.segs == [] && (b.onset != [] <==> ConsonantBetween(glyphs, 0, i))
       case Some(k) =>
         && b.segs != []
         && (Silenced(b.segs, |b.segs| - 1) <==> SilentSheva(glyphs, k))
         && (b.onset != [] <==> ConsonantBetween(glyphs, k + 1, i))
  }

  // The sound of a letter, as far as the points decide it.
  lemma SoundOfLetter(glyphs: seq<Glyph>, i: nat)
    requires i < |glyphs|
    ensures var x, g := SoundAt(glyphs, i), glyphs[i];
      && (x.nucleus.Some? <==> IsVoweled(g))
      && (x.nucleus == Some([SCHWA]) <==> IsShevaLetter(g))
      && (IsShevaLetter(g) ==> x.dagesh == g.Has(DAGESH))
      && (x.width == 2 <==> IsHiriqYod(glyphs, i)) && x.width <= 2
      && (!IsVoweled(g) ==> (x.consonants != [] <==> GlyphConsonant(g, i == |glyphs| - 1) != ""))
  {
    hide GlyphConsonant;
  }

  lemma MarkIsSeen(g: Glyph, mark: char)
    requires mark in VOWEL_MARKS
    ensures g.Has(mark) ==> HasVowelMark(g)
  {
    if g.Has(mark) {
      var k :| 0 <= k < |g.marks| && g.marks[k] == mark;
      assert g.marks[k] in VOWEL_MARKS;
    }
  }

  // Without a vowel mark there is no vowel.
  lemma NoMarkNoVowel(g: Glyph)
    requires !HasVowelMark(g)
    ensures !MapBasicVowel(g).1 && !g.Has(SHEVA) && !g.Has(HIRIQ)
  {
    hide HasVowelMark;
    MarkIsSeen(g, SHEVA);
    MarkIsSeen(g, HATAF_SEGOL);
    MarkIsSeen(g, HATAF_PATAH);
    MarkIsSeen(g, HATAF_QAMATS);
    MarkIsSeen(g, HIRIQ);
    MarkIsSeen(g, TSERE);
    MarkIsSeen(g, SEGOL);
    MarkIsSeen(g, PATAH);
    MarkIsSeen(g, QAMATS);
    MarkIsSeen(g, QUBUTZ);
    MarkIsSeen(g, QAMATS_QATAN);
  }

  lemma YodHasNoVowel(glyphs: seq<Glyph>, i: nat)
    requires i < |glyphs| && IsHiriqYod(glyphs, i)
    ensures i + 1 < |glyphs| && !IsVoweled(glyphs[i + 1]) && !IsHiriqYod(glyphs, i + 1) && IsVoweled(glyphs[i])
  {
    hide HasVowelMark, MapBasicVowel;
    NoMarkNoVowel(glyphs[i + 1]);
    HiriqIsVowel(glyphs[i]);
  }

  lemma HiriqIsVowel(g: Glyph)
    requires g.Has(HIRIQ)
    ensures MapBasicVowel(g).1
  {
  }

  // Silence depends on the vowels and dageshes up to the segment alone.
  predicate SameVowels(a: seq<Segment>, b: seq<Segment>, n: nat)
    requires n <= |a| && n <= |b|
  {
    forall k | 0 <= k < n :: a[k].nucleus == b[k].nucleus && a[k].dagesh == b[k].dagesh
  }

  lemma {:induction false} SameSilence(a: seq<Segment>, b: seq<Segment>, i: nat)
    requires i < |a| && i < |b| && SameVowels(a, b, i + 1)
    ensures Silenced(a, i) <==> Silenced(b, i)
  {
    if i > 0 {
      SameSilence(a, b, i - 1);
    }
  }

  lemma ConsonantMore(glyphs: seq<Glyph>, from: nat, i: nat)
    requires from <= i < |glyphs|
    ensures ConsonantBetween(glyphs, from, i + 1) <==> ConsonantBetween(glyphs, from, i) || SoundsConsonant(glyphs, i)
  {
  }

  lemma NoVowelStep(glyphs: seq<Glyph>, i: nat, b: Builder)
    requires i < |glyphs| && Shows(glyphs, i, b) && !IsVoweled(glyphs[i])
    ensures SoundAt(glyphs, i).width == 1 && Shows(glyphs, i + 1, Extend(b, SoundAt(glyphs, i)))
  {
    hide SoundAt, GlyphConsonant, IsHiriqYod, IsVoweled, SilentSheva, Silenced, ConsonantBetween;
    SoundOfLetter(glyphs, i);
    NoHiriq(glyphs, i);
    match LastVoweled(glyphs, i)
    case None => ConsonantMore(glyphs, 0, i);
    case Some(k) => ConsonantMore(glyphs, k + 1, i);
  }

  lemma NoHiriq(glyphs: seq<Glyph>, i: nat)
    requires i < |glyphs| && !IsVoweled(glyphs[i])
    ensures !IsHiriqYod(glyphs, i)
  {
  }

  lemma VowelStep(glyphs: seq<Glyph>, i: nat, b: Builder)
    requires i < |glyphs| && Shows(glyphs, i, b) && IsVoweled(glyphs[i])
    ensures var x := SoundAt(glyphs, i); Shows(glyphs, i + x.width, Extend(b, x))
  {
    hide SoundAt, GlyphConsonant, IsHiriqYod, IsVoweled, IsShevaLetter;
    SoundOfLetter(glyphs, i);
    var x := SoundAt(glyphs, i);
    var b' := Extend(b, x);
    var last := |b.segs|;
    assert b'.segs[last].nucleus == x.nucleus.value && b'.segs[last].dagesh == x.dagesh;
    if last > 0 {
      SameSilence(b'.segs, b.segs, last - 1);
    }
    assert Silenced(b'.segs, last) <==> SilentSheva(glyphs, i);
    if IsHiriqYod(glyphs, i) {
      YodHasNoVowel(glyphs, i);
    }
    assert LastVoweled(glyphs, i + x.width) == Some(i);
  }

  lemma {:induction false} WalkShows(glyphs: seq<Glyph>, i: nat, done: seq<Sound>, b: Builder)
    requires i <= |glyphs| && BuiltSoFar(glyphs, i, done, b) && Shows(glyphs, i, b)
    ensures Shows(glyphs, |glyphs|, Built(Sounds(glyphs, 0)))
    decreases |glyphs| - i
  {
    hide Shows, SoundAt, Extend, IsVoweled;
    if i == |glyphs| {
      assert done + [] == done;
    } else {
      var x := SoundAt(glyphs, i);
      BuildStep(glyphs, i, done, b);
      if IsVoweled(glyphs[i]) {
        VowelStep(glyphs, i, b);
      } else {
        NoVowelStep(glyphs, i, b);
      }
      WalkShows(glyphs, i + x.width, done + [x], Extend(b, x));
    }
  }

  lemma {:induction false} BuiltShows(glyphs: seq<Glyph>)
    ensures Shows(glyphs, |glyphs|, Built(Sounds(glyphs, 0)))
  {
    NothingBuilt(glyphs);
    WalkShows(glyphs, 0, [], Builder([], []));
  }

  // ---------- Letter by letter ----------

  // The consonants a letter is heard with. The vav of a long u or o and the yod that lengthens a
  // hiriq are none; alef and ayin are a glottal stop unless they carry a vowel.
  function LetterConsonants(glyphs: seq<Glyph>, m: nat): seq<string>
    requires m < |glyphs|
  {
    var g := glyphs[m];
    var sound := GlyphConsonant(g, m == |glyphs| - 1);
    if IsShuruk(g) || (IsHolamMale(g) && !IsHiriqYod(glyphs, m)) || Swallowed(glyphs, m) || sound == "" then []
    else if sound != SILENT_GLOTTAL then [sound]
    else if IsVoweled(g) then [] else ["\U{294}"]
  }

  // The vowel a letter is heard with; for a sheva the schwa, to be read later.
  function LetterVowel(glyphs: seq<Glyph>, m: nat): Option<string>
    requires m < |glyphs|
  {
    var g := glyphs[m];
    if !IsVoweled(g) then None
    else if IsShuruk(g) then Some("u")
    else if IsHiriqYod(glyphs, m) then Some("i")
    else if IsHolamMale(g) then Some("o")
    else if IsShevaLetter(g) then Some("\U{259}")
    else Some(MapBasicVowel(g).0)
  }

  function LetterSpeech(glyphs: seq<Glyph>, m: nat): seq<Phone>
    requires m < |glyphs|
  {
    Consonants(LetterConsonants(glyphs, m))
    + match LetterVowel(glyphs, m) case None => [] case Some(vowel) => [V(vowel)]
  }

  // The speech of the first n letters, one after the other.
  function WordSpeech(glyphs: seq<Glyph>, n: nat): seq<Phone>
    requires n <= |glyphs|
  {
    if n == 0 then [] else WordSpeech(glyphs, n - 1) + LetterSpeech(glyphs, n - 1)
  }

  function WordConsonants(glyphs: seq<Glyph>, n: nat): seq<string>
    requires n <= |glyphs|
  {
    if n == 0 then [] else WordConsonants(glyphs, n - 1) + LetterConsonants(glyphs, n - 1)
  }

  lemma {:induction false} ConsonantsOfWord(glyphs: seq<Glyph>, n: nat)
    requires n <= |glyphs|
    ensures ConsonantsOf(WordSpeech(glyphs, n)) == Consonants(WordConsonants(glyphs, n))
  {
    hide LetterConsonants, LetterVowel, Consonants, ConsonantsOf;
    NoConsonants();
    if n > 0 {
      ConsonantsOfWord(glyphs, n - 1);
      ConsonantsAppend(WordConsonants(glyphs, n - 1), LetterConsonants(glyphs, n - 1));
      ConsonantsOfConcat(WordSpeech(glyphs, n - 1), LetterSpeech(glyphs, n - 1));
      ConsonantsOfLetter(glyphs, n - 1);
    }
  }

  lemma ConsonantsOfLetter(glyphs: seq<Glyph>, m: nat)
    requires m < |glyphs|
    ensures ConsonantsOf(LetterSpeech(glyphs, m)) == Consonants(LetterConsonants(glyphs, m))
  {
    hide LetterConsonants, LetterVowel, Consonants, ConsonantsOf;
    var consonants := Consonants(LetterConsonants(glyphs, m));
    ConsonantsOfConsonants(LetterConsonants(glyphs, m));
    match LetterVowel(glyphs, m)
    case None => assert consonants + [] == consonants;
    case Some(vowel) =>
      ConsonantsOfConcat(consonants, [V(vowel)]);
      VowelsAreNotConsonants(vowel);
  }

  function OneSound(x: Sound): seq<Phone> {
    Consonants(x.consonants) + match x.nucleus case None => [] case Some(vowel) => [V(vowel)]
  }

  // The operation takes up the letters one by one, and a hiriq together with its yod.
  lemma SoundOfPlace(glyphs: seq<Glyph>, i: nat)
    requires i < |glyphs| && !Swallowed(glyphs, i)
    ensures OneSound(SoundAt(glyphs, i)) == LetterSpeech(glyphs, i)
    ensures var next := i + SoundAt(glyphs, i).width;
      !Swallowed(glyphs, next) && WordSpeech(glyphs, next) == WordSpeech(glyphs, i) + LetterSpeech(glyphs, i)
  {
    hide GlyphConsonant, MapBasicVowel, LetterSpeech;
    assert OneSound(SoundAt(glyphs, i)) == LetterSpeech(glyphs, i) by { SoundOfOneLetter(glyphs, i); }
    SoundOfLetter(glyphs, i);
    hide SoundAt;
    if IsHiriqYod(glyphs, i) {
      YodHasNoVowel(glyphs, i);
      SilentYod(glyphs, i + 1);
    }
  }

  lemma SoundOfOneLetter(glyphs: seq<Glyph>, i: nat)
    requires i < |glyphs| && !Swallowed(glyphs, i)
    ensures OneSound(SoundAt(glyphs, i)) == LetterSpeech(glyphs, i)
  {
    hide GlyphConsonant;
    SoundOfLetter(glyphs, i);
    if IsHiriqYod(glyphs, i) {
      HiriqIsVowel(glyphs[i]);
      MarkIsSeen(glyphs[i], HIRIQ);
    }
  }

  lemma SilentYod(glyphs: seq<Glyph>, m: nat)
    requires m < |glyphs| && Swallowed(glyphs, m) && !IsVoweled(glyphs[m])
    ensures LetterSpeech(glyphs, m) == []
  {
    hide IsVoweled;
  }

  lemma {:induction false} OneSoundMore(sounds: seq<Sound>, x: Sound)
    ensures SoundSpeech(sounds + [x]) == SoundSpeech(sounds) + OneSound(x)
  {
    hide SoundSpeech;
    SoundSpeechMore(sounds, x);
  }

  lemma {:induction false} SpeechByLetters(glyphs: seq<Glyph>, i: nat, done: seq<Sound>)
    requires i <= |glyphs| && done + Sounds(glyphs, i) == Sounds(glyphs, 0)
    requires !Swallowed(glyphs, i) && SoundSpeech(done) == WordSpeech(glyphs, i)
    ensures SoundSpeech(Sounds(glyphs, 0)) == WordSpeech(glyphs, |glyphs|)
    decreases |glyphs| - i
  {
    hide SoundAt, SoundSpeech, OneSound, WordSpeech, LetterSpeech, Swallowed;
    if i == |glyphs| {
      assert done + [] == done;
    } else {
      var x := SoundAt(glyphs, i);
      SoundOfPlace(glyphs, i);
      OneSoundMore(done, x);
      assert done + [x] + Sounds(glyphs, i + x.width) == done + ([x] + Sounds(glyphs, i + x.width));
      SpeechByLetters(glyphs, i + x.width, done + [x]);
    }
  }

  // The sounds of a word are those of its letters, in order.
  lemma {:induction false} SoundsAreTheLetters(glyphs: seq<Glyph>)
    ensures SoundSpeech(Sounds(glyphs, 0)) == WordSpeech(glyphs, |glyphs|)
  {
    hide SoundAt;
    SpeechByLetters(glyphs, 0, []);
  }

  // The code points of the vowel marks.
  predicate IsVowelPoint(c: char) {
    '\U{5B0}' <= c <= '\U{5B9}' || c == '\U{5BB}' || c == '\U{5C7}'
  }

  lemma VowelPoints(g: Glyph)
    ensures HasVowelMark(g) <==> exists c | c in g.marks :: IsVowelPoint(c)
  {
    if HasVowelMark(g) {
      var k :| 0 <= k < |g.marks| && g.marks[k] in VOWEL_MARKS;
      assert IsVowelPoint(g.marks[k]);
    }
    if c :| c in g.marks && IsVowelPoint(c) {
      var k :| 0 <= k < |g.marks| && g.marks[k] == c;
      assert c == SHEVA || c == HATAF_SEGOL || c == HATAF_PATAH || c == HATAF_QAMATS || c == HIRIQ || c == TSERE
        || c == SEGOL || c == PATAH || c == QAMATS || c == HOLAM || c == QUBUTZ || c == QAMATS_QATAN;
      assert g.marks[k] in VOWEL_MARKS;
    }
  }

  // A vav is a long u with a dagesh and no vowel point, a long o with a holam and no dagesh, and in
  // all other cases a consonant.
  lemma VavIsVowelOrConsonant(glyphs: seq<Glyph>, m: nat)
    requires m < |glyphs| && glyphs[m].base == ['\U{5D5}'] && !IsHiriqYod(glyphs, m)
    ensures var marks := glyphs[m].marks;
      if '\U{5BC}' in marks && (forall c | c in marks :: !IsVowelPoint(c)) then LetterSpeech(glyphs, m) == [V("u")]
      else if '\U{5B9}' in marks && '\U{5BC}' !in marks then LetterSpeech(glyphs, m) == [V("o")]
      else LetterConsonants(glyphs, m) == ["v"]
  {
    hide HasVowelMark;
    VowelPoints(glyphs[m]);
    assert DigraphIpa(glyphs[m].base).None?;
  }

  // A yod is a consonant unless it has no vowel point and follows a letter with a hiriq.
  lemma YodIsHeardUnlessItLengthens(glyphs: seq<Glyph>, m: nat)
    requires m < |glyphs| && glyphs[m].base == ['\U{5D9}']
    ensures LetterConsonants(glyphs, m)
      == if m > 0 && '\U{5B4}' in glyphs[m - 1].marks && (forall c | c in glyphs[m].marks :: !IsVowelPoint(c)) then []
         else ["j"]
  {
    hide HasVowelMark;
    VowelPoints(glyphs[m]);
    assert DigraphIpa(glyphs[m].base).None?;
  }

  // ---------- Main results ----------

  // A word has segments exactly when some letter is voweled.
  lemma {:induction false} SegmentsIffVoweled(glyphs: seq<Glyph>)
    ensures SegmentsOf(glyphs) != [] <==> HasVoweledLetter(glyphs)
    ensures HasNucleus(Sounds(glyphs, 0)) <==> HasVoweledLetter(glyphs)
  {
    hide Sounds, Built, HasNucleus, IsVoweled, Silenced, SilentSheva, ConsonantBetween, Swallowed;
    BuiltShows(glyphs);
    SegmentsKeepSpeech(glyphs);
  }

  // A word with a voweled letter keeps every consonant and every vowel of its letters in order; a
  // word without one loses all of them.
  lemma {:induction false} VoweledWordsKeepSpeech(glyphs: seq<Glyph>)
    ensures Speech(SegmentsOf(glyphs)) == if HasVoweledLetter(glyphs) then WordSpeech(glyphs, |glyphs|) else []
  {
    hide WordSpeech;
    SegmentsIffVoweled(glyphs);
    SegmentsKeepSpeech(glyphs);
    SoundsAreTheLetters(glyphs);
  }

  // From letters to read segments: the consonants of all letters survive, in order, exactly when no
  // letter is voweled and no letter sounds a consonant, or the last voweled letter is not a silent
  // sheva that consonants follow.
  lemma {:induction false} WordKeepsConsonantsIff(glyphs: seq<Glyph>)
    ensures ConsonantsOf(Speech(Merge(Read(SegmentsOf(glyphs))))) == Consonants(WordConsonants(glyphs, |glyphs|))
      <==> match LastVoweled(glyphs, |glyphs|)
           case None => !ConsonantBetween(glyphs, 0, |glyphs|)
           case Some(k) => !(SilentSheva(glyphs, k) && ConsonantBetween(glyphs, k + 1, |glyphs|))
  {
    hide *;
    var b := Built(Sounds(glyphs, 0));
    BuiltShows(glyphs);
    ShowsAtEnd(glyphs, b);
    BuiltWord(glyphs);
    SoundsAreTheLetters(glyphs);
    ConsonantsOfWord(glyphs, |glyphs|);
    if b.segs == [] {
      UnvoweledSpeech(b, SoundSpeech(Sounds(glyphs, 0)));
    } else {
      SegmentsAreWellFormed(glyphs);
      VoweledSpeech(b, SoundSpeech(Sounds(glyphs, 0)));
    }
  }

  // What the finished segments say of the letters.
  lemma {:induction false} ShowsAtEnd(glyphs: seq<Glyph>, b: Builder)
    requires Shows(glyphs, |glyphs|, b)
    ensures match LastVoweled(glyphs, |glyphs|)
      case None => b.segs == [] && (b.onset != [] <==> ConsonantBetween(glyphs, 0, |glyphs|))
      case Some(k) =>
        && b.segs != []
        && (Silenced(b.segs, |b.segs| - 1) <==> SilentSheva(glyphs, k))
        && (b.onset != [] <==> ConsonantBetween(glyphs, k + 1, |glyphs|))
  {
    hide Silenced, SilentSheva, ConsonantBetween, Swallowed, LastVoweled, IsVoweled;
  }

  lemma {:induction false} BuiltWord(glyphs: seq<Glyph>)
    ensures var b := Built(Sounds(glyphs, 0));
      && SegmentsOf(glyphs) == Close(b)
      && Speech(b.segs) + Consonants(b.onset) == SoundSpeech(Sounds(glyphs, 0))
      && forall k | 0 <= k < |b.segs| :: b.segs[k].coda == []
  {
    hide Sounds, Built, Speech, SoundSpeech, HasNucleus;
    BuiltKeepsSpeech(Sounds(glyphs, 0));
  }

  // With segments, all consonants survive unless a silent schwa comes last and consonants close it.
  lemma {:induction false} VoweledSpeech(b: Builder, spoken: seq<Phone>)
    requires b.segs != [] && WellFormed(Close(b)) && Speech(b.segs) + Consonants(b.onset) == spoken
    requires b.segs[|b.segs| - 1].coda == []
    ensures ConsonantsOf(Speech(Merge(Read(Close(b))))) == ConsonantsOf(spoken)
      <==> !(Silenced(b.segs, |b.segs| - 1) && b.onset != [])
  {
    hide Speech, ConsonantsOf, Merge, Read, Silenced, WellFormed;
    CloseKeepsSpeech(b);
    ConsonantsKeptIffNoSilentClose(Close(b));
    ClosedCoda(b);
    SameSilence(Close(b), b.segs, |b.segs| - 1);
  }

  lemma ClosedCoda(b: Builder)
    requires b.segs != [] && b.segs[|b.segs| - 1].coda == []
    ensures |Close(b)| == |b.segs| && Close(b)[|b.segs| - 1].coda == b.onset
  {
    assert [] + b.onset == b.onset;
  }

  lemma {:induction false} UnvoweledSpeech(b: Builder, spoken: seq<Phone>)
    requires b.segs == [] && Speech(b.segs) + Consonants(b.onset) == spoken
    ensures ConsonantsOf(Speech(Merge(Read(Close(b))))) == ConsonantsOf(spoken) <==> b.onset == []
  {
    assert Read([]) == [] && Merge([]) == [] && Speech([]) == [] && ConsonantsOf([]) == [];
    assert spoken == Consonants(b.onset);
    ConsonantsOfConsonants(b.onset);
    assert |Consonants(b.onset)| == |b.onset|;
  }

  // A kaf pointed with holam and a bare lamed: the word has a vowel point, but a holam counts only
  // on a vav, so it has no segment and nothing of it is spoken.
  lemma HolamWithoutVavIsLost()
    ensures var glyphs := [Glyph([KAF], [DAGESH, HOLAM]), Glyph([LAMED], [])];
      && HasVowelMark(glyphs[0]) && !HasVoweledLetter(glyphs)
      && SegmentsOf(glyphs) == [] && ConsonantBetween(glyphs, 0, 2)
  {
    hide *;
    var glyphs := [Glyph([KAF], [DAGESH, HOLAM]), Glyph([LAMED], [])];
    HolamLetter(glyphs[0]);
    BareLetter(glyphs[1]);
    NoVoweledLetter(glyphs);
    SegmentsIffVoweled(glyphs);
    LastSounds(glyphs);
  }

  lemma OnlyTwoMarks(g: Glyph, mark: char)
    requires g.marks == [DAGESH, HOLAM]
    ensures g.Has(mark) <==> mark == DAGESH || mark == HOLAM
  {
  }

  lemma HolamLetter(g: Glyph)
    requires g == Glyph([KAF], [DAGESH, HOLAM])
    ensures HasVowelMark(g) && !IsVoweled(g) && !g.Has(HIRIQ)
  {
    MarkIsSeen(g, HOLAM);
    hide HasVowelMark;
    forall mark ensures g.Has(mark) <==> mark == DAGESH || mark == HOLAM {
      OnlyTwoMarks(g, mark);
    }
    hide Glyph.Has;
  }

  lemma BareLetter(g: Glyph)
    requires g == Glyph([LAMED], [])
    ensures !IsVoweled(g) && GlyphConsonant(g, true) == "l"
  {
    assert DigraphIpa(g.base).None?;
  }

  lemma NoVoweledLetter(glyphs: seq<Glyph>)
    requires |glyphs| == 2 && !IsVoweled(glyphs[0]) && !IsVoweled(glyphs[1])
    ensures !HasVoweledLetter(glyphs)
  {
    hide IsVoweled;
  }

  lemma LastSounds(glyphs: seq<Glyph>)
    requires |glyphs| == 2 && !glyphs[0].Has(HIRIQ) && GlyphConsonant(glyphs[1], true) == "l"
    ensures ConsonantBetween(glyphs, 0, 2)
  {
    hide GlyphConsonant;
    assert SoundsConsonant(glyphs, 1);
  }

  // ---------- The geresh ----------

  lemma MergedVowel(first: Glyph, second: Glyph)
    requires DigraphSound(first.base).Some? && second.base == [GERESH]
    ensures IsVoweled(WithGeresh(first, second)) <==> IsVoweled(first) || IsVoweled(second)
  {
    var g := WithGeresh(first, second);
    assert forall mark :: g.Has(mark) <==> first.Has(mark) || second.Has(mark);
    assert g.base != [VAV];
  }

  // Collapsing the geresh digraphs neither makes nor loses a voweled letter.
  lemma {:induction false} CollapseKeepsVowels(glyphs: seq<Glyph>, i: nat)
    requires i <= |glyphs|
    ensures HasVoweledLetter(Collapse(glyphs, i)) <==> HasVoweledLetter(glyphs[i..])
    decreases |glyphs| - i
  {
    hide IsVoweled, HasVoweledLetter, Collapse, DigraphSound, WithGeresh;
    if i < |glyphs| {
      CollapseStep(glyphs, i);
      VoweledHead(glyphs[i], glyphs[i + 1..]);
      assert glyphs[i..] == [glyphs[i]] + glyphs[i + 1..];
      if StartsDigraph(glyphs, i) {
        CollapseKeepsVowels(glyphs, i + 2);
        MergedVowel(glyphs[i], glyphs[i + 1]);
        VoweledHead(WithGeresh(glyphs[i], glyphs[i + 1]), Collapse(glyphs, i + 2));
        VoweledHead(glyphs[i + 1], glyphs[i + 2..]);
        assert glyphs[i + 1..] == [glyphs[i + 1]] + glyphs[i + 2..];
      } else {
        CollapseKeepsVowels(glyphs, i + 1);
        VoweledHead(glyphs[i], Collapse(glyphs, i + 1));
      }
    } else {
      NothingToCollapse(glyphs, i);
      NoVoweledInNothing(glyphs, i);
    }
  }

  lemma NoVoweledInNothing(glyphs: seq<Glyph>, i: nat)
    requires i == |glyphs|
    ensures HasVoweledLetter(glyphs[i..]) == HasVoweledLetter([])
  {
    assert glyphs[i..] == [];
  }

  lemma VoweledHead(first: Glyph, rest: seq<Glyph>)
    ensures HasVoweledLetter([first] + rest) <==> IsVoweled(first) || HasVoweledLetter(rest)
  {
    var glyphs := [first] + rest;
    assert glyphs[0] == first;
    if HasVoweledLetter(rest) {
      var k :| 0 <= k < |rest| && IsVoweled(rest[k]);
      assert glyphs[k + 1] == rest[k];
    }
    if HasVoweledLetter(glyphs) && !IsVoweled(first) {
      var k :| 0 <= k < |glyphs| && IsVoweled(glyphs[k]);
      assert rest[k - 1] == glyphs[k];
    }
  }
}
