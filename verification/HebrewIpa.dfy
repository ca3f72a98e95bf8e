/**
 The phonetic text of a Hebrew word: one stress mark, glottal stops only where a vowel follows, and
 the whole way from letters to text.
 */
module HebrewIpa {
  import opened Wrappers
  import opened HebrewGlyphs
  import opened HebrewSegments
  import opened HebrewVowels

  function Concat(parts: seq<string>): string {
    if parts == [] then "" else Concat(parts[..|parts| - 1]) + parts[|parts| - 1]
  }

  // ---------- Stress ----------

  function StressIndex(segs: seq<Segment>): nat {
    if |segs| == 2 && segs[1].coda != [] then 0 else if segs == [] then 0 else |segs| - 1
  }

  function Syllable(s: Segment, stressed: bool): string {
    Concat(s.onset) + (if stressed then [STRESS] else "") + s.nucleus + Concat(s.coda)
  }

  function SyllabifyUpTo(segs: seq<Segment>, n: nat, stress: nat): string
    requires n <= |segs|
  {
    if n == 0 then "" else SyllabifyUpTo(segs, n - 1, stress) + Syllable(segs[n - 1], n - 1 == stress)
  }

  function SyllabifyToIpa(segs: seq<Segment>): string {
    SyllabifyUpTo(segs, |segs|, StressIndex(segs))
  }

  // The text with no stress mark at all.
  function Unstressed(segs: seq<Segment>): string {
    SyllabifyUpTo(segs, |segs|, |segs|)
  }

  // What stands before and after the mark on the segment at an index.
  function BeforeStress(segs: seq<Segment>, stress: nat): string
    requires stress < |segs|
  {
    SyllabifyUpTo(segs, stress, |segs|) + Concat(segs[stress].onset)
  }

  function AfterStress(segs: seq<Segment>, n: nat, stress: nat): (r: string)
    requires stress < n <= |segs|
    ensures segs[stress].nucleus <= r
  {
    if n - 1 == stress then segs[stress].nucleus + Concat(segs[stress].coda)
    else AfterStress(segs, n - 1, stress) + Syllable(segs[n - 1], false)
  }

  lemma Regroup(a: string, b: string, c: string, d: string)
    ensures a + b + c + d == a + b + (c + d) && a + (b + c + d) == a + b + (c + d) && a + c + d == a + (c + d)
  {
  }

  lemma {:induction false} StressSplitsText(segs: seq<Segment>, n: nat, stress: nat)
    requires stress < n <= |segs|
    ensures SyllabifyUpTo(segs, n, stress) == BeforeStress(segs, stress) + [STRESS] + AfterStress(segs, n, stress)
    ensures SyllabifyUpTo(segs, n, |segs|) == BeforeStress(segs, stress) + AfterStress(segs, n, stress)
  {
    if n - 1 == stress {
      NoStressBefore(segs, stress, stress, |segs|);
      StressedSyllable(segs, stress);
    } else {
      hide Concat, Syllable, BeforeStress;
      StressSplitsText(segs, n - 1, stress);
      Regroup(BeforeStress(segs, stress), [STRESS], AfterStress(segs, n - 1, stress), Syllable(segs[n - 1], false));
    }
  }

  lemma {:induction false} StressedSyllable(segs: seq<Segment>, k: nat)
    requires k < |segs|
    ensures var head := SyllabifyUpTo(segs, k, |segs|);
      && head + Syllable(segs[k], true) == BeforeStress(segs, k) + [STRESS] + AfterStress(segs, k + 1, k)
      && head + Syllable(segs[k], false) == BeforeStress(segs, k) + AfterStress(segs, k + 1, k)
  {
    hide SyllabifyUpTo, Concat;
    var head, s := SyllabifyUpTo(segs, k, |segs|), segs[k];
    Regroup(head + Concat(s.onset), [STRESS], s.nucleus, Concat(s.coda));
    assert head + Syllable(s, true) == head + Concat(s.onset) + [STRESS] + s.nucleus + Concat(s.coda);
    assert head + Syllable(s, false) == head + Concat(s.onset) + s.nucleus + Concat(s.coda);
  }

  lemma {:induction false} NoStressBefore(segs: seq<Segment>, n: nat, a: nat, b: nat)
    requires n <= a && n <= b && n <= |segs|
    ensures SyllabifyUpTo(segs, n, a) == SyllabifyUpTo(segs, n, b)
  {
    if n > 0 {
      NoStressBefore(segs, n - 1, a, b);
    }
  }

  // A word with segments gets exactly one mark, directly before a vowel: that of the first of two
  // segments when the second is closed, of the last one otherwise.
  lemma OneStressBeforeAVowel(segs: seq<Segment>) returns (k: nat, before: string, after: string)
    requires segs != []
    ensures k == if |segs| == 2 && segs[1].coda != [] then 0 else |segs| - 1
    ensures SyllabifyToIpa(segs) == before + ['\U{2C8}'] + after
    ensures Unstressed(segs) == before + after
    ensures before == SyllabifyUpTo(segs, k, |segs|) + Concat(segs[k].onset)
    ensures segs[k].nucleus <= after
  {
    k := StressIndex(segs);
    StressSplitsText(segs, |segs|, k);
    before, after := BeforeStress(segs, k), AfterStress(segs, |segs|, k);
  }

  // ---------- Glottal stops ----------

  predicate IsVowel(c: char) {
    c == 'a' || c == 'e' || c == 'i' || c == 'o' || c == 'u' || c == SCHWA
  }

  lemma Vowels(c: char)
    ensures IsVowel(c) <==> c in "aeiou\U{259}"
  {
  }

  // A vowel follows, perhaps behind one stress mark.
  predicate VowelFollows(chars: string, i: nat) {
    var after := if i + 1 < |chars| && chars[i + 1] == STRESS then i + 2 else i + 1;
    after < |chars| && IsVowel(chars[after])
  }

  function Kept(chars: string, i: nat): string
    decreases |chars| - i
  {
    if i >= |chars| then ""
    else (if chars[i] != GLOTTAL || VowelFollows(chars, i) then [chars[i]] else "") + Kept(chars, i + 1)
  }

  ghost predicate GlottalsRealized(chars: string) {
    forall i | 0 <= i < |chars| && chars[i] == GLOTTAL :: VowelFollows(chars, i)
  }

  method StripUnrealizedGlottalStops(chars: string) returns (out: string)
    ensures out == Kept(chars, 0)
  {
    hide Kept;
    out := "";
    for i := 0 to |chars|
      invariant out + Kept(chars, i) == Kept(chars, 0)
    {
      KeptStep(chars, i);
      assert out + [chars[i]] + Kept(chars, i + 1) == out + ([chars[i]] + Kept(chars, i + 1));
      var c := chars[i];
      if c != GLOTTAL {
        out := out + [c];
        continue;
      }
      var afterStress := if i + 1 < |chars| && chars[i + 1] == STRESS then i + 2 else i + 1;
      if afterStress < |chars| && IsVowel(chars[afterStress]) {
        out := out + [c];
      }
    }
    NothingKept(chars);
  }

  lemma KeptStep(chars: string, i: nat)
    requires i < |chars|
    ensures Kept(chars, i)
      == if chars[i] != GLOTTAL || VowelFollows(chars, i) then [chars[i]] + Kept(chars, i + 1) else Kept(chars, i + 1)
  {
  }

  lemma {:induction false} NothingKept(chars: string)
    ensures Kept(chars, |chars|) == ""
  {
  }

  function Without(chars: string, c: char, i: nat): string
    decreases |chars| - i
  {
    if i >= |chars| then ""
    else (if chars[i] != c then [chars[i]] else "") + Without(chars, c, i + 1)
  }

  lemma VowelFollowsInTail(first: string, rest: string)
    requires GlottalsRealized(rest) && |first| <= 1
    requires first == [GLOTTAL] ==> VowelFollows([GLOTTAL] + rest, 0)
    ensures GlottalsRealized(first + rest)
  {
    if first != "" {
      forall i | 0 <= i < |first + rest| && (first + rest)[i] == GLOTTAL ensures VowelFollows(first + rest, i) {
        if i > 0 {
          assert VowelFollows(rest, i - 1);
        } else {
          assert first == [GLOTTAL];
        }
      }
    }
  }

  // The start of what is kept: a vowel that follows still follows.
  lemma {:induction false} KeptStarts(chars: string, i: nat)
    requires i < |chars| && chars[i] == GLOTTAL && VowelFollows(chars, i)
    ensures VowelFollows([GLOTTAL] + Kept(chars, i + 1), 0)
  {
    if chars[i + 1] == STRESS {
      assert Kept(chars, i + 1) == [STRESS] + ([chars[i + 2]] + Kept(chars, i + 3));
    } else {
      assert Kept(chars, i + 1) == [chars[i + 1]] + Kept(chars, i + 2);
    }
  }

  lemma {:induction false} KeptIsRealized(chars: string, i: nat)
    ensures GlottalsRealized(Kept(chars, i))
    decreases |chars| - i
  {
    if i < |chars| {
      KeptIsRealized(chars, i + 1);
      if chars[i] == GLOTTAL && VowelFollows(chars, i) {
        KeptStarts(chars, i);
      }
      VowelFollowsInTail(if chars[i] != GLOTTAL || VowelFollows(chars, i) then [chars[i]] else "", Kept(chars, i + 1));
    }
  }

  // Nothing is left to remove from a text whose glottal stops are all realized.
  lemma {:induction false} RealizedIsKept(chars: string, i: nat)
    requires GlottalsRealized(chars) && i <= |chars|
    ensures Kept(chars, i) == chars[i..]
    decreases |chars| - i
  {
    if i < |chars| {
      RealizedIsKept(chars, i + 1);
    }
  }

  // Every other character stays, in order.
  lemma {:induction false} KeptDropsOnlyGlottals(chars: string, i: nat)
    ensures Without(Kept(chars, i), GLOTTAL, 0) == Without(chars, GLOTTAL, i)
    decreases |chars| - i
  {
    if i < |chars| {
      KeptDropsOnlyGlottals(chars, i + 1);
      KeptStep(chars, i);
      if chars[i] != GLOTTAL || VowelFollows(chars, i) {
        WithoutOfTail(chars[i], Kept(chars, i + 1), GLOTTAL, 0);
        assert Without(Kept(chars, i), GLOTTAL, 0)
            == (if chars[i] != GLOTTAL then [chars[i]] else "") + Without(Kept(chars, i), GLOTTAL, 1);
      }
    }
  }

  lemma {:induction false} WithoutOfTail(first: char, rest: string, c: char, i: nat)
    ensures Without([first] + rest, c, i + 1) == Without(rest, c, i)
    decreases |rest| - i
  {
    if i < |rest| {
      WithoutOfTail(first, rest, c, i + 1);
    }
  }

  // The filter leaves exactly the realized glottal stops, and running it again changes nothing.
  lemma {:induction false} GlottalFilterSettles(chars: string)
    ensures GlottalsRealized(Kept(chars, 0))
    ensures Kept(Kept(chars, 0), 0) == Kept(chars, 0)
    ensures Without(Kept(chars, 0), GLOTTAL, 0) == Without(chars, GLOTTAL, 0)
    ensures Kept(chars, 0) == chars <==> GlottalsRealized(chars)
  {
    KeptIsRealized(chars, 0);
    RealizedIsKept(Kept(chars, 0), 0);
    KeptDropsOnlyGlottals(chars, 0);
    if GlottalsRealized(chars) {
      RealizedIsKept(chars, 0);
    }
  }

  // ---------- Removing the tie bar ----------

  lemma {:induction false} WithoutIsWithout(chars: string, c: char, i: nat)
    ensures c !in Without(chars, c, i)
    ensures forall d | d in Without(chars, c, i) :: d in chars
    decreases |chars| - i
  {
    if i < |chars| {
      WithoutIsWithout(chars, c, i + 1);
    }
  }

  lemma {:induction false} WithoutTieStarts(chars: string, i: nat)
    requires i < |chars| && chars[i] == GLOTTAL && VowelFollows(chars, i)
    ensures VowelFollows([GLOTTAL] + Without(chars, TIE, i + 1), 0)
  {
    if chars[i + 1] == STRESS {
      assert Without(chars, TIE, i + 1) == [STRESS] + ([chars[i + 2]] + Without(chars, TIE, i + 3));
    } else {
      assert Without(chars, TIE, i + 1) == [chars[i + 1]] + Without(chars, TIE, i + 2);
    }
  }

  lemma {:induction false} UntyingKeepsGlottals(chars: string, i: nat)
    requires GlottalsRealized(chars)
    ensures GlottalsRealized(Without(chars, TIE, i))
    decreases |chars| - i
  {
    if i < |chars| {
      UntyingKeepsGlottals(chars, i + 1);
      if chars[i] == GLOTTAL {
        WithoutTieStarts(chars, i);
      }
      VowelFollowsInTail(if chars[i] != TIE then [chars[i]] else "", Without(chars, TIE, i + 1));
    }
  }

  // ---------- Counting a character ----------

  function Count(chars: string, c: char): nat {
    multiset(chars)[c]
  }

  lemma CountConcat(a: string, b: string, c: char)
    ensures Count(a + b, c) == Count(a, c) + Count(b, c)
  {
  }

  lemma CountHead(head: char, tail: string, c: char)
    ensures Count([head] + tail, c) == (if head == c then 1 else 0) + Count(tail, c)
  {
  }

  lemma {:induction false} CountWithout(chars: string, c: char, d: char, i: nat)
    requires c != d && i <= |chars|
    ensures Count(Without(chars, d, i), c) == Count(chars[i..], c)
    decreases |chars| - i
  {
    hide Count;
    if i < |chars| {
      CountWithout(chars, c, d, i + 1);
      assert chars[i..] == [chars[i]] + chars[i + 1..];
      CountHead(chars[i], chars[i + 1..], c);
      CountHead(chars[i], Without(chars, d, i + 1), c);
      assert "" + Without(chars, d, i + 1) == Without(chars, d, i + 1);
    } else {
      assert chars[i..] == "";
    }
  }

  lemma {:induction false} CountKept(chars: string, c: char, i: nat)
    requires c != GLOTTAL && i <= |chars|
    ensures Count(Kept(chars, i), c) == Count(chars[i..], c)
    decreases |chars| - i
  {
    hide Count;
    if i < |chars| {
      CountKept(chars, c, i + 1);
      KeptStep(chars, i);
      assert chars[i..] == [chars[i]] + chars[i + 1..];
      CountHead(chars[i], chars[i + 1..], c);
      CountHead(chars[i], Kept(chars, i + 1), c);
    } else {
      assert chars[i..] == "";
    }
  }

  // ---------- The whole word ----------

  ghost predicate UnmarkedParts(parts: seq<string>) {
    forall k | 0 <= k < |parts| :: Unmarked(parts[k])
  }

  ghost predicate UnmarkedSegment(s: Segment) {
    UnmarkedParts(s.onset) && UnmarkedParts(s.coda) && (Unmarked(s.nucleus) || IsSchwa(s))
  }

  ghost predicate UnmarkedSegments(segs: seq<Segment>) {
    forall k | 0 <= k < |segs| :: UnmarkedSegment(segs[k])
  }

  lemma UnmarkedConcat(a: seq<string>, b: seq<string>)
    requires UnmarkedParts(a) && UnmarkedParts(b)
    ensures UnmarkedParts(a + b)
  {
  }

  // A letter has the base of one character the text was read with, or that of a geresh digraph.
  ghost predicate Lettered(glyphs: seq<Glyph>) {
    forall k | 0 <= k < |glyphs| :: UnmarkedBase(glyphs[k].base)
  }

  predicate UnmarkedBase(base: string) {
    DigraphIpa(base).Some? ==> Unmarked(DigraphIpa(base).value)
  }

  lemma {:induction false} CollapseIsLettered(glyphs: seq<Glyph>, i: nat)
    requires forall k | 0 <= k < |glyphs| :: |glyphs[k].base| == 1
    ensures Lettered(Collapse(glyphs, i))
    decreases |glyphs| - i
  {
    if i < |glyphs| {
      CollapseStep(glyphs, i);
      CollapseIsLettered(glyphs, if StartsDigraph(glyphs, i) then i + 2 else i + 1);
      assert DigraphIpa(glyphs[i].base).None?;
    }
  }

  lemma SoundIsUnmarked(glyphs: seq<Glyph>, i: nat)
    requires i < |glyphs| && Lettered(glyphs)
    ensures var x := SoundAt(glyphs, i);
      UnmarkedParts(x.consonants) && (x.nucleus.Some? ==> Unmarked(x.nucleus.value) || x.nucleus.value == [SCHWA])
  {
    hide IsShuruk, IsHiriqYod, IsHolamMale, MapBasicVowel, MapConsonant, DigraphIpa;
    assert UnmarkedBase(glyphs[i].base);
  }

  ghost predicate UnmarkedSounds(sounds: seq<Sound>) {
    forall k | 0 <= k < |sounds| :: UnmarkedSound(sounds[k])
  }

  ghost predicate UnmarkedSound(x: Sound) {
    UnmarkedParts(x.consonants) && (x.nucleus.Some? ==> Unmarked(x.nucleus.value) || x.nucleus.value == [SCHWA])
  }

  lemma {:induction false} SoundsAreUnmarked(glyphs: seq<Glyph>, i: nat)
    requires Lettered(glyphs)
    ensures UnmarkedSounds(Sounds(glyphs, i))
    decreases |glyphs| - i
  {
    hide SoundAt, Lettered, UnmarkedSound;
    if i < |glyphs| {
      SoundIsUnmarked(glyphs, i);
      assert UnmarkedSound(SoundAt(glyphs, i)) by { UnmarkedSoundAt(glyphs, i); }
      SoundsAreUnmarked(glyphs, i + SoundAt(glyphs, i).width);
    }
  }

  lemma UnmarkedSoundAt(glyphs: seq<Glyph>, i: nat)
    requires i < |glyphs| && Lettered(glyphs)
    ensures UnmarkedSound(SoundAt(glyphs, i))
  {
    hide SoundAt, Lettered;
    SoundIsUnmarked(glyphs, i);
  }

  lemma {:induction false} BuiltIsUnmarked(sounds: seq<Sound>)
    requires UnmarkedSounds(sounds)
    ensures UnmarkedSegments(Built(sounds).segs) && UnmarkedParts(Built(sounds).onset)
  {
    hide Unmarked;
    if sounds != [] {
      var init, last := sounds[..|sounds| - 1], sounds[|sounds| - 1];
      BuiltIsUnmarked(init);
      assert UnmarkedSound(last);
      UnmarkedConcat(Built(init).onset, last.consonants);
    }
  }

  lemma SegmentsAreUnmarked(glyphs: seq<Glyph>)
    requires Lettered(glyphs)
    ensures UnmarkedSegments(SegmentsOf(glyphs))
  {
    hide Sounds, Built, Unmarked, Lettered;
    SoundsAreUnmarked(glyphs, 0);
    var b := Built(Sounds(glyphs, 0));
    BuiltIsUnmarked(Sounds(glyphs, 0));
    if b.segs != [] {
      UnmarkedConcat(b.segs[|b.segs| - 1].coda, b.onset);
    }
  }

  lemma ReadIsUnmarked(segs: seq<Segment>)
    requires UnmarkedSegments(segs)
    ensures UnmarkedSegments(Read(segs))
  {
    hide Silenced, Unmarked;
    forall k | 0 <= k < |segs| ensures UnmarkedSegment(Read(segs)[k]) {
      assert UnmarkedSegment(segs[k]) && (k + 1 < |segs| ==> UnmarkedSegment(segs[k + 1]));
      assert Unmarked("e") && Unmarked("") by { PlainIsUnmarked(); }
      UnmarkedConcat(segs[k].coda, if k + 1 < |segs| then NextOnset(segs, k + 1) else []);
    }
  }

  lemma PlainIsUnmarked()
    ensures Unmarked("e") && Unmarked("")
  {
  }

  lemma MergeIntoIsUnmarked(merged: seq<Segment>, s: Segment)
    requires UnmarkedSegments(merged) && UnmarkedSegment(s)
    ensures UnmarkedSegments(MergeInto(merged, s))
  {
    hide Unmarked;
    if s.nucleus == "" && merged != [] {
      assert UnmarkedSegment(merged[|merged| - 1]);
      UnmarkedConcat(merged[|merged| - 1].coda, s.onset);
    }
  }

  lemma {:induction false} MergeIsUnmarked(segs: seq<Segment>)
    requires UnmarkedSegments(segs)
    ensures UnmarkedSegments(Merge(segs))
  {
    hide UnmarkedSegment, MergeInto;
    if segs != [] {
      var init, last := segs[..|segs| - 1], segs[|segs| - 1];
      MergeIsUnmarked(init);
      MergeIntoIsUnmarked(Merge(init), last);
    }
  }

  lemma {:induction false} ConcatIsUnmarked(parts: seq<string>)
    requires UnmarkedParts(parts)
    ensures Unmarked(Concat(parts))
  {
    if parts != [] {
      ConcatIsUnmarked(parts[..|parts| - 1]);
    }
  }

  lemma {:induction false} UnstressedIsUnmarked(segs: seq<Segment>, n: nat)
    requires UnmarkedSegments(segs) && AllSounded(segs) && n <= |segs|
    ensures Unmarked(SyllabifyUpTo(segs, n, |segs|))
  {
    if n > 0 {
      UnstressedIsUnmarked(segs, n - 1);
      assert UnmarkedSegment(segs[n - 1]) && !IsSchwa(segs[n - 1]);
      ConcatIsUnmarked(segs[n - 1].onset);
      ConcatIsUnmarked(segs[n - 1].coda);
    }
  }

  // Exactly one stress mark and no schwa in the text of read segments; none at all without segments.
  lemma OneStress(segs: seq<Segment>)
    requires UnmarkedSegments(segs) && AllSounded(segs)
    ensures Count(SyllabifyToIpa(segs), STRESS) == if segs == [] then 0 else 1
    ensures Count(SyllabifyToIpa(segs), SCHWA) == 0
  {
    hide SyllabifyUpTo, Count;
    UnstressedIsUnmarked(segs, |segs|);
    UnmarkedCounts(Unstressed(segs));
    if segs != [] {
      var k, before, after := OneStressBeforeAVowel(segs);
      CountConcat(before, [STRESS] + after, STRESS);
      CountConcat([STRESS], after, STRESS);
      CountConcat(before, after, STRESS);
      CountConcat(before, [STRESS] + after, SCHWA);
      CountConcat([STRESS], after, SCHWA);
      CountConcat(before, after, SCHWA);
      assert before + [STRESS] + after == before + ([STRESS] + after);
      StressAlone();
    } else {
      EmptyText(segs);
    }
  }

  lemma EmptyText(segs: seq<Segment>)
    requires segs == []
    ensures SyllabifyToIpa(segs) == Unstressed(segs)
  {
  }

  lemma StressAlone()
    ensures Count([STRESS], STRESS) == 1 && Count([STRESS], SCHWA) == 0
  {
  }

  lemma UnmarkedCounts(s: string)
    requires Unmarked(s)
    ensures Count(s, STRESS) == 0 && Count(s, SCHWA) == 0
  {
  }

  // The text of a word, from its letters.
  function WordIpa(glyphs: seq<Glyph>): string {
    var segs := Merge(Read(SegmentsOf(Collapse(glyphs, 0))));
    Without(Kept(SyllabifyToIpa(segs), 0), TIE, 0)
  }

  method HebrewWordToIpa(glyphs: seq<Glyph>) returns (ipa: string)
    ensures ipa == WordIpa(glyphs)
  {
    hide Collapse, SegmentsOf, Read, Merge, Kept, Without, SyllabifyToIpa;
    var letters := ApplyGereshDigraphs(glyphs);
    var written := WordToSegments(letters);
    var segs := new Segment[|written|](k requires 0 <= k < |written| => written[k]);
    assert segs[..] == written;
    var merged := ResolveShevaAndQamats(segs);
    ipa := StripUnrealizedGlottalStops(SyllabifyToIpa(merged));
    ipa := Without(ipa, TIE, 0);
  }

  // Whatever the word: no schwa and no tie bar is left, one stress mark stands in it when one of its
  // letters is voweled and none otherwise, and a vowel follows every glottal stop.
  lemma {:induction false} WordIpaIsWellFormed(glyphs: seq<Glyph>)
    requires forall k | 0 <= k < |glyphs| :: |glyphs[k].base| == 1
    ensures var ipa := WordIpa(glyphs);
      && SCHWA !in ipa && TIE !in ipa
      && Count(ipa, STRESS) == (if HasVoweledLetter(glyphs) then 1 else 0)
      && GlottalsRealized(ipa)
  {
    hide Collapse, SegmentsOf, Read, Merge, Kept, Without, SyllabifyToIpa, Lettered, UnmarkedSegments, HasVoweledLetter,
      WellFormed, AllSounded, GlottalsRealized, Count;
    var letters := Collapse(glyphs, 0);
    var written := SegmentsOf(letters);
    var segs := Merge(Read(written));
    CollapseIsLettered(glyphs, 0);
    SegmentsAreUnmarked(letters);
    SegmentsAreWellFormed(letters);
    SegmentsIffVoweled(letters);
    CollapseKeepsVowels(glyphs, 0);
    assert glyphs[0..] == glyphs;
    ReadIsUnmarked(written);
    MergeIsUnmarked(Read(written));
    ResolvedSpeech(written);
    OneStress(segs);
    TextSurvivesTheFilters(SyllabifyToIpa(segs));
  }

  lemma {:induction false} TextSurvivesTheFilters(text: string)
    requires Count(text, SCHWA) == 0
    ensures var ipa := Without(Kept(text, 0), TIE, 0);
      SCHWA !in ipa && TIE !in ipa && Count(ipa, STRESS) == Count(text, STRESS) && GlottalsRealized(ipa)
  {
    hide Kept, Without, GlottalsRealized;
    var kept := Kept(text, 0);
    KeptIsRealized(text, 0);
    UntyingKeepsGlottals(kept, 0);
    WithoutIsWithout(kept, TIE, 0);
    CountKept(text, STRESS, 0);
    CountKept(text, SCHWA, 0);
    CountWithout(kept, STRESS, TIE, 0);
    CountWithout(kept, SCHWA, TIE, 0);
    assert text[0..] == text && kept[0..] == kept;
  }

  // ---------- What the text says ----------

  // The sounds of a word, written one after another.
  function Say(phones: seq<Phone>): string {
    if phones == [] then "" else Say(phones[..|phones| - 1]) + phones[|phones| - 1].sound
  }

  lemma {:induction false} SayConcat(a: seq<Phone>, b: seq<Phone>)
    ensures Say(a + b) == Say(a) + Say(b)
  {
    if b == [] {
      assert a + b == a;
    } else {
      assert (a + b)[..|a + b| - 1] == a + b[..|b| - 1];
      SayConcat(a, b[..|b| - 1]);
    }
  }

  lemma {:induction false} SayConsonants(sounds: seq<string>)
    ensures Say(Consonants(sounds)) == Concat(sounds)
  {
    if sounds != [] {
      var last := |sounds| - 1;
      assert Consonants(sounds)[..last] == Consonants(sounds[..last]);
      SayConsonants(sounds[..last]);
    }
  }

  lemma SayNothing()
    ensures Say([]) == "" && Speech([]) == []
  {
  }

  lemma SayVowel(vowel: string)
    ensures Say([V(vowel)]) == vowel
  {
    assert Say([]) == "";
    assert "" + vowel == vowel;
  }

  lemma SaySegment(s: Segment)
    ensures Say(SegmentSpeech(s)) == Syllable(s, false)
  {
    hide Say, Concat, Consonants;
    SayConcat(Consonants(s.onset) + [V(s.nucleus)], Consonants(s.coda));
    SayConcat(Consonants(s.onset), [V(s.nucleus)]);
    SayConsonants(s.onset);
    SayConsonants(s.coda);
    SayVowel(s.nucleus);
    assert Concat(s.onset) + "" == Concat(s.onset);
  }

  // Without its stress mark the text of segments is what they say.
  lemma {:induction false} UnstressedSays(segs: seq<Segment>, n: nat)
    requires n <= |segs|
    ensures SyllabifyUpTo(segs, n, |segs|) == Say(Speech(segs[..n]))
  {
    hide Say, SegmentSpeech, Syllable;
    if n == 0 {
      SayNothing();
    } else {
      UnstressedSays(segs, n - 1);
      assert segs[..n] == segs[..n - 1] + [segs[n - 1]];
      SpeechAppend(segs[..n - 1], segs[n - 1]);
      SayConcat(Speech(segs[..n - 1]), SegmentSpeech(segs[n - 1]));
      SaySegment(segs[n - 1]);
    }
  }

  lemma {:induction false} KeptOfTail(front: string, tail: string, i: nat)
    ensures Kept(front + tail, |front| + i) == Kept(tail, i)
    decreases |tail| - i
  {
    if i < |tail| {
      KeptOfTail(front, tail, i + 1);
      assert (front + tail)[|front| + i] == tail[i];
      assert VowelFollows(front + tail, |front| + i) <==> VowelFollows(tail, i);
    }
  }

  lemma {:induction false} NothingWithout(chars: string, c: char, i: nat)
    requires c !in chars && i <= |chars|
    ensures Without(chars, c, i) == chars[i..]
    decreases |chars| - i
  {
    if i < |chars| {
      NothingWithout(chars, c, i + 1);
    }
  }

  lemma {:induction false} WithoutHead(head: char, tail: string, c: char)
    ensures Without([head] + tail, c, 0) == (if head != c then [head] else "") + Without(tail, c, 0)
  {
    WithoutOfTail(head, tail, c, 0);
  }

  lemma {:induction false} KeptHasOnly(chars: string, c: char, i: nat)
    requires c !in chars
    ensures c !in Kept(chars, i)
    decreases |chars| - i
  {
    if i < |chars| {
      KeptHasOnly(chars, c, i + 1);
    }
  }

  // The filter of the glottal stops looks through the stress mark.
  lemma {:induction false} StressIsTransparent(before: string, after: string, i: nat)
    requires STRESS !in before && STRESS !in after && i <= |before|
    ensures Without(Kept(before + [STRESS] + after, i), STRESS, 0) == Kept(before + after, i)
    decreases |before| - i
  {
    hide Without, Kept;
    var text, plain := before + [STRESS] + after, before + after;
    KeptStep(text, i);
    if i == |before| {
      KeptOfTail(before + [STRESS], after, 0);
      KeptOfTail(before, after, 0);
      WithoutHead(STRESS, Kept(after, 0), STRESS);
      KeptHasOnly(after, STRESS, 0);
      NothingWithout(Kept(after, 0), STRESS, 0);
    } else {
      StressIsTransparent(before, after, i + 1);
      KeptStep(plain, i);
      assert text[i] == plain[i] == before[i];
      SameVowelFollows(before, after, i);
      WithoutHead(text[i], Kept(text, i + 1), STRESS);
    }
  }

  lemma SameVowelFollows(before: string, after: string, i: nat)
    requires STRESS !in before && STRESS !in after && i < |before|
    ensures VowelFollows(before + [STRESS] + after, i) <==> VowelFollows(before + after, i)
  {
    var text, plain := before + [STRESS] + after, before + after;
    if i + 1 < |before| {
      assert text[i + 1] == plain[i + 1] == before[i + 1];
    } else {
      assert text[i + 1] == STRESS;
      if after != [] {
        assert text[i + 2] == plain[i + 1] == after[0];
      }
    }
  }

  lemma {:induction false} WithoutBoth(chars: string, c: char, d: char, i: nat)
    ensures Without(Without(chars, c, i), d, 0) == Without(Without(chars, d, i), c, 0)
    decreases |chars| - i
  {
    if i < |chars| {
      WithoutBoth(chars, c, d, i + 1);
      WithoutHead(chars[i], Without(chars, c, i + 1), d);
      WithoutHead(chars[i], Without(chars, d, i + 1), c);
      assert "" + Without(chars, c, i + 1) == Without(chars, c, i + 1);
      assert "" + Without(chars, d, i + 1) == Without(chars, d, i + 1);
      assert "" + Without(Without(chars, c, i + 1), d, 0) == Without(Without(chars, c, i + 1), d, 0);
    }
  }

  lemma {:induction false} IpaOfSegments(glyphs: seq<Glyph>)
    ensures WordIpa(glyphs) == Without(Kept(SyllabifyToIpa(Merge(Read(SegmentsOf(Collapse(glyphs, 0))))), 0), TIE, 0)
  {
  }

  lemma {:induction false} NoStressIn(segs: seq<Segment>)
    requires Unmarked(SyllabifyUpTo(segs, |segs|, |segs|))
    ensures Unstressed(segs) == SyllabifyUpTo(segs, |segs|, |segs|) && STRESS !in Unstressed(segs)
  {
  }

  lemma TheMarks()
    ensures STRESS == '\U{2C8}' && TIE == '\U{361}'
  {
  }

  // From letters to text: but for its stress mark the text of a word is what the word says, with the
  // silent schwas left out and the others read, unrealized glottal stops and tie bars removed.
  lemma {:induction false} WordIpaSaysTheWord(glyphs: seq<Glyph>)
    requires forall k | 0 <= k < |glyphs| :: |glyphs[k].base| == 1
    ensures var segs := SegmentsOf(Collapse(glyphs, 0));
      Without(WordIpa(glyphs), '\U{2C8}', 0) == Without(Kept(Say(Spoken(segs, |segs|)), 0), '\U{361}', 0)
  {
    hide *;
    TheMarks();
    var letters := Collapse(glyphs, 0);
    var segs := Merge(Read(SegmentsOf(letters)));
    CollapseIsLettered(glyphs, 0);
    SegmentsAreUnmarked(letters);
    SegmentsAreWellFormed(letters);
    ReadIsUnmarked(SegmentsOf(letters));
    MergeIsUnmarked(Read(SegmentsOf(letters)));
    ResolvedSpeech(SegmentsOf(letters));
    TextSaysSegments(segs);
    IpaOfSegments(glyphs);
    WithoutBoth(Kept(SyllabifyToIpa(segs), 0), TIE, STRESS, 0);
  }

  lemma {:induction false} TextSaysSegments(segs: seq<Segment>)
    requires UnmarkedSegments(segs) && AllSounded(segs)
    ensures Without(Kept(SyllabifyToIpa(segs), 0), STRESS, 0) == Kept(Say(Speech(segs)), 0)
  {
    hide *;
    TheMarks();
    UnstressedIsUnmarked(segs, |segs|);
    UnstressedSays(segs, |segs|);
    assert segs[..|segs|] == segs;
    NoStressIn(segs);
    if segs == [] {
      EmptyText(segs);
      KeptHasOnly(Unstressed(segs), STRESS, 0);
      NothingWithout(Kept(Unstressed(segs), 0), STRESS, 0);
    } else {
      var k, before, after := OneStressBeforeAVowel(segs);
      StressIsTransparent(before, after, 0);
    }
  }

  // Bet with patah, shin with sheva, then a bare tav: the tav closes the silent last segment and
  // is not in the text.
  lemma FinalConsonantLost()
    ensures var glyphs := [Glyph([BET], [PATAH]), Glyph([SHIN], [SHEVA]), Glyph([TAV], [])];
      && SoundSpeech(Sounds(glyphs, 0)) == [C("v"), V("a"), C("\U{283}"), V([SCHWA]), C("t")]
      && Speech(Merge(Read(SegmentsOf(glyphs)))) == [C("v"), V("a"), C("\U{283}")]
  {
    var glyphs := [Glyph([BET], [PATAH]), Glyph([SHIN], [SHEVA]), Glyph([TAV], [])];
    hide *;
    LostSounds(glyphs);
    var x, y, z := Sound(["v"], Some("a"), false, 1),
                   Sound(["\U{283}"], Some([SCHWA]), false, 1), Sound(["t"], None, false, 1);
    var segs := [Segment(["v"], "a", [], false), Segment(["\U{283}"], [SCHWA], ["t"], false)];
    LostBuilt(x, y, z, segs);
    assert SegmentsOf(glyphs) == segs by { TheSegments(glyphs, segs); }
    LostReading(segs);
  }

  lemma {:induction false} TheSegments(glyphs: seq<Glyph>, segs: seq<Segment>)
    requires Close(Built(Sounds(glyphs, 0))) == segs
    ensures SegmentsOf(glyphs) == segs
  {
  }

  lemma LostReading(segs: seq<Segment>)
    requires segs == [Segment(["v"], "a", [], false), Segment(["\U{283}"], [SCHWA], ["t"], false)]
    ensures Speech(Merge(Read(segs))) == [C("v"), V("a"), C("\U{283}")]
  {
    hide Speech, Read, Merge;
    ResolvedSpeech(segs);
    assert !Silenced(segs, 0) && Silenced(segs, 1);
    assert Spoken(segs, 1) == [] + Consonants(["v"]) + ([V("a")] + Consonants([]));
    assert Spoken(segs, 2) == Spoken(segs, 1) + Consonants(["\U{283}"]);
  }

  lemma {:induction false} LostSounds(glyphs: seq<Glyph>)
    requires glyphs == [Glyph([BET], [PATAH]), Glyph([SHIN], [SHEVA]), Glyph([TAV], [])]
    ensures Sounds(glyphs, 0)
      == [Sound(["v"], Some("a"), false, 1), Sound(["\U{283}"], Some([SCHWA]), false, 1), Sound(["t"], None, false, 1)]
  {
    LostLetters(glyphs);
    hide SoundAt;
    assert Sounds(glyphs, 3) == [];
    assert Sounds(glyphs, 2) == [SoundAt(glyphs, 2)];
    assert Sounds(glyphs, 1) == [SoundAt(glyphs, 1), SoundAt(glyphs, 2)];
  }

  lemma LostLetters(glyphs: seq<Glyph>)
    requires glyphs == [Glyph([BET], [PATAH]), Glyph([SHIN], [SHEVA]), Glyph([TAV], [])]
    ensures SoundAt(glyphs, 0) == Sound(["v"], Some("a"), false, 1)
    ensures SoundAt(glyphs, 1) == Sound(["\U{283}"], Some([SCHWA]), false, 1)
    ensures SoundAt(glyphs, 2) == Sound(["t"], None, false, 1)
  {
    hide SoundAt;
    LostBet(glyphs);
    LostShin(glyphs);
    LostTav(glyphs);
  }

  lemma LostBet(glyphs: seq<Glyph>)
    requires |glyphs| == 3 && glyphs[0] == Glyph([BET], [PATAH]) && glyphs[1].base == [SHIN]
    ensures SoundAt(glyphs, 0) == Sound(["v"], Some("a"), false, 1)
  {
    assert DigraphIpa(glyphs[0].base).None?;
  }

  lemma LostShin(glyphs: seq<Glyph>)
    requires |glyphs| == 3 && glyphs[1] == Glyph([SHIN], [SHEVA]) && glyphs[2].base == [TAV]
    ensures SoundAt(glyphs, 1) == Sound(["\U{283}"], Some([SCHWA]), false, 1)
  {
    assert DigraphIpa(glyphs[1].base).None?;
  }

  lemma LostTav(glyphs: seq<Glyph>)
    requires |glyphs| == 3 && glyphs[2] == Glyph([TAV], [])
    ensures SoundAt(glyphs, 2) == Sound(["t"], None, false, 1)
  {
    assert DigraphIpa(glyphs[2].base).None?;
  }

  lemma LostBuilt(x: Sound, y: Sound, z: Sound, segs: seq<Segment>)
    requires x == Sound(["v"], Some("a"), false, 1) && y == Sound(["\U{283}"], Some([SCHWA]), false, 1)
      && z == Sound(["t"], None, false, 1)
    requires segs == [Segment(["v"], "a", [], false), Segment(["\U{283}"], [SCHWA], ["t"], false)]
    ensures Close(Built([x, y, z])) == segs
    ensures SoundSpeech([x, y, z]) == [C("v"), V("a"), C("\U{283}"), V([SCHWA]), C("t")]
  {
    hide SoundSpeech, Built;
    assert [] + [x] == [x] && [x] + [y] == [x, y] && [x, y] + [z] == [x, y, z];
    BuiltMore([], x);
    BuiltMore([x], y);
    BuiltMore([x, y], z);
    NothingSounds();
    SoundSpeechMore([], x);
    SoundSpeechMore([x], y);
    SoundSpeechMore([x, y], z);
    NoSoundsAtAll();
    assert [] + x.consonants == ["v"] && [] + y.consonants == ["\U{283}"] && [] + z.consonants == ["t"];
    var open := [segs[0], segs[1].(coda := [])];
    assert Built([x, y]) == Builder(open, []);
    assert Built([x, y, z]) == Builder(open, ["t"]);
    assert open[1].coda + ["t"] == ["t"] && open[..1] + [segs[1]] == segs;
  }

  lemma NoSoundsAtAll()
    ensures Built([]) == Builder([], []) && SoundSpeech([]) == []
  {
  }
}
