/**
 From letters to syllable segments, and the reading of the schwa: which ones are silent, where
 their consonants go, and what the merge afterwards loses.
 */
module HebrewSegments {
  import opened Wrappers
  import opened HebrewGlyphs

  datatype Segment = Segment(onset: seq<string>, nucleus: string, coda: seq<string>, dagesh: bool)

  // What a word sounds like, consonants and vowels in order.
  datatype Phone = C(sound: string) | V(sound: string)

  function Consonants(sounds: seq<string>): (r: seq<Phone>)
    ensures |r| == |sounds|
  {
    seq(|sounds|, k requires 0 <= k < |sounds| => C(sounds[k]))
  }

  function SegmentSpeech(s: Segment): seq<Phone> {
    Consonants(s.onset) + [V(s.nucleus)] + Consonants(s.coda)
  }

  function Speech(segs: seq<Segment>): seq<Phone> {
    if segs == [] then [] else Speech(segs[..|segs| - 1]) + SegmentSpeech(segs[|segs| - 1])
  }

  lemma {:induction false} SpeechAppend(segs: seq<Segment>, s: Segment)
    ensures Speech(segs + [s]) == Speech(segs) + SegmentSpeech(s)
  {
    assert (segs + [s])[..|segs|] == segs;
  }

  lemma ConsonantsAppend(a: seq<string>, b: seq<string>)
    ensures Consonants(a + b) == Consonants(a) + Consonants(b)
  {
  }

  // ---------- What each letter contributes ----------

  // A letter, or a letter and the yod that lengthens its vowel.
  datatype Sound = Sound(consonants: seq<string>, nucleus: Option<string>, dagesh: bool, width: nat)

  // A consonant that carries its own vowel: alef and ayin are then silent.
  function Onset(consonant: string): seq<string> {
    if consonant == "" || consonant == SILENT_GLOTTAL then [] else [consonant]
  }

  function SoundAt(glyphs: seq<Glyph>, i: nat): (r: Sound)
    requires i < |glyphs|
    ensures r.width > 0 && i + r.width <= |glyphs|
    ensures r.nucleus.Some? ==> r.nucleus.value != ""
  {
    var g := glyphs[i];
    var consonant := GlyphConsonant(g, i == |glyphs| - 1);
    if IsShuruk(g) then Sound([], Some("u"), false, 1)
    else if IsHiriqYod(glyphs, i) then Sound(Onset(GlyphConsonant(g, false)), Some("i"), false, 2)
    else if IsHolamMale(g) then Sound([], Some("o"), false, 1)
    else if MapBasicVowel(g).1 then Sound(Onset(consonant), Some(MapBasicVowel(g).0), false, 1)
    else if g.Has(SHEVA) then Sound(Onset(consonant), Some([SCHWA]), g.Has(DAGESH), 1)
    else if consonant == SILENT_GLOTTAL then Sound([[GLOTTAL]], None, false, 1)
    else Sound(Onset(consonant), None, false, 1)
  }

  function Sounds(glyphs: seq<Glyph>, i: nat): seq<Sound>
    decreases |glyphs| - i
  {
    if i >= |glyphs| then [] else [SoundAt(glyphs, i)] + Sounds(glyphs, i + SoundAt(glyphs, i).width)
  }

  function SoundSpeech(sounds: seq<Sound>): seq<Phone> {
    if sounds == [] then []
    else
      var last := sounds[|sounds| - 1];
      SoundSpeech(sounds[..|sounds| - 1]) + Consonants(last.consonants)
        + (if last.nucleus.Some? then [V(last.nucleus.value)] else [])
  }

  predicate HasNucleus(sounds: seq<Sound>) {
    exists k :: 0 <= k < |sounds| && sounds[k].nucleus.Some?
  }

  // ---------- Building the segments ----------

  datatype Builder = Builder(segs: seq<Segment>, onset: seq<string>)

  function Extend(b: Builder, x: Sound): Builder {
    match x.nucleus
    case Some(vowel) => Builder(b.segs + [Segment(b.onset + x.consonants, vowel, [], x.dagesh)], [])
    case None => b.(onset := b.onset + x.consonants)
  }

  function Built(sounds: seq<Sound>): Builder {
    if sounds == [] then Builder([], []) else Extend(Built(sounds[..|sounds| - 1]), sounds[|sounds| - 1])
  }

  // Consonants after the last vowel close the last segment; without a vowel they are dropped.
  function Close(b: Builder): seq<Segment> {
    if b.onset != [] && b.segs != [] then
      var last := |b.segs| - 1;
      b.segs[..last] + [b.segs[last].(coda := b.segs[last].coda + b.onset)]
    else b.segs
  }

  function SegmentsOf(glyphs: seq<Glyph>): seq<Segment> {
    Close(Built(Sounds(glyphs, 0)))
  }

  ghost predicate BuiltSoFar(glyphs: seq<Glyph>, i: nat, done: seq<Sound>, b: Builder) {
    done + Sounds(glyphs, i) == Sounds(glyphs, 0) && b == Built(done)
  }

  lemma BuildStep(glyphs: seq<Glyph>, i: nat, done: seq<Sound>, b: Builder)
    requires i < |glyphs| && BuiltSoFar(glyphs, i, done, b)
    ensures var x := SoundAt(glyphs, i); BuiltSoFar(glyphs, i + x.width, done + [x], Extend(b, x))
  {
    hide SoundAt, Sounds, Built, Extend;
    var x := SoundAt(glyphs, i);
    SoundsStep(glyphs, i);
    BuiltMore(done, x);
    assert done + [x] + Sounds(glyphs, i + x.width) == done + ([x] + Sounds(glyphs, i + x.width));
  }

  lemma SoundsStep(glyphs: seq<Glyph>, i: nat)
    requires i < |glyphs|
    ensures Sounds(glyphs, i) == [SoundAt(glyphs, i)] + Sounds(glyphs, i + SoundAt(glyphs, i).width)
  {
    hide SoundAt;
  }

  lemma {:induction false} BuiltMore(done: seq<Sound>, x: Sound)
    ensures Built(done + [x]) == Extend(Built(done), x)
  {
    hide Extend;
    assert (done + [x])[..|done|] == done;
  }

  lemma BuildEnds(glyphs: seq<Glyph>, done: seq<Sound>, b: Builder)
    requires BuiltSoFar(glyphs, |glyphs|, done, b)
    ensures Close(b) == SegmentsOf(glyphs)
  {
    assert done + [] == done;
  }

  // The repeated push of a consonant that carries its own vowel.
  method PushOnset(onset: seq<string>, consonant: string) returns (more: seq<string>)
    ensures more == onset + Onset(consonant)
  {
    more := onset;
    if consonant != "" && consonant != SILENT_GLOTTAL {
      more := more + [consonant];
    }
  }

  method WordToSegments(glyphs: seq<Glyph>) returns (segs: seq<Segment>)
    ensures segs == SegmentsOf(glyphs)
  {
    hide BuiltSoFar, GlyphConsonant, IsShuruk, IsHiriqYod, IsHolamMale, MapBasicVowel;
    segs := [];
    var onset: seq<string> := [];
    var i := 0;
    ghost var done: seq<Sound> := [];
    assert BuiltSoFar(glyphs, 0, [], Builder([], [])) by { NothingBuilt(glyphs); }
    while i < |glyphs|
      invariant 0 <= i <= |glyphs| && BuiltSoFar(glyphs, i, done, Builder(segs, onset))
      decreases |glyphs| - i
    {
      var g := glyphs[i];
      var isFinal := i == |glyphs| - 1;
      BuildStep(glyphs, i, done, Builder(segs, onset));
      done := done + [SoundAt(glyphs, i)];
      if IsShuruk(g) {
        segs, onset := segs + [Segment(onset + [], "u", [], false)], [];
        i := i + 1;
        continue;
      }
      if IsHiriqYod(glyphs, i) {
        var consonant := GlyphConsonant(g, false);
        onset := PushOnset(onset, consonant);
        segs, onset := segs + [Segment(onset, "i", [], false)], [];
        i := i + 2;
        continue;
      }
      if IsHolamMale(g) {
        segs, onset := segs + [Segment(onset + [], "o", [], false)], [];
        i := i + 1;
        continue;
      }
      var consonant := GlyphConsonant(g, isFinal);
      var (vowel, isVocalic) := MapBasicVowel(g);
      if isVocalic {
        onset := PushOnset(onset, consonant);
        segs, onset := segs + [Segment(onset, vowel, [], false)], [];
      } else if g.Has(SHEVA) {
        onset := PushOnset(onset, consonant);
        segs, onset := segs + [Segment(onset, [SCHWA], [], g.Has(DAGESH))], [];
      } else if consonant == SILENT_GLOTTAL {
        onset := onset + [[GLOTTAL]];
      } else if consonant != "" {
        onset := onset + [consonant];
      } else {
        assert onset == onset + [];
      }
      i := i + 1;
    }
    BuildEnds(glyphs, done, Builder(segs, onset));
    if onset != [] {
      if segs != [] {
        var last := |segs| - 1;
        segs := segs[..last] + [segs[last].(coda := segs[last].coda + onset)];
      }
    }
  }

  lemma NothingBuilt(glyphs: seq<Glyph>)
    ensures BuiltSoFar(glyphs, 0, [], Builder([], []))
  {
  }

  ghost predicate BuiltSounds(sounds: seq<Sound>, b: Builder) {
    && Speech(b.segs) + Consonants(b.onset) == SoundSpeech(sounds)
    && (b.segs != [] <==> HasNucleus(sounds))
    && forall k | 0 <= k < |b.segs| :: b.segs[k].coda == []
  }

  lemma {:induction false} BuiltKeepsSpeech(sounds: seq<Sound>)
    ensures BuiltSounds(sounds, Built(sounds))
  {
    hide BuiltSounds, Built, Extend;
    if sounds == [] {
      NothingSounds();
    } else {
      var init, last := sounds[..|sounds| - 1], sounds[|sounds| - 1];
      BuiltKeepsSpeech(init);
      assert init + [last] == sounds;
      BuiltMore(init, last);
      ExtendKeepsSpeech(init, Built(init), last);
    }
  }

  lemma NothingSounds()
    ensures BuiltSounds([], Built([]))
  {
  }

  lemma {:induction false} SoundSpeechMore(init: seq<Sound>, last: Sound)
    ensures SoundSpeech(init + [last]) == SoundSpeech(init) + Consonants(last.consonants)
        + (if last.nucleus.Some? then [V(last.nucleus.value)] else [])
  {
    assert (init + [last])[..|init|] == init;
  }

  lemma ExtendKeepsSpeech(sounds: seq<Sound>, b: Builder, x: Sound)
    requires BuiltSounds(sounds, b)
    ensures BuiltSounds(sounds + [x], Extend(b, x))
  {
    hide Speech, SoundSpeech, HasNucleus, Consonants;
    NucleusMore(sounds, x);
    SoundSpeechMore(sounds, x);
    ConsonantsAppend(b.onset, x.consonants);
    if x.nucleus.Some? {
      SpeechAppend(b.segs, Segment(b.onset + x.consonants, x.nucleus.value, [], x.dagesh));
      NoConsonantsLeft();
    }
  }

  lemma NoConsonantsLeft()
    ensures Consonants([]) == []
  {
  }

  lemma NucleusMore(init: seq<Sound>, last: Sound)
    ensures HasNucleus(init + [last]) <==> HasNucleus(init) || last.nucleus.Some?
  {
    if HasNucleus(init) {
      var k :| 0 <= k < |init| && init[k].nucleus.Some?;
      assert (init + [last])[k].nucleus.Some?;
    }
    if last.nucleus.Some? {
      assert (init + [last])[|init|].nucleus.Some?;
    }
  }

  // A word with a vowel point keeps every consonant and every vowel in order. A word without one
  // loses all of them.
  lemma {:induction false} SegmentsKeepSpeech(glyphs: seq<Glyph>)
    ensures Speech(SegmentsOf(glyphs)) == if HasNucleus(Sounds(glyphs, 0)) then SoundSpeech(Sounds(glyphs, 0)) else []
    ensures SegmentsOf(glyphs) != [] <==> HasNucleus(Sounds(glyphs, 0))
  {
    hide Sounds, Built, HasNucleus, Close;
    var b := Built(Sounds(glyphs, 0));
    BuiltKeepsSpeech(Sounds(glyphs, 0));
    if b.segs != [] {
      CloseKeepsSpeech(b);
    } else {
      NothingToClose(b);
    }
  }

  lemma NothingToClose(b: Builder)
    requires b.segs == []
    ensures Close(b) == [] && Speech(Close(b)) == []
  {
  }

  lemma CloseKeepsSpeech(b: Builder)
    requires b.segs != []
    ensures Close(b) != [] && Speech(Close(b)) == Speech(b.segs) + Consonants(b.onset)
  {
    var last := b.segs[|b.segs| - 1];
    ConsonantsAppend(last.coda, b.onset);
    if b.onset != [] {
      SpeechAppend(b.segs[..|b.segs| - 1], last.(coda := last.coda + b.onset));
    }
  }

  // ---------- Reading the schwa ----------

  predicate IsSchwa(s: Segment) {
    s.nucleus == [SCHWA]
  }

  // A schwa is silent unless it comes first, doubles its consonant, or follows a silent schwa.
  predicate Silenced(segs: seq<Segment>, i: nat)
    requires i < |segs|
  {
    i > 0 && IsSchwa(segs[i]) && !segs[i].dagesh && !Silenced(segs, i - 1)
  }

  function NextOnset(segs: seq<Segment>, i: nat): seq<string> {
    if i < |segs| && Silenced(segs, i) then segs[i].onset else []
  }

  function Realized(segs: seq<Segment>, i: nat): string
    requires i < |segs|
  {
    if Silenced(segs, i) then "" else if IsSchwa(segs[i]) then "e" else segs[i].nucleus
  }

  // Segment k after the first i segments have been read.
  function ReadTo(segs: seq<Segment>, i: nat, k: nat): Segment
    requires i <= |segs| && k < |segs|
  {
    if k >= i then segs[k]
    else Segment(if Silenced(segs, k) then [] else segs[k].onset,
                 Realized(segs, k),
                 segs[k].coda + (if k + 1 < i then NextOnset(segs, k + 1) else []),
                 segs[k].dagesh)
  }

  // The segments with every schwa read, before the silent ones are merged away.
  function Read(segs: seq<Segment>): (r: seq<Segment>)
    ensures |r| == |segs|
  {
    seq(|segs|, k requires 0 <= k < |segs| => ReadTo(segs, |segs|, k))
  }

  function MergeInto(merged: seq<Segment>, s: Segment): seq<Segment> {
    if s.nucleus == "" && merged != [] then
      var last := |merged| - 1;
      merged[..last] + [merged[last].(coda := merged[last].coda + s.onset)]
    else merged + [s]
  }

  function Merge(segs: seq<Segment>): seq<Segment> {
    if segs == [] then [] else MergeInto(Merge(segs[..|segs| - 1]), segs[|segs| - 1])
  }

  lemma ReadOneMore(segs: seq<Segment>, i: nat, k: nat)
    requires i < |segs| && k < |segs|
    ensures ReadTo(segs, i + 1, k) ==
      if k == i then segs[i].(onset := if Silenced(segs, i) then [] else segs[i].onset, nucleus := Realized(segs, i))
      else if k + 1 == i then ReadTo(segs, i, k).(coda := segs[k].coda + NextOnset(segs, i))
      else ReadTo(segs, i, k)
  {
    assert segs[k].coda + [] == segs[k].coda;
  }

  // The reading in place: silent schwas hand their consonants back to the segment before them.
  method ResolveInPlace(segs: array<Segment>)
    modifies segs
    ensures segs[..] == Read(old(segs[..]))
  {
    hide Silenced, Realized, ReadTo, NextOnset;
    ghost var was := segs[..];
    var previousSilenced := false;
    assert forall k | 0 <= k < |was| :: ReadTo(was, 0, k) == was[k] by { NothingRead(was); }
    for i := 0 to segs.Length
      invariant forall k | 0 <= k < segs.Length :: segs[k] == ReadTo(was, i, k)
      invariant previousSilenced == (i > 0 && Silenced(was, i - 1))
    {
      UnreadYet(was, i);
      SilencedStep(was, i);
      forall k | 0 <= k < |was| ensures ReadTo(was, i + 1, k) ==
        if k == i then was[i].(onset := if Silenced(was, i) then [] else was[i].onset, nucleus := Realized(was, i))
        else if k + 1 == i then ReadTo(was, i, k).(coda := was[k].coda + NextOnset(was, i))
        else ReadTo(was, i, k) {
        ReadOneMore(was, i, k);
      }
      if i > 0 {
        CodaNotYetExtended(was, i);
      }
      var current := segs[i];
      if current.nucleus != [SCHWA] {
        previousSilenced := false;
        continue;
      }
      var hasPrevious := i > 0;
      var sounded := !hasPrevious || (current.dagesh && hasPrevious) || previousSilenced;
      if sounded {
        segs[i] := segs[i].(nucleus := "e");
        previousSilenced := false;
      } else {
        segs[i - 1] := segs[i - 1].(coda := segs[i - 1].coda + current.onset);
        segs[i] := segs[i].(onset := [], nucleus := "");
        previousSilenced := true;
      }
    }
  }

  lemma NothingRead(segs: seq<Segment>)
    ensures forall k | 0 <= k < |segs| :: ReadTo(segs, 0, k) == segs[k]
  {
  }

  lemma UnreadYet(segs: seq<Segment>, i: nat)
    requires i < |segs|
    ensures ReadTo(segs, i, i) == segs[i]
  {
  }

  lemma CodaNotYetExtended(segs: seq<Segment>, i: nat)
    requires 0 < i < |segs|
    ensures ReadTo(segs, i, i - 1).coda == segs[i - 1].coda
  {
  }

  lemma SilencedStep(segs: seq<Segment>, i: nat)
    requires i < |segs|
    ensures Silenced(segs, i) <==> i > 0 && IsSchwa(segs[i]) && !segs[i].dagesh && !Silenced(segs, i - 1)
    ensures Realized(segs, i) == if Silenced(segs, i) then "" else if IsSchwa(segs[i]) then "e" else segs[i].nucleus
    ensures NextOnset(segs, i) == if Silenced(segs, i) then segs[i].onset else []
  {
  }

  method ResolveShevaAndQamats(segs: array<Segment>) returns (merged: seq<Segment>)
    modifies segs
    ensures merged == Merge(Read(old(segs[..])))
  {
    hide Read, Merge;
    ResolveInPlace(segs);
    ghost var read := segs[..];
    merged := [];
    MergeNothing(read);
    for n := 0 to segs.Length
      invariant segs[..] == read && merged == Merge(read[..n])
    {
      var s := segs[n];
      MergeOneMore(read, n);
      if s.nucleus == "" {
        if merged != [] {
          var last := |merged| - 1;
          merged := merged[..last] + [merged[last].(coda := merged[last].coda + s.onset)];
        } else {
          merged := merged + [s];
        }
        continue;
      }
      merged := merged + [s];
    }
    assert read[..segs.Length] == read;
  }

  lemma MergeNothing(segs: seq<Segment>)
    ensures Merge(segs[..0]) == []
  {
  }

  lemma MergeOneMore(segs: seq<Segment>, k: nat)
    requires k < |segs|
    ensures Merge(segs[..k + 1]) == MergeInto(Merge(segs[..k]), segs[k])
  {
    assert segs[..k + 1][..k] == segs[..k];
  }

  // ---------- What the reading keeps ----------

  // The shape WordToSegments produces.
  ghost predicate WellFormed(segs: seq<Segment>) {
    forall k | 0 <= k < |segs| :: segs[k].nucleus != "" && (k < |segs| - 1 ==> segs[k].coda == [])
  }

  // The first k segments as they are spoken: a silent schwa leaves its onset, and takes its own
  // coda away.
  function Spoken(segs: seq<Segment>, k: nat): seq<Phone>
    requires k <= |segs|
  {
    if k == 0 then []
    else
      Spoken(segs, k - 1) + Consonants(segs[k - 1].onset)
      + (if Silenced(segs, k - 1) then []
         else [V(if IsSchwa(segs[k - 1]) then "e" else segs[k - 1].nucleus)] + Consonants(segs[k - 1].coda))
  }

  // The reading of the first k segments, merged.
  function Merged(segs: seq<Segment>, k: nat): seq<Segment>
    requires k <= |segs|
  {
    Merge(Read(segs)[..k])
  }

  ghost predicate AllSounded(segs: seq<Segment>) {
    forall j | 0 <= j < |segs| :: segs[j].nucleus != "" && !IsSchwa(segs[j])
  }

  ghost predicate ReadsAsSpoken(segs: seq<Segment>, k: nat, merged: seq<Segment>)
    requires k <= |segs|
  {
    && Speech(merged) == Spoken(segs, k) + Consonants(NextOnset(segs, k))
    && (k > 0 ==> merged != [])
    && AllSounded(merged)
  }

  lemma {:induction false} ReadingIsSpoken(segs: seq<Segment>, k: nat)
    requires WellFormed(segs) && k <= |segs|
    ensures ReadsAsSpoken(segs, k, Merged(segs, k))
  {
    hide ReadsAsSpoken, Read, WellFormed, MergeInto, Merge, Silenced, ReadTo;
    if k == 0 {
      NothingSpoken(segs);
    } else {
      var before := Merged(segs, k - 1);
      ReadingIsSpoken(segs, k - 1);
      MergeOneMore(Read(segs), k - 1);
      ReadAt(segs, k - 1);
      if Silenced(segs, k - 1) {
        SilentStep(segs, k - 1, before);
      } else {
        SoundedStep(segs, k - 1, before);
      }
    }
  }

  lemma ReadAt(segs: seq<Segment>, k: nat)
    requires k < |segs|
    ensures Read(segs)[k] == ReadTo(segs, |segs|, k)
  {
  }

  lemma NothingSpoken(segs: seq<Segment>)
    ensures ReadsAsSpoken(segs, 0, Merged(segs, 0))
  {
    assert Speech([]) == [] && NextOnset(segs, 0) == [];
  }

  lemma SpokenStep(segs: seq<Segment>, k: nat)
    requires k < |segs|
    ensures Spoken(segs, k + 1) == Spoken(segs, k) + Consonants(segs[k].onset)
      + (if Silenced(segs, k) then [] else [V(Realized(segs, k))] + Consonants(segs[k].coda))
  {
  }

  lemma {:induction false} SilentStep(segs: seq<Segment>, k: nat, before: seq<Segment>)
    requires k < |segs| && Silenced(segs, k) && ReadsAsSpoken(segs, k, before)
    ensures ReadsAsSpoken(segs, k + 1, MergeInto(before, ReadTo(segs, |segs|, k)))
  {
    hide Speech, Spoken, AllSounded;
    var last := |before| - 1;
    SpokenStep(segs, k);
    assert before[last].coda + [] == before[last].coda;
    assert before[..last] + [before[last]] == before;
    assert NextOnset(segs, k + 1) == [];
  }

  // A sounded segment: its vowel is read, and a silent schwa after it adds to its coda.
  lemma SoundedSegment(segs: seq<Segment>, k: nat)
    requires k < |segs| && !Silenced(segs, k) && WellFormed(segs)
    ensures var s := ReadTo(segs, |segs|, k);
      && s == Segment(segs[k].onset, Realized(segs, k), segs[k].coda + NextOnset(segs, k + 1), segs[k].dagesh)
      && s.nucleus != "" && !IsSchwa(s)
    ensures NextOnset(segs, k) == []
  {
  }

  lemma {:induction false} SoundedStep(segs: seq<Segment>, k: nat, before: seq<Segment>)
    requires k < |segs| && !Silenced(segs, k) && WellFormed(segs) && ReadsAsSpoken(segs, k, before)
    ensures ReadsAsSpoken(segs, k + 1, MergeInto(before, ReadTo(segs, |segs|, k)))
  {
    hide Speech, Spoken, ReadTo, Silenced, WellFormed, Realized, NextOnset;
    var s := ReadTo(segs, |segs|, k);
    SoundedSegment(segs, k);
    SpokenStep(segs, k);
    SpeechAppend(before, s);
    ConsonantsAppend(segs[k].coda, NextOnset(segs, k + 1));
  }

  // The whole reading: what is spoken is the written word with every silent schwa left out, every
  // sounded schwa an e, and the coda of a silent last segment missing. No schwa and no empty
  // vowel is left, and no two neighbours are both silent.
  lemma {:induction false} ResolvedSpeech(segs: seq<Segment>)
    requires WellFormed(segs)
    ensures Speech(Merge(Read(segs))) == Spoken(segs, |segs|)
    ensures AllSounded(Merge(Read(segs)))
    ensures forall i | 0 < i < |segs| :: !(Silenced(segs, i - 1) && Silenced(segs, i))
    ensures segs != [] <==> Merge(Read(segs)) != []
  {
    ReadingIsSpoken(segs, |segs|);
    assert Read(segs)[..|segs|] == Read(segs);
  }

  // ---------- Consonants ----------

  function ConsonantsOf(phones: seq<Phone>): seq<Phone> {
    if phones == [] then []
    else
      var last := phones[|phones| - 1];
      ConsonantsOf(phones[..|phones| - 1]) + (if last.C? then [last] else [])
  }

  lemma {:induction false} ConsonantsOfConcat(a: seq<Phone>, b: seq<Phone>)
    ensures ConsonantsOf(a + b) == ConsonantsOf(a) + ConsonantsOf(b)
  {
    if b == [] {
      assert a + b == a;
    } else {
      var last := |b| - 1;
      assert (a + b)[..|a + b| - 1] == a + b[..last];
      ConsonantsOfConcat(a, b[..last]);
    }
  }

  lemma {:induction false} ConsonantsOfConsonants(sounds: seq<string>)
    ensures ConsonantsOf(Consonants(sounds)) == Consonants(sounds)
  {
    if sounds != [] {
      var last := |sounds| - 1;
      assert Consonants(sounds)[..last] == Consonants(sounds[..last]);
      ConsonantsOfConsonants(sounds[..last]);
    }
  }

  lemma ConsonantsOfSegment(s: Segment)
    ensures ConsonantsOf(SegmentSpeech(s)) == Consonants(s.onset) + Consonants(s.coda)
  {
    ConsonantsOfConcat(Consonants(s.onset) + [V(s.nucleus)], Consonants(s.coda));
    ConsonantsOfConcat(Consonants(s.onset), [V(s.nucleus)]);
    ConsonantsOfConsonants(s.onset);
    ConsonantsOfConsonants(s.coda);
    assert ConsonantsOf([V(s.nucleus)]) == [];
  }

  // The consonants the merge drops: the coda of a silent last segment.
  function Dropped(segs: seq<Segment>, k: nat): seq<string>
    requires k <= |segs|
  {
    if k > 0 && Silenced(segs, k - 1) then segs[k - 1].coda else []
  }

  lemma {:induction false} SpokenConsonants(segs: seq<Segment>, k: nat)
    requires WellFormed(segs) && k <= |segs|
    ensures ConsonantsOf(Spoken(segs, k)) + Consonants(Dropped(segs, k)) == ConsonantsOf(Speech(segs[..k]))
  {
    hide Speech, ConsonantsOf, Consonants, SegmentSpeech;
    if k == 0 {
      NoConsonants();
    } else {
      var s, before := segs[k - 1], Spoken(segs, k - 1);
      var vowel := if IsSchwa(s) then "e" else s.nucleus;
      SpokenConsonants(segs, k - 1);
      assert segs[..k] == segs[..k - 1] + [s];
      SpeechAppend(segs[..k - 1], s);
      ConsonantsOfConcat(Speech(segs[..k - 1]), SegmentSpeech(s));
      ConsonantsOfSegment(s);
      ConsonantsOfConcat(before, Consonants(s.onset));
      ConsonantsOfConsonants(s.onset);
      ConsonantsOfConsonants(s.coda);
      NoConsonants();
      if Silenced(segs, k - 1) {
        ConsonantsOfConcat(before + Consonants(s.onset), []);
      } else {
        ConsonantsOfConcat([V(vowel)], Consonants(s.coda));
        ConsonantsOfConcat(before + Consonants(s.onset), [V(vowel)] + Consonants(s.coda));
        VowelsAreNotConsonants(vowel);
      }
      assert k - 1 > 0 ==> segs[k - 2].coda == [];
    }
  }

  lemma NoConsonants()
    ensures Speech([]) == [] && ConsonantsOf([]) == [] && Consonants([]) == []
  {
  }

  lemma VowelsAreNotConsonants(vowel: string)
    ensures ConsonantsOf([V(vowel)]) == []
  {
  }

  // Reading the schwas keeps every consonant in order, except the coda of a last segment whose
  // schwa is silent: the consonants agree exactly when there is no such coda.
  lemma {:induction false} ConsonantsKeptIffNoSilentClose(segs: seq<Segment>)
    requires WellFormed(segs)
    ensures ConsonantsOf(Speech(Merge(Read(segs)))) + Consonants(Dropped(segs, |segs|)) == ConsonantsOf(Speech(segs))
    ensures ConsonantsOf(Speech(Merge(Read(segs)))) == ConsonantsOf(Speech(segs))
            <==> !(segs != [] && Silenced(segs, |segs| - 1) && segs[|segs| - 1].coda != [])
  {
    ResolvedSpeech(segs);
    SpokenConsonants(segs, |segs|);
    assert segs[..|segs|] == segs;
    assert |Consonants(Dropped(segs, |segs|))| == |Dropped(segs, |segs|)|;
  }

  lemma SegmentsAreWellFormed(glyphs: seq<Glyph>)
    ensures WellFormed(SegmentsOf(glyphs))
  {
    hide Sounds, Built;
    NucleiAreNotEmpty(glyphs, 0);
    BuiltNuclei(Sounds(glyphs, 0));
    BuiltKeepsSpeech(Sounds(glyphs, 0));
  }

  lemma {:induction false} NucleiAreNotEmpty(glyphs: seq<Glyph>, i: nat)
    ensures forall k | 0 <= k < |Sounds(glyphs, i)| :: Sounds(glyphs, i)[k].nucleus != Some("")
    decreases |glyphs| - i
  {
    hide SoundAt;
    if i < |glyphs| {
      NucleiAreNotEmpty(glyphs, i + SoundAt(glyphs, i).width);
    }
  }

  lemma {:induction false} BuiltNuclei(sounds: seq<Sound>)
    requires forall k | 0 <= k < |sounds| :: sounds[k].nucleus != Some("")
    ensures forall k | 0 <= k < |Built(sounds).segs| :: Built(sounds).segs[k].nucleus != ""
  {
    if sounds != [] {
      BuiltNuclei(sounds[..|sounds| - 1]);
    }
  }
}
