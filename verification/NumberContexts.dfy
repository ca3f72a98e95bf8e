/**
 Numbers inside a text. A character that belongs to no number splits the normaliser's work, and so
 does a space that no degree sign follows, so what is proved of a number on its own holds wherever
 such a character stands before and after it. Years are read digit by digit wherever they stand.
 */
module NumberContexts {
  import opened Wrappers
  import opened Numerals
  import opened NumberPasses

  // A character at which every number ends.
  predicate EndsNumber(c: char) {
    Neutral(c) || c == ' ' || c == '年'
  }

  // Text a stands in chars from k on, up to the end or such a character.
  ghost predicate Fits(chars: string, k: nat, a: string) {
    && k + |a| <= |chars| && chars[k..k + |a|] == a
    && (k + |a| < |chars| ==> EndsNumber(chars[k + |a|]))
  }

  // No degree sign follows, not even after spaces.
  predicate NoUnitAt(chars: string, i: nat) {
    var k := SkipSpaces(chars, i);
    !IsAt(chars, k, '°') && !IsAt(chars, k, '\U{2103}')
  }

  lemma CharsFit(chars: string, k: nat, a: string, i: nat)
    requires Fits(chars, k, a) && i <= |a|
    ensures i < |a| ==> k + i < |chars| && chars[k + i] == a[i]
    ensures IsDigitAt(chars, k + i) <==> IsDigitAt(a, i)
    ensures forall c | !EndsNumber(c) :: IsAt(chars, k + i, c) <==> IsAt(a, i, c)
  {
    if i < |a| {
      assert chars[k..k + |a|][i] == chars[k + i];
    }
  }

  lemma {:induction false} DigitsFit(chars: string, k: nat, a: string, i: nat)
    requires Fits(chars, k, a) && i <= |a|
    ensures DigitEnd(chars, k + i) == k + DigitEnd(a, i) && DigitEnd(a, i) <= |a|
    decreases |a| - i
  {
    hide Fits;
    CharsFit(chars, k, a, i);
    if i < |a| {
      DigitsFit(chars, k, a, i + 1);
    }
  }

  lemma {:induction false} SpacesFit(chars: string, k: nat, a: string, i: nat)
    requires Fits(chars, k, a) && i <= |a|
    ensures SkipSpaces(a, i) <= |a|
    ensures SkipSpaces(chars, k + i)
      == if SkipSpaces(a, i) < |a| then k + SkipSpaces(a, i) else SkipSpaces(chars, k + |a|)
    decreases |a| - i
  {
    hide Fits;
    if i == |a| {
      assert k + i == k + |a|;
    } else {
      CharsFit(chars, k, a, i);
      SpacesFit(chars, k, a, i + 1);
    }
  }

  lemma SliceFits(chars: string, k: nat, a: string, i: nat, j: nat)
    requires Fits(chars, k, a) && i <= j <= |a|
    ensures chars[k + i..k + j] == a[i..j]
  {
    forall m | 0 <= m < j - i ensures chars[k + i..k + j][m] == a[i..j][m] {
      assert chars[k..k + |a|][i + m] == chars[k + i + m];
    }
  }

  lemma IntegerFits(chars: string, k: nat, a: string, i: nat)
    requires Fits(chars, k, a) && i < |a|
    ensures k + i < |chars| && chars[k + i] == a[i]
    ensures DigitStart(chars, k + i) == k + DigitStart(a, i)
    ensures IntegerEnd(chars, k + i) == k + IntegerEnd(a, i) && IntegerEnd(a, i) <= |a|
    ensures HasNumber(chars, k + i) <==> HasNumber(a, i)
  {
    hide DigitEnd;
    CharsFit(chars, k, a, i);
    DigitsFit(chars, k, a, DigitStart(a, i));
  }

  lemma NumberFits(chars: string, k: nat, a: string, i: nat)
    requires Fits(chars, k, a) && i < |a|
    ensures k + i < |chars| && ValueEnd(chars, k + i) == k + ValueEnd(a, i) && ValueEnd(a, i) <= |a|
    ensures NumberWords(chars, k + i) == NumberWords(a, i)
  {
    hide DigitEnd, Fits, Integer, ReadDigitByDigit, IntegerEnd, DigitStart;
    IntegerFits(chars, k, a, i);
    var e := IntegerEnd(a, i);
    CharsFit(chars, k, a, e);
    StartsBeforeEnd(a, i);
    SliceFits(chars, k, a, DigitStart(a, i), e);
    if IsAt(a, e, '.') {
      DigitsFit(chars, k, a, e + 1);
      SliceFits(chars, k, a, e + 1, DigitEnd(a, e + 1));
    }
  }

  lemma StartsBeforeEnd(a: string, i: nat)
    requires i < |a|
    ensures DigitStart(a, i) <= IntegerEnd(a, i)
  {
  }

  lemma CelsiusFits(chars: string, k: nat, a: string, i: nat)
    requires Fits(chars, k, a) && NoUnitAt(chars, k + |a|) && i <= |a|
    ensures k + i <= |chars|
    ensures CelsiusEnd(chars, k + i) == match CelsiusEnd(a, i) case None => None case Some(end) => Some(k + end)
  {
    hide SkipSpaces;
    SpacesFit(chars, k, a, i);
    var m := SkipSpaces(a, i);
    if m < |a| {
      CharsFit(chars, k, a, m);
      CharsFit(chars, k, a, m + 1);
    }
  }

  lemma Regroup(a: string, b: string, c: string)
    ensures a + (b + c) == a + b + c
  {
  }

  // One step of the first pass: what it writes and where it goes on.
  function TemperatureStep(chars: string, i: nat): (string, nat)
    requires i < |chars|
  {
    if !HasNumber(chars, i) then ([chars[i]], i + 1)
    else match CelsiusEnd(chars, ValueEnd(chars, i))
      case None => (chars[i..ValueEnd(chars, i)], ValueEnd(chars, i))
      case Some(end) => ((if IsMinus(chars[i]) then ['零', '下'] else []) + NumberWords(chars, i) + ['度'], end)
  }

  lemma {:induction false} StepForward(chars: string, i: nat)
    requires i < |chars|
    ensures i < TemperatureStep(chars, i).1 <= |chars|
    ensures Temperatures(chars, i) == TemperatureStep(chars, i).0 + Temperatures(chars, TemperatureStep(chars, i).1)
  {
    hide Temperatures, NumberWords, ValueEnd, HasNumber, CelsiusEnd;
    TemperaturesUnfolds(chars, i);
    if HasNumber(chars, i) {
      NumberIsLong(chars, i);
    }
  }

  lemma StepFits(chars: string, k: nat, a: string, i: nat)
    requires Fits(chars, k, a) && NoUnitAt(chars, k + |a|) && i < |a|
    ensures k + i < |chars|
    ensures TemperatureStep(chars, k + i) == (TemperatureStep(a, i).0, k + TemperatureStep(a, i).1)
  {
    hide NumberWords, ValueEnd, HasNumber, CelsiusEnd, Fits, NoUnitAt;
    IntegerFits(chars, k, a, i);
    NumberFits(chars, k, a, i);
    if HasNumber(a, i) {
      NumberIsLong(a, i);
      CelsiusFits(chars, k, a, ValueEnd(a, i));
      SliceFits(chars, k, a, i, ValueEnd(a, i));
    }
  }

  // The first pass does not look past the end of a number that no degree sign follows, nor behind.
  lemma {:induction false} TemperaturesFit(chars: string, k: nat, a: string, i: nat)
    requires Fits(chars, k, a) && NoUnitAt(chars, k + |a|) && i <= |a|
    ensures k + |a| <= |chars|
    ensures Temperatures(chars, k + i) == Temperatures(a, i) + Temperatures(chars, k + |a|)
    decreases |a| - i
  {
    hide Temperatures, TemperatureStep, NoUnitAt;
    if i == |a| {
      NothingTemperatures(a);
    } else {
      StepFits(chars, k, a, i);
      StepForward(chars, k + i);
      StepForward(a, i);
      var (piece, next) := TemperatureStep(a, i);
      TemperaturesFit(chars, k, a, next);
      Regroup(piece, Temperatures(a, next), Temperatures(chars, k + |a|));
    }
  }

  lemma NumberIsLong(a: string, i: nat)
    requires i < |a| && HasNumber(a, i)
    ensures i < ValueEnd(a, i)
  {
  }

  // One step of the second pass.
  function PercentageStep(chars: string, i: nat): (string, nat)
    requires i < |chars|
  {
    if IsPercentage(chars, i) then (PercentWords(chars, i), ValueEnd(chars, i) + 1) else ([chars[i]], i + 1)
  }

  lemma {:induction false} PercentageForward(chars: string, i: nat)
    requires i < |chars|
    ensures i < PercentageStep(chars, i).1 <= |chars|
    ensures Percentages(chars, i) == PercentageStep(chars, i).0 + Percentages(chars, PercentageStep(chars, i).1)
  {
    hide Percentages, NumberWords, ValueEnd, HasNumber, PercentWords;
    PercentagesUnfolds(chars, i);
    if HasNumber(chars, i) {
      NumberIsLong(chars, i);
    }
  }

  lemma PercentageStepFits(chars: string, k: nat, a: string, i: nat)
    requires Fits(chars, k, a) && i < |a|
    ensures k + i < |chars|
    ensures PercentageStep(chars, k + i) == (PercentageStep(a, i).0, k + PercentageStep(a, i).1)
  {
    hide NumberWords, ValueEnd, HasNumber, Fits;
    IntegerFits(chars, k, a, i);
    NumberFits(chars, k, a, i);
    CharsFit(chars, k, a, ValueEnd(a, i));
  }

  lemma {:induction false} PercentagesFit(chars: string, k: nat, a: string, i: nat)
    requires Fits(chars, k, a) && i <= |a|
    ensures k + |a| <= |chars|
    ensures Percentages(chars, k + i) == Percentages(a, i) + Percentages(chars, k + |a|)
    decreases |a| - i
  {
    hide Percentages, PercentageStep;
    if i == |a| {
      NothingPercentages(a);
    } else {
      PercentageStepFits(chars, k, a, i);
      PercentageForward(chars, k + i);
      PercentageForward(a, i);
      var (piece, next) := PercentageStep(a, i);
      PercentagesFit(chars, k, a, next);
      Regroup(piece, Percentages(a, next), Percentages(chars, k + |a|));
    }
  }

  // The last pass looks back two characters, but not past one that belongs to no number.
  ghost predicate StartsFresh(chars: string, k: nat) {
    k == 0 || (k <= |chars| && EndsNumber(chars[k - 1]))
  }

  lemma JoinsFit(chars: string, k: nat, a: string, i: nat)
    requires Fits(chars, k, a) && StartsFresh(chars, k) && i < |a|
    ensures JoinsDigits(chars, k + i) <==> JoinsDigits(a, i)
  {
    CharsFit(chars, k, a, i);
    CharsFit(chars, k, a, i + 1);
    if i > 0 {
      CharsFit(chars, k, a, i - 1);
    }
  }

  lemma RunFits(chars: string, k: nat, a: string, i: nat, end: nat)
    requires Fits(chars, k, a) && !IsAt(chars, k + |a|, '年') && StartsFresh(chars, k) && i < end <= |a|
    ensures SpeakRun(chars, k + i, k + end) == SpeakRun(a, i, end)
  {
    hide Integer, ReadDigitByDigit;
    SliceFits(chars, k, a, i, end);
    CharsFit(chars, k, a, end);
    assert IsAt(chars, k + end, '年') <==> IsAt(a, end, '年');
    if i > 0 {
      JoinsFit(chars, k, a, i - 1);
    }
  }

  lemma {:induction false} PlainDigitsFit(chars: string, k: nat, a: string, i: nat)
    requires Fits(chars, k, a) && !IsAt(chars, k + |a|, '年') && StartsFresh(chars, k) && i <= |a|
    ensures k + |a| <= |chars|
    ensures PlainDigits(chars, k + i) == PlainDigits(a, i) + PlainDigits(chars, k + |a|)
    decreases |a| - i
  {
    hide PlainDigits, SpeakRun, DigitEnd, JoinsDigits;
    PlainDigitsUnfolds(chars, k + i);
    PlainDigitsUnfolds(a, i);
    if i < |a| {
      CharsFit(chars, k, a, i);
      var rest := PlainDigits(chars, k + |a|);
      if IsAsciiDigit(a[i]) {
        var end := DigitEnd(a, i);
        DigitsFit(chars, k, a, i);
        RunIsLong(a, i);
        RunFits(chars, k, a, i, end);
        PlainDigitsFit(chars, k, a, end);
        Regroup(SpeakRun(a, i, end), PlainDigits(a, end), rest);
      } else {
        JoinsFit(chars, k, a, i);
        PlainDigitsFit(chars, k, a, i + 1);
        Regroup([if JoinsDigits(a, i) then '点' else a[i]], PlainDigits(a, i + 1), rest);
      }
    }
  }

  lemma {:induction false} RunIsLong(a: string, i: nat)
    requires i < |a| && IsAsciiDigit(a[i])
    ensures i < DigitEnd(a, i) <= |a|
  {
  }

  // ---------- Splitting ----------

  // A character that joins neither what stands before it nor what follows to a number or a unit.
  predicate Separates(c: char, after: string) {
    Neutral(c) || (c == ' ' && NoUnitAt(after, 0))
  }

  lemma {:induction false} SpacesAfter(front: string, after: string)
    ensures SkipSpaces(front + after, |front|) == |front| + SkipSpaces(after, 0)
  {
    var end := SkipSpaces(after, 0);
    forall k | |front| <= k < |front| + end ensures IsAt(front + after, k, ' ') {
      assert IsAt(after, k - |front|, ' ');
    }
    assert !IsAt(after, end, ' ');
    SkipSpacesIs(front + after, |front|, |front| + end);
  }

  lemma NoUnitAfter(a: string, c: char, b: string)
    requires c == '年' || Separates(c, b)
    ensures NoUnitAt(a + [c] + b, |a|)
  {
    var chars := a + [c] + b;
    assert chars[|a|] == c;
    if c == ' ' {
      SpacesAfter(a + [c], b);
      assert SkipSpaces(chars, |a|) == SkipSpaces(chars, |a| + 1);
      var k := SkipSpaces(b, 0);
      assert k < |b| ==> chars[|a| + 1 + k] == b[k];
    }
  }

  lemma {:induction false} TemperaturesSplit(a: string, c: char, b: string)
    requires c == '年' || Separates(c, b)
    ensures Temperatures(a + [c] + b, 0) == Temperatures(a, 0) + [c] + Temperatures(b, 0)
  {
    hide Temperatures, NoUnitAt, SkipSpaces;
    var chars := a + [c] + b;
    assert chars[0..0 + |a|] == a && chars[|a| + 1..|a| + 1 + |b|] == b;
    NoUnitAfter(a, c, b);
    TemperaturesFit(chars, 0, a, 0);
    NoUnitAtEnd(chars);
    TemperaturesFit(chars, |a| + 1, b, 0);
    EndIsNoNumber(chars, |a|);
    TemperaturesUnfolds(chars, |a|);
    NothingTemperatures(chars);
    assert Temperatures(b, 0) + [] == Temperatures(b, 0);
  }

  lemma {:induction false} NoUnitAtEnd(chars: string)
    ensures NoUnitAt(chars, |chars|)
  {
  }

  lemma EndIsNoNumber(chars: string, i: nat)
    requires i < |chars| && EndsNumber(chars[i])
    ensures !HasNumber(chars, i)
  {
  }

  lemma {:induction false} PercentagesSplit(a: string, c: char, b: string)
    requires EndsNumber(c)
    ensures Percentages(a + [c] + b, 0) == Percentages(a, 0) + [c] + Percentages(b, 0)
  {
    hide Percentages;
    var chars := a + [c] + b;
    assert chars[0..0 + |a|] == a && chars[|a| + 1..|a| + 1 + |b|] == b;
    PercentagesFit(chars, 0, a, 0);
    PercentagesFit(chars, |a| + 1, b, 0);
    EndIsNoNumber(chars, |a|);
    PercentagesUnfolds(chars, |a|);
    NothingPercentages(chars);
    assert Percentages(b, 0) + [] == Percentages(b, 0);
  }

  // After the end of a number the last pass starts afresh.
  lemma {:induction false} PlainDigitsAfter(front: string, after: string)
    requires front != [] && EndsNumber(front[|front| - 1])
    ensures PlainDigits(front + after, |front|) == PlainDigits(after, 0)
  {
    hide PlainDigits;
    var chars := front + after;
    assert chars[|front|..|front| + |after|] == after;
    PlainDigitsFit(chars, |front|, after, 0);
    PlainDigitsUnfolds(chars, |chars|);
    assert PlainDigits(after, 0) + [] == PlainDigits(after, 0);
  }

  lemma {:induction false} PlainDigitsSplit(a: string, c: char, b: string)
    requires EndsNumber(c) && c != '年'
    ensures PlainDigits(a + [c] + b, 0) == PlainDigits(a, 0) + [c] + PlainDigits(b, 0)
  {
    hide PlainDigits, SpeakRun, DigitEnd;
    var chars := a + [c] + b;
    assert chars[0..0 + |a|] == a && chars[|a|] == c;
    PlainDigitsFit(chars, 0, a, 0);
    PlainDigitsUnfolds(chars, |a|);
    PlainDigitsAfter(a + [c], b);
  }

  // A neutral character, or a space that no degree sign follows, splits the normaliser's work.
  lemma NormalizedSplits(a: string, c: char, b: string)
    requires Separates(c, b)
    ensures Normalized(a + [c] + b) == Normalized(a) + [c] + Normalized(b)
  {
    hide Temperatures, Percentages, PlainDigits, NoUnitAt;
    TemperaturesSplit(a, c, b);
    PercentagesSplit(Temperatures(a, 0), c, Temperatures(b, 0));
    PlainDigitsSplit(Percentages(Temperatures(a, 0), 0), c, Percentages(Temperatures(b, 0), 0));
  }

  lemma {:induction false} NeutralUnchanged(words: string)
    requires AllNeutral(words)
    ensures Percentages(words, 0) == words && PlainDigits(words, 0) == words
  {
    DigitFreeUnchanged(words, 0);
    assert words[0..] == words;
  }

  // Words at the front of what the first pass, or the first two, have left.
  lemma {:induction false} NeutralFront(words: string, rest: string)
    requires words != [] && AllNeutral(words)
    ensures Percentages(words + rest, 0) == words + Percentages(rest, 0)
    ensures PlainDigits(words + rest, 0) == words + PlainDigits(rest, 0)
  {
    var front, c := words[..|words| - 1], words[|words| - 1];
    assert AllNeutral(front) && Neutral(c) && words == front + [c];
    hide *;
    PercentagesSplit(front, c, rest);
    PlainDigitsSplit(front, c, rest);
    NeutralUnchanged(front);
  }

  lemma SpokenIsNeutral(whole: string, fraction: string)
    requires AllDigits(whole) && AllDigits(fraction)
    ensures AllNeutral(Spoken(whole, fraction))
  {
    hide Integer, ReadDigitByDigit;
    IntegerIsNeutral(whole);
    DigitWordsAreNeutral(fraction);
  }

  // ---------- Numbers in their place ----------

  function TemperatureWords(minus: string, whole: string, fraction: string): string {
    (if minus == [] then [] else ['零', '下']) + Spoken(whole, fraction) + ['度']
  }

  function PercentageWords(minus: string, whole: string, fraction: string): string {
    (if minus == [] then [] else ['负']) + ['百', '分', '之'] + Spoken(whole, fraction)
  }

  lemma TemperatureAtFront(minus: string, whole: string, fraction: string, spaces: string,
                           degrees: string, after: string)
    requires IsWritten(minus, whole, fraction) && (forall k | 0 <= k < |spaces| :: spaces[k] == ' ')
    requires degrees == ['\U{2103}'] || degrees == ['°', 'C']
    ensures Normalized(Written(minus, whole, fraction) + (spaces + degrees + after))
      == TemperatureWords(minus, whole, fraction) + Normalized(after)
  {
    hide Temperatures, Percentages, PlainDigits, Written, Spoken;
    var front := Written(minus, whole, fraction) + spaces + degrees;
    var chars := Written(minus, whole, fraction) + (spaces + degrees + after);
    TemperatureIsSpoken(minus, whole, fraction, spaces, degrees, after);
    assert chars == front + after;
    TemperaturesAfter(front, after);
    assert chars[..] == chars;
    var words := TemperatureWords(minus, whole, fraction);
    SpokenIsNeutral(whole, fraction);
    assert AllNeutral(words);
    NeutralFront(words, Temperatures(after, 0));
    NeutralFront(words, Percentages(Temperatures(after, 0), 0));
  }

  lemma {:induction false} TemperaturesAfter(front: string, after: string)
    ensures Temperatures(front + after, |front|) == Temperatures(after, 0)
  {
    hide Temperatures;
    var chars := front + after;
    assert chars[|front|..|front| + |after|] == after;
    NoUnitAtEnd(chars);
    TemperaturesFit(chars, |front|, after, 0);
    NothingTemperatures(chars);
    assert Temperatures(after, 0) + [] == Temperatures(after, 0);
  }

  lemma {:induction false} PercentagesAfter(front: string, after: string)
    ensures Percentages(front + after, |front|) == Percentages(after, 0)
  {
    hide Percentages;
    var chars := front + after;
    assert chars[|front|..|front| + |after|] == after;
    PercentagesFit(chars, |front|, after, 0);
    NothingPercentages(chars);
    assert Percentages(after, 0) + [] == Percentages(after, 0);
  }

  // The first pass leaves a percentage as it is.
  lemma {:induction false} TemperaturesSkipPercentage(minus: string, whole: string, fraction: string,
                                                     sign: char, after: string)
    requires IsWritten(minus, whole, fraction) && (sign == '%' || sign == '\U{FF05}')
    ensures Temperatures(Written(minus, whole, fraction) + ([sign] + after), 0)
      == Written(minus, whole, fraction) + ([sign] + Temperatures(after, 0))
  {
    hide Temperatures, Written, Spoken, DigitEnd, NumberWords, SkipSpaces;
    var written := Written(minus, whole, fraction);
    var chars := written + ([sign] + after);
    ScanFindsWritten(minus, whole, fraction, [sign] + after);
    assert chars[|written|] == sign && chars[0..|written|] == written;
    NoCelsiusAtSign(chars, |written|);
    TemperaturesUnfolds(chars, 0);
    SignIsNoNumber(chars, |written|);
    TemperaturesUnfolds(chars, |written|);
    assert chars == (written + [sign]) + after;
    TemperaturesAfter(written + [sign], after);
  }

  lemma SignIsNoNumber(chars: string, i: nat)
    requires i < |chars| && (chars[i] == '%' || chars[i] == '\U{FF05}')
    ensures !HasNumber(chars, i)
  {
  }

  lemma NoCelsiusAtSign(chars: string, i: nat)
    requires i < |chars| && (chars[i] == '%' || chars[i] == '\U{FF05}')
    ensures CelsiusEnd(chars, i).None?
  {
    SkipSpacesIs(chars, i, i);
  }

  lemma PercentageAtFront(minus: string, whole: string, fraction: string, sign: char, after: string)
    requires IsWritten(minus, whole, fraction) && (sign == '%' || sign == '\U{FF05}')
    ensures Normalized(Written(minus, whole, fraction) + ([sign] + after))
      == PercentageWords(minus, whole, fraction) + Normalized(after)
  {
    hide Temperatures, Percentages, PlainDigits, Written, Spoken;
    var written := Written(minus, whole, fraction);
    var rest := Temperatures(after, 0);
    TemperaturesSkipPercentage(minus, whole, fraction, sign, after);
    PercentageIsSpoken(minus, whole, fraction, sign, rest);
    assert written + ([sign] + rest) == (written + [sign]) + rest;
    PercentagesAfter(written + [sign], rest);
    var words := PercentageWords(minus, whole, fraction);
    SpokenIsNeutral(whole, fraction);
    assert AllNeutral(words);
    NeutralFront(words, Percentages(rest, 0));
  }

  lemma NumberAlone(whole: string, fraction: string)
    requires IsWritten([], whole, fraction)
    ensures Normalized(Written([], whole, fraction)) == Spoken(whole, fraction)
  {
    hide Temperatures, Percentages, PlainDigits, Spoken;
    WrittenStays(whole, fraction);
    DecimalIsSpoken(whole, fraction);
  }

  // Before a sign or a digit a space is as good as a neutral character.
  predicate MayPrecede(c: char) {
    Neutral(c) || c == ' '
  }

  lemma NoUnitAtNumber(minus: string, whole: string, fraction: string, rest: string)
    requires IsWritten(minus, whole, fraction)
    ensures NoUnitAt(Written(minus, whole, fraction) + rest, 0)
  {
    var chars := Written(minus, whole, fraction) + rest;
    assert chars[0] == if minus == [] then whole[0] else minus[0];
  }

  // In any text, a temperature after a neutral character or a space is spoken as one, whatever
  // follows it.
  lemma TemperatureInText(before: string, c: char, minus: string, whole: string, fraction: string,
                          spaces: string, degrees: string, after: string)
    requires MayPrecede(c)
    requires IsWritten(minus, whole, fraction) && (forall k | 0 <= k < |spaces| :: spaces[k] == ' ')
    requires degrees == ['\U{2103}'] || degrees == ['°', 'C']
    ensures Normalized(before + [c] + (Written(minus, whole, fraction) + (spaces + degrees + after)))
      == Normalized(before) + [c] + (TemperatureWords(minus, whole, fraction) + Normalized(after))
  {
    hide Normalized, Written, TemperatureWords, NoUnitAt;
    NoUnitAtNumber(minus, whole, fraction, spaces + degrees + after);
    NormalizedSplits(before, c, Written(minus, whole, fraction) + (spaces + degrees + after));
    TemperatureAtFront(minus, whole, fraction, spaces, degrees, after);
  }

  // In any text, a percentage after a neutral character or a space is spoken as one, whatever
  // follows it.
  lemma PercentageInText(before: string, c: char, minus: string, whole: string, fraction: string,
                         sign: char, after: string)
    requires MayPrecede(c) && IsWritten(minus, whole, fraction) && (sign == '%' || sign == '\U{FF05}')
    ensures Normalized(before + [c] + (Written(minus, whole, fraction) + ([sign] + after)))
      == Normalized(before) + [c] + (PercentageWords(minus, whole, fraction) + Normalized(after))
  {
    hide Normalized, Written, PercentageWords, NoUnitAt;
    NoUnitAtNumber(minus, whole, fraction, [sign] + after);
    NormalizedSplits(before, c, Written(minus, whole, fraction) + ([sign] + after));
    PercentageAtFront(minus, whole, fraction, sign, after);
  }

  // In any text, a number or decimal after a neutral character or a space, and before one that no
  // degree sign follows, is spoken as one.
  lemma NumberInText(before: string, c: char, whole: string, fraction: string, d: char, after: string)
    requires MayPrecede(c) && Separates(d, after) && IsWritten([], whole, fraction)
    ensures Normalized(before + [c] + (Written([], whole, fraction) + [d] + after))
      == Normalized(before) + [c] + (Spoken(whole, fraction) + [d] + Normalized(after))
  {
    hide Normalized, Written, Spoken, NoUnitAt;
    var written := Written([], whole, fraction);
    assert written + [d] + after == written + ([d] + after);
    NoUnitAtNumber([], whole, fraction, [d] + after);
    NormalizedSplits(before, c, written + [d] + after);
    NormalizedSplits(written, d, after);
    NumberAlone(whole, fraction);
  }

  // ---------- Years ----------

  // A run of digits before the word for year: four are read one by one, any other number of them
  // as a number.
  function YearWords(digits: string): string {
    if |digits| == 4 then ReadDigitByDigit(digits) else Integer(digits)
  }

  lemma YearAtFront(digits: string, after: string)
    requires digits != [] && AllDigits(digits)
    ensures Normalized(digits + ['年'] + after) == YearWords(digits) + ['年'] + Normalized(after)
  {
    hide Temperatures, Percentages, PlainDigits, YearWords;
    TemperaturesSplit(digits, '年', after);
    PercentagesSplit(digits, '年', Temperatures(after, 0));
    DigitsStay(digits);
    PlainYear(digits, Percentages(Temperatures(after, 0), 0));
  }

  lemma {:induction false} DigitsStay(digits: string)
    requires AllDigits(digits)
    ensures Temperatures(digits, 0) == digits && Percentages(digits, 0) == digits
  {
    hide Temperatures, Percentages;
    assert '°' !in digits && '\U{2103}' !in digits && '%' !in digits && '\U{FF05}' !in digits;
    NoDegreeSignUnchanged(digits, 0);
    NoPercentSignUnchanged(digits, 0);
    assert digits[0..] == digits;
  }

  lemma {:induction false} PlainYear(digits: string, rest: string)
    requires digits != [] && AllDigits(digits)
    ensures PlainDigits(digits + ['年'] + rest, 0) == YearWords(digits) + ['年'] + PlainDigits(rest, 0)
  {
    hide PlainDigits, SpeakRun, YearWords, DigitEnd;
    var chars := digits + ['年'] + rest;
    YearRun(digits, rest);
    assert chars[|digits|] == '年';
    PlainDigitsUnfolds(chars, 0);
    PlainDigitsUnfolds(chars, |digits|);
    PlainDigitsAfter(digits + ['年'], rest);
  }

  lemma YearRun(digits: string, rest: string)
    requires digits != [] && AllDigits(digits)
    ensures var chars := digits + ['年'] + rest;
      && IsAsciiDigit(chars[0]) && DigitEnd(chars, 0) == |digits|
      && SpeakRun(chars, 0, |digits|) == YearWords(digits)
  {
    hide Integer, ReadDigitByDigit, DigitEnd;
    var chars, e := digits + ['年'] + rest, |digits|;
    forall k | 0 <= k < e ensures IsDigitAt(chars, k) {
      assert chars[k] == digits[k];
    }
    assert chars[e] == '年' && chars[0..e] == digits;
    DigitEndIs(chars, 0, e);
  }

  // In any text, digits after a neutral character or a space and before the word for year are read
  // one by one exactly if there are four of them.
  lemma YearInText(before: string, c: char, digits: string, after: string)
    requires MayPrecede(c) && digits != [] && AllDigits(digits)
    ensures Normalized(before + [c] + (digits + ['年'] + after))
      == Normalized(before) + [c] + (YearWords(digits) + ['年'] + Normalized(after))
  {
    hide Normalized, YearWords, NoUnitAt;
    assert digits + ['年'] + after == Written([], digits, []) + (['年'] + after);
    NoUnitAtNumber([], digits, [], ['年'] + after);
    NormalizedSplits(before, c, digits + ['年'] + after);
    YearAtFront(digits, after);
  }

  // A decimal before the word for year is no year, though its fraction may have four digits: the
  // whole part is read as a number, and the digits behind the point one by one.
  lemma DecimalYearInText(before: string, c: char, whole: string, fraction: string, after: string)
    requires MayPrecede(c) && IsWritten([], whole, fraction) && fraction != []
    ensures Normalized(before + [c] + (Written([], whole, fraction) + ['年'] + after))
      == Normalized(before) + [c] + (Spoken(whole, fraction) + ['年'] + Normalized(after))
  {
    hide Temperatures, Percentages, PlainDigits, Spoken, Written, NoUnitAt;
    var written := Written([], whole, fraction);
    assert written + ['年'] + after == written + (['年'] + after);
    NoUnitAtNumber([], whole, fraction, ['年'] + after);
    NormalizedSplits(before, c, written + ['年'] + after);
    TemperaturesSplit(written, '年', after);
    PercentagesSplit(written, '年', Temperatures(after, 0));
    WrittenStays(whole, fraction);
    PlainDecimalYear(whole, fraction, Percentages(Temperatures(after, 0), 0));
  }

  lemma {:induction false} WrittenStays(whole: string, fraction: string)
    requires IsWritten([], whole, fraction)
    ensures var written := Written([], whole, fraction);
      Temperatures(written, 0) == written && Percentages(written, 0) == written
  {
    hide Temperatures, Percentages;
    var written := Written([], whole, fraction);
    forall k | 0 <= k < |written| ensures IsAsciiDigit(written[k]) || written[k] == '.' {
      assert written == whole + (if fraction == [] then [] else ['.'] + fraction);
    }
    assert '°' !in written && '\U{2103}' !in written && '%' !in written && '\U{FF05}' !in written;
    NoDegreeSignUnchanged(written, 0);
    NoPercentSignUnchanged(written, 0);
    assert written[0..] == written;
  }

  lemma {:induction false} PlainDecimalYear(whole: string, fraction: string, rest: string)
    requires IsWritten([], whole, fraction) && fraction != []
    ensures PlainDigits(Written([], whole, fraction) + ['年'] + rest, 0)
      == Spoken(whole, fraction) + ['年'] + PlainDigits(rest, 0)
  {
    hide PlainDigits, SpeakRun, DigitEnd, Integer, ReadDigitByDigit, Neutral;
    var written := Written([], whole, fraction);
    var chars := written + ['年'] + rest;
    assert chars == whole + ['.'] + fraction + ['年'] + rest;
    var e := |whole|;
    WholeRun(chars, whole);
    PlainDigitsUnfolds(chars, 0);
    forall k | e + 1 <= k < |written| ensures IsDigitAt(chars, k) {
      assert chars[k] == fraction[k - e - 1];
    }
    assert IsDigitAt(chars, e - 1) by { assert chars[e - 1] == whole[e - 1]; }
    assert chars[|written|] == '年' && chars[e + 1..|written|] == fraction;
    FractionIsReadDigitwise(chars, e + 1, |written|);
    PlainDigitsUnfolds(chars, |written|);
    PlainDigitsAfter(written + ['年'], rest);
  }

  // The digits at the front, before a point.
  lemma {:induction false} WholeRun(chars: string, whole: string)
    requires whole != [] && AllDigits(whole) && whole + ['.'] <= chars
    ensures IsAsciiDigit(chars[0]) && DigitEnd(chars, 0) == |whole| && SpeakRun(chars, 0, |whole|) == Integer(whole)
  {
    hide Integer, ReadDigitByDigit, DigitEnd;
    forall k | 0 <= k < |whole| ensures IsDigitAt(chars, k) {
      assert chars[k] == (whole + ['.'])[k];
    }
    assert chars[|whole|] == '.' && chars[0..|whole|] == whole;
    DigitEndIs(chars, 0, |whole|);
  }
}
