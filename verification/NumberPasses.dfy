/**
 The three passes of the Chinese number normaliser over a text: temperatures, percentages, and the
 digits that are left.
 */
module NumberPasses {
  import opened Wrappers
  import opened Numerals

  // ---------- Looking at the text ----------

  predicate IsAt(chars: string, i: nat, expected: char) {
    i < |chars| && chars[i] == expected
  }

  predicate IsDigitAt(chars: string, i: nat) {
    i < |chars| && IsAsciiDigit(chars[i])
  }

  predicate IsMinus(c: char) {
    c == '-' || c == '\U{2212}'
  }

  // The end of the run of digits that starts at i.
  function DigitEnd(chars: string, i: nat): (end: nat)
    ensures i <= end && (i <= |chars| ==> end <= |chars|)
    ensures !IsDigitAt(chars, end)
    ensures forall k | i <= k < end :: IsDigitAt(chars, k)
    decreases if i < |chars| then |chars| - i else 0
  {
    if IsDigitAt(chars, i) then DigitEnd(chars, i + 1) else i
  }

  method ScanDigits(chars: string, i: nat) returns (end: nat)
    requires i <= |chars|
    ensures end == DigitEnd(chars, i)
  {
    end := i;
    while IsDigitAt(chars, end)
      invariant i <= end <= |chars|
      invariant DigitEnd(chars, end) == DigitEnd(chars, i)
      decreases |chars| - end
    {
      end := end + 1;
    }
  }

  // Where the digits of a possibly signed number start.
  function DigitStart(chars: string, i: nat): nat
    requires i < |chars|
  {
    if IsMinus(chars[i]) then i + 1 else i
  }

  function IntegerEnd(chars: string, i: nat): nat
    requires i < |chars|
  {
    DigitEnd(chars, DigitStart(chars, i))
  }

  predicate HasNumber(chars: string, i: nat)
    requires i < |chars|
  {
    IntegerEnd(chars, i) > DigitStart(chars, i)
  }

  // The end of the number at i, with its fraction if a digit follows the point.
  function ValueEnd(chars: string, i: nat): (end: nat)
    requires i < |chars|
    ensures IntegerEnd(chars, i) <= end <= |chars|
  {
    var integerEnd := IntegerEnd(chars, i);
    if IsAt(chars, integerEnd, '.') && DigitEnd(chars, integerEnd + 1) > integerEnd + 1
    then DigitEnd(chars, integerEnd + 1) else integerEnd
  }

  function NumberWords(chars: string, i: nat): string
    requires i < |chars|
  {
    var integerEnd, valueEnd := IntegerEnd(chars, i), ValueEnd(chars, i);
    Integer(chars[DigitStart(chars, i)..integerEnd])
    + if valueEnd > integerEnd then ['点'] + ReadDigitByDigit(chars[integerEnd + 1..valueEnd]) else []
  }

  // The scan both passes make: past a sign, the digits, and a point with digits after it.
  method ScanNumber(chars: string, i: nat) returns (digitStart: nat, integerEnd: nat, valueEnd: nat)
    requires i < |chars|
    ensures digitStart == DigitStart(chars, i) && integerEnd == IntegerEnd(chars, i)
    ensures i <= digitStart <= integerEnd <= valueEnd <= |chars|
    ensures integerEnd > digitStart ==> valueEnd == ValueEnd(chars, i)
  {
    digitStart := if IsMinus(chars[i]) then i + 1 else i;
    integerEnd := ScanDigits(chars, digitStart);
    var fractionEnd := integerEnd;
    if integerEnd > digitStart && IsAt(chars, integerEnd, '.') {
      fractionEnd := ScanDigits(chars, integerEnd + 1);
    }
    valueEnd := if fractionEnd > integerEnd + 1 then fractionEnd else integerEnd;
  }

  // The number at i, spelled out.
  method SpeakNumber(chars: string, i: nat, digitStart: nat, integerEnd: nat, valueEnd: nat) returns (words: string)
    requires i < |chars| && digitStart == DigitStart(chars, i)
    requires integerEnd == IntegerEnd(chars, i) && valueEnd == ValueEnd(chars, i)
    ensures words == NumberWords(chars, i)
  {
    words := FormatInteger(chars[digitStart..integerEnd]);
    if valueEnd > integerEnd {
      words := words + (['点'] + ReadDigitByDigit(chars[integerEnd + 1..valueEnd]));
    }
  }

  // ---------- Temperatures ----------

  function SkipSpaces(chars: string, i: nat): (end: nat)
    ensures i <= end && (i <= |chars| ==> end <= |chars|)
    ensures !IsAt(chars, end, ' ') && forall k | i <= k < end :: IsAt(chars, k, ' ')
    decreases if i < |chars| then |chars| - i else 0
  {
    if IsAt(chars, i, ' ') then SkipSpaces(chars, i + 1) else i
  }

  // The end of a Celsius sign that follows, after spaces; None if there is none.
  function CelsiusEnd(chars: string, valueEnd: nat): (end: Option<nat>)
    requires valueEnd <= |chars|
    ensures end.Some? ==> valueEnd < end.value <= |chars|
  {
    var k := SkipSpaces(chars, valueEnd);
    if IsAt(chars, k, '\U{2103}') then Some(k + 1)
    else if IsAt(chars, k, '°') && IsAt(chars, k + 1, 'C') then Some(k + 2)
    else None
  }

  // The text from i on with its temperatures spelled out.
  function Temperatures(chars: string, i: nat): string
    requires i <= |chars|
    decreases |chars| - i
  {
    if i == |chars| then []
    else if !HasNumber(chars, i) then [chars[i]] + Temperatures(chars, i + 1)
    else match CelsiusEnd(chars, ValueEnd(chars, i))
      case None => chars[i..ValueEnd(chars, i)] + Temperatures(chars, ValueEnd(chars, i))
      case Some(end) =>
        (if IsMinus(chars[i]) then ['零', '下'] else []) + NumberWords(chars, i) + ['度'] + Temperatures(chars, end)
  }

  method FindCelsius(chars: string, valueEnd: nat) returns (end: Option<nat>)
    requires valueEnd <= |chars|
    ensures end == CelsiusEnd(chars, valueEnd)
  {
    var k := valueEnd;
    while IsAt(chars, k, ' ')
      invariant valueEnd <= k <= |chars| && SkipSpaces(chars, k) == SkipSpaces(chars, valueEnd)
      decreases |chars| - k
    {
      k := k + 1;
    }
    end := if IsAt(chars, k, '\U{2103}') then Some(k + 1)
      else if IsAt(chars, k, '°') && IsAt(chars, k + 1, 'C') then Some(k + 2)
      else None;
  }

  lemma TemperaturesUnfolds(chars: string, i: nat)
    requires i < |chars|
    ensures Temperatures(chars, i) ==
      if !HasNumber(chars, i) then [chars[i]] + Temperatures(chars, i + 1)
      else match CelsiusEnd(chars, ValueEnd(chars, i))
        case None => chars[i..ValueEnd(chars, i)] + Temperatures(chars, ValueEnd(chars, i))
        case Some(end) =>
          (if IsMinus(chars[i]) then ['零', '下'] else []) + NumberWords(chars, i) + ['度'] + Temperatures(chars, end)
  {
  }

  lemma {:induction false} NothingTemperatures(chars: string)
    ensures Temperatures(chars, |chars|) == []
  {
  }

  method NormalizeTemperatures(text: string) returns (out: string)
    ensures out == Temperatures(text, 0)
  {
    hide Temperatures, NumberWords, ValueEnd, IntegerEnd, DigitStart, DigitEnd, CelsiusEnd;
    out := [];
    var i := 0;
    while i < |text|
      invariant 0 <= i <= |text|
      invariant out + Temperatures(text, i) == Temperatures(text, 0)
    {
      var negative := IsMinus(text[i]);
      var digitStart, integerEnd, valueEnd := ScanNumber(text, i);
      var piece: string, next := [text[i]], i + 1;
      if integerEnd > digitStart {
        var celsiusEnd := FindCelsius(text, valueEnd);
        if celsiusEnd.None? {
          piece, next := text[i..valueEnd], valueEnd;
        } else {
          var words := SpeakNumber(text, i, digitStart, integerEnd, valueEnd);
          piece := (if negative then ['零', '下'] else []) + words + ['度'];
          next := celsiusEnd.value;
        }
      }
      TemperaturesUnfolds(text, i);
      Append(out, piece, Temperatures(text, next), Temperatures(text, i), Temperatures(text, 0));
      out, i := out + piece, next;
    }
    NothingTemperatures(text);
    assert out + [] == out;
  }

  // ---------- Percentages ----------

  predicate IsPercentage(chars: string, i: nat)
    requires i < |chars|
  {
    HasNumber(chars, i) && (IsAt(chars, ValueEnd(chars, i), '%') || IsAt(chars, ValueEnd(chars, i), '\U{FF05}'))
  }

  function PercentWords(chars: string, i: nat): string
    requires i < |chars|
  {
    (if IsMinus(chars[i]) then ['负'] else []) + ['百', '分', '之'] + NumberWords(chars, i)
  }

  // The text from i on with its percentages spelled out.
  function Percentages(chars: string, i: nat): string
    requires i <= |chars|
    decreases |chars| - i
  {
    if i == |chars| then []
    else if IsPercentage(chars, i) then PercentWords(chars, i) + Percentages(chars, ValueEnd(chars, i) + 1)
    else [chars[i]] + Percentages(chars, i + 1)
  }

  lemma PercentagesUnfolds(chars: string, i: nat)
    requires i < |chars|
    ensures Percentages(chars, i) ==
      if IsPercentage(chars, i) then PercentWords(chars, i) + Percentages(chars, ValueEnd(chars, i) + 1)
      else [chars[i]] + Percentages(chars, i + 1)
  {
  }

  lemma {:induction false} NothingPercentages(chars: string)
    ensures Percentages(chars, |chars|) == []
  {
  }

  method NormalizePercentages(text: string) returns (out: string)
    ensures out == Percentages(text, 0)
  {
    hide Percentages, NumberWords, ValueEnd, IntegerEnd, DigitStart, DigitEnd;
    out := [];
    var i := 0;
    while i < |text|
      invariant 0 <= i <= |text|
      invariant out + Percentages(text, i) == Percentages(text, 0)
    {
      var negative := IsMinus(text[i]);
      var digitStart, integerEnd, valueEnd := ScanNumber(text, i);
      var hasIntegerDigits := integerEnd > digitStart;
      var piece: string, next := [text[i]], i + 1;
      if hasIntegerDigits && (IsAt(text, valueEnd, '%') || IsAt(text, valueEnd, '\U{FF05}')) {
        var words := SpeakNumber(text, i, digitStart, integerEnd, valueEnd);
        piece := (if negative then ['负'] else []) + ['百', '分', '之'] + words;
        next := valueEnd + 1;
      }
      PercentagesUnfolds(text, i);
      Append(out, piece, Percentages(text, next), Percentages(text, i), Percentages(text, 0));
      out, i := out + piece, next;
    }
    NothingPercentages(text);
    assert out + [] == out;
  }

  // ---------- The digits that are left ----------

  // A point between two digits.
  predicate JoinsDigits(chars: string, i: nat) {
    IsAt(chars, i, '.') && i >= 1 && IsDigitAt(chars, i - 1) && IsDigitAt(chars, i + 1)
  }

  // How the run of digits [i, end) is spoken: a fraction and a year digit by digit, the rest as a number.
  function SpeakRun(chars: string, i: nat, end: nat): string
    requires i < end <= |chars|
  {
    var run := chars[i..end];
    if i >= 1 && JoinsDigits(chars, i - 1) then ReadDigitByDigit(run)
    else if |run| == 4 && IsAt(chars, end, '年') then ReadDigitByDigit(run)
    else Integer(run)
  }

  // Run by run: every other character is copied, but a point between digits is spoken.
  function PlainDigits(chars: string, i: nat): string
    requires i <= |chars|
    decreases |chars| - i
  {
    if i == |chars| then []
    else if !IsAsciiDigit(chars[i]) then [if JoinsDigits(chars, i) then '点' else chars[i]] + PlainDigits(chars, i + 1)
    else SpeakRun(chars, i, DigitEnd(chars, i)) + PlainDigits(chars, DigitEnd(chars, i))
  }

  // Position i starts a fraction, so the point before it is about to be replaced.
  predicate PointPending(chars: string, i: nat) {
    i >= 1 && IsDigitAt(chars, i) && JoinsDigits(chars, i - 1)
  }

  function PointSpoken(chars: string, i: nat, out: string): string {
    if PointPending(chars, i) && out != [] then out[..|out| - 1] + ['点'] else out
  }

  lemma PlainDigitsUnfolds(chars: string, i: nat)
    requires i <= |chars|
    ensures PlainDigits(chars, i) ==
      if i == |chars| then []
      else if !IsAsciiDigit(chars[i]) then [if JoinsDigits(chars, i) then '点' else chars[i]] + PlainDigits(chars, i + 1)
      else SpeakRun(chars, i, DigitEnd(chars, i)) + PlainDigits(chars, DigitEnd(chars, i))
  {
  }

  lemma PlainCharacter(text: string, i: nat, out: string)
    requires i < |text| && !IsAsciiDigit(text[i])
    ensures PointSpoken(text, i + 1, out + [text[i]]) == out + [if JoinsDigits(text, i) then '点' else text[i]]
    ensures PointPending(text, i + 1) ==> text[i] == '.'
    ensures PointSpoken(text, i, out) == out
  {
  }

  method SpeakPlainRun(text: string, i: nat, end: nat) returns (words: string)
    requires i < end <= |text|
    ensures words == SpeakRun(text, i, end)
  {
    var run := text[i..end];
    var isYear := |run| == 4 && IsAt(text, end, '年');
    var isFraction := i >= 2 && IsAt(text, i - 1, '.') && IsDigitAt(text, i - 2);
    if isFraction || isYear {
      words := ReadDigitByDigit(run);
    } else {
      words := FormatInteger(run);
    }
  }

  // The point of a fraction is pushed like any other character and popped when the digits after
  // it are reached; the pop never removes anything else.
  method NormalizePlainDigits(text: string) returns (out: string)
    ensures out == PlainDigits(text, 0)
  {
    hide PlainDigits, SpeakRun, DigitEnd;
    out := [];
    var i := 0;
    while i < |text|
      invariant 0 <= i <= |text|
      invariant PointPending(text, i) ==> out != [] && out[|out| - 1] == '.'
      invariant PointSpoken(text, i, out) + PlainDigits(text, i) == PlainDigits(text, 0)
    {
      PlainDigitsUnfolds(text, i);
      ghost var before := PointSpoken(text, i, out);
      if !IsAsciiDigit(text[i]) {
        PlainCharacter(text, i, out);
        Append(before, [if JoinsDigits(text, i) then '点' else text[i]],
               PlainDigits(text, i + 1), PlainDigits(text, i), PlainDigits(text, 0));
        out := out + [text[i]];
        i := i + 1;
        continue;
      }
      var end := ScanDigits(text, i);
      var isFraction := i >= 2 && IsAt(text, i - 1, '.') && IsDigitAt(text, i - 2);
      if isFraction {
        assert out[|out| - 1] == '.';
        out := out[..|out| - 1];
        out := out + ['点'];
      }
      assert out == before;
      var words := SpeakPlainRun(text, i, end);
      Append(before, SpeakRun(text, i, end), PlainDigits(text, end), PlainDigits(text, i), PlainDigits(text, 0));
      out := out + words;
      i := end;
    }
    PlainDigitsUnfolds(text, |text|);
    assert out + [] == out;
  }

  // ---------- All three ----------

  function Normalized(text: string): string {
    PlainDigits(Percentages(Temperatures(text, 0), 0), 0)
  }

  predicate DigitFree(s: string) {
    forall i | 0 <= i < |s| :: !IsAsciiDigit(s[i])
  }

  // A character that belongs to no number, sign, unit or year.
  predicate Neutral(c: char) {
    && !IsAsciiDigit(c) && c != '-' && c != '\U{2212}' && c != '.' && c != ' ' && c != '%' && c != '\U{FF05}'
    && c != '°' && c != '\U{2103}' && c != 'C' && c != '年'
  }

  predicate AllNeutral(s: string) {
    forall i | 0 <= i < |s| :: Neutral(s[i])
  }

  lemma {:induction false} DigitWordsAreNeutral(digits: string)
    ensures AllNeutral(ReadDigitByDigit(digits))
  {
    if digits != [] {
      DigitWordsAreNeutral(digits[1..]);
    }
  }

  lemma {:induction false} PlacesAreNeutral(places: seq<Place>, started: bool, pendingZero: bool)
    requires PlacesOk(places)
    ensures AllNeutral(SpeakPlaces(places, started, pendingZero))
  {
    if places != [] {
      assert PlacesOk(places[1..]);
      PlacesAreNeutral(places[1..], started, started);
      PlacesAreNeutral(places[1..], true, false);
    }
  }

  lemma SectionIsNeutral(n: nat)
    requires n < 10000
    ensures AllNeutral(Section(n))
  {
    SectionValue(n);
    PlacesAreNeutral(Places(n), false, false);
  }

  lemma IntegerIsNeutral(digits: string)
    requires AllDigits(digits)
    ensures AllNeutral(Integer(digits))
  {
    DigitWordsAreNeutral(digits);
    if digits != [] && |digits| <= MAX_CARDINAL_DIGITS {
      ShortParses(digits);
      CardinalIsNeutral(Value(digits));
    }
  }

  lemma CardinalIsNeutral(n: nat)
    requires n < 100_000_000
    ensures AllNeutral(Cardinal(n))
  {
    hide Section;
    SectionIsNeutral(n / 10000);
    SectionIsNeutral(n % 10000);
    assert AllNeutral(Front(n / 10000, n % 10000));
    assert AllNeutral(Front(n / 10000, n % 10000) + Tail(n / 10000, n % 10000));
  }

  // Whatever the text, the last pass leaves no ASCII digit.
  lemma {:induction false} PlainDigitsLeavesNone(chars: string, i: nat)
    requires i <= |chars|
    ensures DigitFree(PlainDigits(chars, i))
    decreases |chars| - i
  {
    if i < |chars| {
      if IsAsciiDigit(chars[i]) {
        var end := DigitEnd(chars, i);
        forall k | 0 <= k < end - i ensures IsAsciiDigit(chars[i..end][k]) {
          assert IsDigitAt(chars, i + k);
        }
        DigitWordsAreNeutral(chars[i..end]);
        IntegerIsNeutral(chars[i..end]);
        PlainDigitsLeavesNone(chars, end);
      } else {
        PlainDigitsLeavesNone(chars, i + 1);
      }
    }
  }

  lemma NoNumberWithoutDigits(chars: string, i: nat)
    requires DigitFree(chars) && i < |chars|
    ensures !HasNumber(chars, i)
  {
  }

  lemma {:induction false} DigitFreeUnchanged(chars: string, i: nat)
    requires DigitFree(chars) && i <= |chars|
    ensures Temperatures(chars, i) == chars[i..]
    ensures Percentages(chars, i) == chars[i..]
    ensures PlainDigits(chars, i) == chars[i..]
    decreases |chars| - i
  {
    if i < |chars| {
      NoNumberWithoutDigits(chars, i);
      DigitFreeUnchanged(chars, i + 1);
      assert chars[i..] == [chars[i]] + chars[i + 1..];
    }
  }

  // The output has no ASCII digit, digit-free text passes unchanged, and so normalising twice is
  // normalising once.
  lemma NormalizingIsClosed(text: string)
    ensures DigitFree(Normalized(text))
    ensures DigitFree(text) ==> Normalized(text) == text
    ensures Normalized(Normalized(text)) == Normalized(text)
  {
    PlainDigitsLeavesNone(Percentages(Temperatures(text, 0), 0), 0);
    var out := Normalized(text);
    DigitFreeUnchanged(out, 0);
    assert out[0..] == out;
    if DigitFree(text) {
      DigitFreeUnchanged(text, 0);
      assert text[0..] == text;
    }
  }

  // The whole normaliser: whatever the text, no ASCII digit is left, and a text without one comes
  // back as it is.
  method NormalizeNumbers(text: string) returns (out: string)
    ensures out == Normalized(text)
    ensures DigitFree(out) && (DigitFree(text) ==> out == text)
  {
    out := NormalizeTemperatures(text);
    out := NormalizePercentages(out);
    out := NormalizePlainDigits(out);
    NormalizingIsClosed(text);
  }

  // ---------- What each pass leaves alone ----------

  // A text without a percent sign has no percentages, whatever numbers it holds.
  lemma {:induction false} NoPercentSignUnchanged(chars: string, i: nat)
    requires i <= |chars| && '%' !in chars && '\U{FF05}' !in chars
    ensures Percentages(chars, i) == chars[i..]
    decreases |chars| - i
  {
    if i < |chars| {
      NoPercentSignUnchanged(chars, i + 1);
      assert chars[i..] == [chars[i]] + chars[i + 1..];
    }
  }

  lemma NoCelsius(chars: string, i: nat)
    requires i < |chars| && '°' !in chars && '\U{2103}' !in chars
    ensures CelsiusEnd(chars, ValueEnd(chars, i)).None?
  {
  }

  // A text without a degree sign has no temperatures.
  lemma {:induction false} NoDegreeSignUnchanged(chars: string, i: nat)
    requires i <= |chars| && '°' !in chars && '\U{2103}' !in chars
    ensures Temperatures(chars, i) == chars[i..]
    decreases |chars| - i
  {
    hide CelsiusEnd, ValueEnd, NumberWords;
    if i < |chars| {
      if HasNumber(chars, i) {
        var end := ValueEnd(chars, i);
        NoCelsius(chars, i);
        NoDegreeSignUnchanged(chars, end);
        assert chars[i..] == chars[i..end] + chars[end..];
      } else {
        NoDegreeSignUnchanged(chars, i + 1);
        assert chars[i..] == [chars[i]] + chars[i + 1..];
      }
    }
  }

  // ---------- What whole numbers become ----------

  // A number as written: sign, digits, and digits after a point if there are any.
  function Written(minus: string, whole: string, fraction: string): string {
    minus + whole + (if fraction == [] then [] else ['.'] + fraction)
  }

  function Spoken(whole: string, fraction: string): string {
    Integer(whole) + (if fraction == [] then [] else ['点'] + ReadDigitByDigit(fraction))
  }

  predicate IsWritten(minus: string, whole: string, fraction: string) {
    && (minus == [] || minus == ['-'] || minus == ['\U{2212}'])
    && whole != [] && AllDigits(whole) && AllDigits(fraction)
  }

  // No digit or point follows, so the number ends where it was meant to.
  predicate Delimits(rest: string) {
    rest != [] ==> !IsAsciiDigit(rest[0]) && rest[0] != '.'
  }

  lemma {:induction false} DigitEndIs(chars: string, i: nat, end: nat)
    requires i <= end <= |chars| && !IsDigitAt(chars, end)
    requires forall k | i <= k < end :: IsDigitAt(chars, k)
    ensures DigitEnd(chars, i) == end
    decreases end - i
  {
    if i < end {
      DigitEndIs(chars, i + 1, end);
    }
  }

  // The scan finds the digits before the point.
  lemma ScanFindsWhole(minus: string, whole: string, tail: string)
    requires IsWritten(minus, whole, []) && (tail != [] ==> !IsAsciiDigit(tail[0]))
    ensures var chars := minus + whole + tail;
      && chars != [] && DigitStart(chars, 0) == |minus| && IntegerEnd(chars, 0) == |minus| + |whole|
      && chars[|minus|..|minus| + |whole|] == whole && (IsMinus(chars[0]) <==> minus != [])
  {
    hide DigitEnd;
    DigitsBetween(minus, whole, tail);
    var chars := minus + whole + tail;
    assert chars[0] == if minus == [] then whole[0] else minus[0];
  }

  lemma Middle(front: string, middle: string, tail: string)
    ensures var chars := front + middle + tail;
      && chars[|front|..|front| + |middle|] == middle
      && (forall k | |front| <= k < |front| + |middle| :: chars[k] == middle[k - |front|])
      && (tail != [] ==> chars[|front| + |middle|] == tail[0])
  {
  }

  // Digits end where the text after them starts with no digit.
  lemma {:induction false} DigitsBetween(front: string, digits: string, tail: string)
    requires AllDigits(digits) && (tail != [] ==> !IsAsciiDigit(tail[0]))
    ensures var chars := front + digits + tail;
      && DigitEnd(chars, |front|) == |front| + |digits| && chars[|front|..|front| + |digits|] == digits
  {
    hide DigitEnd;
    Middle(front, digits, tail);
    DigitEndIs(front + digits + tail, |front|, |front| + |digits|);
  }

  // The scan finds exactly the number that was written.
  lemma ScanFindsWritten(minus: string, whole: string, fraction: string, rest: string)
    requires IsWritten(minus, whole, fraction) && Delimits(rest)
    ensures var chars := Written(minus, whole, fraction) + rest;
      && chars != [] && HasNumber(chars, 0) && ValueEnd(chars, 0) == |Written(minus, whole, fraction)|
      && NumberWords(chars, 0) == Spoken(whole, fraction)
      && (IsMinus(chars[0]) <==> minus != [])
  {
    hide Integer, ReadDigitByDigit, DigitEnd;
    var written := Written(minus, whole, fraction);
    var chars := written + rest;
    var point := if fraction == [] then [] else ['.'] + fraction;
    assert chars == minus + whole + (point + rest);
    ScanFindsWhole(minus, whole, point + rest);
    var e := |minus| + |whole|;
    if fraction != [] {
      assert chars[e] == '.' && chars[e + 1..|written|] == fraction;
      forall k | e + 1 <= k < |written| ensures IsDigitAt(chars, k) {
        assert chars[k] == fraction[k - e - 1];
      }
      if rest != [] {
        assert chars[|written|] == rest[0];
      }
      DigitEndIs(chars, e + 1, |written|);
    } else if rest != [] {
      assert chars[e] == rest[0];
    }
  }

  // ---------- Which numbers there are ----------

  // A number starts at a digit, and at a minus sign before a digit.
  lemma NumbersStart(chars: string, i: nat)
    requires i < |chars|
    ensures HasNumber(chars, i)
      <==> IsDigitAt(chars, i) || ((chars[i] == '-' || chars[i] == '\U{2212}') && IsDigitAt(chars, i + 1))
  {
  }

  // What the scan takes for the number at i: a sign if one stands there, all the digits that follow,
  // and a point only with all the digits behind it.
  lemma {:induction false} NumberIsWritten(chars: string, i: nat)
    returns (minus: string, whole: string, fraction: string)
    requires i < |chars| && HasNumber(chars, i)
    ensures IsWritten(minus, whole, fraction) && (minus == [] <==> IsDigitAt(chars, i))
    ensures i < ValueEnd(chars, i) && chars[i..ValueEnd(chars, i)] == Written(minus, whole, fraction)
    ensures NumberWords(chars, i) == Spoken(whole, fraction)
    ensures var end := ValueEnd(chars, i);
      !IsDigitAt(chars, end) && (fraction == [] ==> !(IsAt(chars, end, '.') && IsDigitAt(chars, end + 1)))
  {
    hide Integer, ReadDigitByDigit;
    var start, middle, end := DigitStart(chars, i), IntegerEnd(chars, i), ValueEnd(chars, i);
    minus, whole := chars[i..start], chars[start..middle];
    fraction := if end > middle then chars[middle + 1..end] else [];
    DigitsOnly(chars, start, middle);
    if end > middle {
      DigitsOnly(chars, middle + 1, end);
      assert chars[i..end] == minus + whole + (['.'] + fraction);
      assert fraction[0] == chars[middle + 1];
    } else {
      assert chars[i..end] == minus + whole + [];
    }
  }

  lemma DigitsOnly(chars: string, i: nat, end: nat)
    requires i <= end <= |chars| && forall k | i <= k < end :: IsDigitAt(chars, k)
    ensures AllDigits(chars[i..end])
  {
    forall k | 0 <= k < end - i ensures IsAsciiDigit(chars[i..end][k]) {
      assert IsDigitAt(chars, i + k);
    }
  }

  // A Celsius sign is the one character for it, or a degree sign directly before a C, after any number
  // of spaces.
  ghost predicate IsCelsius(chars: string, valueEnd: nat, k: nat, end: nat) {
    && valueEnd <= k < end <= |chars| && (forall j | valueEnd <= j < k :: chars[j] == ' ')
    && (chars[k..end] == ['\U{2103}'] || chars[k..end] == ['°', 'C'])
  }

  lemma {:induction false} CelsiusIsFound(chars: string, valueEnd: nat, end: nat)
    requires valueEnd <= |chars|
    ensures CelsiusEnd(chars, valueEnd) == Some(end) <==> exists k: nat :: IsCelsius(chars, valueEnd, k, end)
  {
    var k := SkipSpaces(chars, valueEnd);
    if CelsiusEnd(chars, valueEnd) == Some(end) {
      forall j | valueEnd <= j < k ensures chars[j] == ' ' {
        assert IsAt(chars, j, ' ');
      }
      assert IsCelsius(chars, valueEnd, k, end);
    }
    if k': nat :| IsCelsius(chars, valueEnd, k', end) {
      assert chars[k'] == chars[k'..end][0];
      assert end == k' + 2 ==> chars[k' + 1] == chars[k'..end][1];
      SkipSpacesIs(chars, valueEnd, k');
    }
  }

  // The last pass changes digits and points between digits, and nothing else.
  lemma {:induction false} OthersAreCopied(chars: string, i: nat)
    requires i < |chars| && !IsAsciiDigit(chars[i])
    requires !(chars[i] == '.' && i > 0 && IsDigitAt(chars, i - 1) && IsDigitAt(chars, i + 1))
    ensures PlainDigits(chars, i) == [chars[i]] + PlainDigits(chars, i + 1)
  {
  }

  // A percentage at the start of a text, with any sign and fraction, is spoken as one.
  lemma {:induction false} PercentageIsSpoken(minus: string, whole: string, fraction: string, sign: char, after: string)
    requires IsWritten(minus, whole, fraction) && (sign == '%' || sign == '\U{FF05}')
    ensures var written := Written(minus, whole, fraction);
      Percentages(written + ([sign] + after), 0)
      == (if minus == [] then [] else ['负']) + ['百', '分', '之'] + Spoken(whole, fraction)
        + Percentages(written + ([sign] + after), |written| + 1)
  {
    hide DigitEnd, NumberWords, Percentages, ValueEnd, HasNumber, Written, Spoken;
    ScanFindsWritten(minus, whole, fraction, [sign] + after);
    var written := Written(minus, whole, fraction);
    assert (written + ([sign] + after))[|written|] == sign;
    PercentagesUnfolds(written + ([sign] + after), 0);
  }

  lemma CelsiusFound(written: string, spaces: string, degrees: string, after: string)
    requires forall k | 0 <= k < |spaces| :: spaces[k] == ' '
    requires degrees == ['\U{2103}'] || degrees == ['°', 'C']
    ensures var chars := written + (spaces + degrees + after);
      CelsiusEnd(chars, |written|) == Some(|written + spaces + degrees|)
  {
    var chars := written + (spaces + degrees + after);
    forall k | |written| <= k < |written| + |spaces| ensures IsAt(chars, k, ' ') {
      assert chars[k] == spaces[k - |written|];
    }
    var at := |written| + |spaces|;
    assert chars[at] == degrees[0];
    assert |degrees| == 2 ==> chars[at + 1] == degrees[1];
    SkipSpacesIs(chars, |written|, at);
  }

  // A temperature at the start of a text, after any number of spaces and with either sign of
  // degrees, is spoken as one.
  lemma {:induction false} TemperatureIsSpoken(minus: string, whole: string, fraction: string, spaces: string,
                                               degrees: string, after: string)
    requires IsWritten(minus, whole, fraction) && (forall k | 0 <= k < |spaces| :: spaces[k] == ' ')
    requires degrees == ['\U{2103}'] || degrees == ['°', 'C']
    ensures var written := Written(minus, whole, fraction);
      Temperatures(written + (spaces + degrees + after), 0)
      == (if minus == [] then [] else ['零', '下']) + Spoken(whole, fraction) + ['度']
        + Temperatures(written + (spaces + degrees + after), |written + spaces + degrees|)
  {
    hide DigitEnd, NumberWords, SkipSpaces, CelsiusEnd, Temperatures, ValueEnd, HasNumber, Written, Spoken;
    var written := Written(minus, whole, fraction);
    var chars := written + (spaces + degrees + after);
    assert (spaces + degrees + after)[0] == if spaces == [] then degrees[0] else ' ';
    ScanFindsWritten(minus, whole, fraction, spaces + degrees + after);
    CelsiusFound(written, spaces, degrees, after);
    TemperaturesUnfolds(chars, 0);
  }

  lemma {:induction false} SkipSpacesIs(chars: string, i: nat, end: nat)
    requires i <= end <= |chars| && !IsAt(chars, end, ' ')
    requires forall k | i <= k < end :: IsAt(chars, k, ' ')
    ensures SkipSpaces(chars, i) == end
    decreases end - i
  {
    if i < end {
      SkipSpacesIs(chars, i + 1, end);
    }
  }

  // Digits behind a point that joins them to a digit are read one by one, however many they are and
  // whatever follows them.
  lemma {:induction false} FractionIsReadDigitwise(chars: string, i: nat, end: nat)
    requires 2 <= i < end <= |chars| && IsDigitAt(chars, i - 2) && chars[i - 1] == '.'
    requires (forall k | i <= k < end :: IsDigitAt(chars, k)) && !IsDigitAt(chars, end)
    ensures PlainDigits(chars, i - 1) == ['点'] + ReadDigitByDigit(chars[i..end]) + PlainDigits(chars, end)
  {
    hide DigitEnd, ReadDigitByDigit, Integer;
    DigitEndIs(chars, i, end);
    assert IsDigitAt(chars, i);
    PlainDigitsUnfolds(chars, i - 1);
    PlainDigitsUnfolds(chars, i);
  }

  // A decimal number on its own loses its point to the spoken one.
  lemma DecimalIsSpoken(whole: string, fraction: string)
    requires IsWritten([], whole, fraction)
    ensures PlainDigits(Written([], whole, fraction), 0) == Spoken(whole, fraction)
  {
    var chars := Written([], whole, fraction);
    var e := |whole|;
    assert chars[..e] == whole && chars[0..e] == whole;
    forall k | 0 <= k < e ensures IsDigitAt(chars, k) {
      assert chars[k] == whole[k];
    }
    DigitEndIs(chars, 0, e);
    if fraction != [] {
      assert chars[e] == '.' && chars[e + 1..] == fraction;
      forall k | e + 1 <= k < |chars| ensures IsDigitAt(chars, k) {
        assert chars[k] == fraction[k - e - 1];
      }
      DigitEndIs(chars, e + 1, |chars|);
      assert IsDigitAt(chars, e - 1);
      assert JoinsDigits(chars, e);
      assert chars[e + 1..|chars|] == fraction;
      assert PlainDigits(chars, |chars|) == [];
      assert PlainDigits(chars, e + 1) == ReadDigitByDigit(fraction);
    }
  }
}
