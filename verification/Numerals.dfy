/** Chinese numerals: the printer of the number normaliser, and a reader that inverts it. */
module Numerals {
  import opened Wrappers

  const DIGITS: seq<char> := ['零', '一', '二', '三', '四', '五', '六', '七', '八', '九']

  predicate IsAsciiDigit(c: char) {
    '0' <= c <= '9'
  }

  predicate AllDigits(s: string) {
    forall i | 0 <= i < |s| :: IsAsciiDigit(s[i])
  }

  function DigitToWord(d: nat): char {
    if d < |DIGITS| then DIGITS[d] else '零'
  }

  function ToDigit(c: char): nat {
    if IsAsciiDigit(c) then (c - '0') as int else 0
  }

  lemma AsciiDigits(c: char)
    ensures IsAsciiDigit(c) <==> c in "0123456789"
    ensures IsAsciiDigit(c) ==> "0123456789"[ToDigit(c)] == c
  {
  }

  // ---------- Printing ----------

  // Characters that are not digits are skipped.
  function ReadDigitByDigit(digits: string): string {
    if digits == [] then []
    else (if IsAsciiDigit(digits[0]) then [DigitToWord(ToDigit(digits[0]))] else []) + ReadDigitByDigit(digits[1..])
  }

  datatype Place = Place(digit: nat, unit: Option<char>)

  function Places(n: nat): seq<Place> {
    [Place(n / 1000, Some('千')), Place(n / 100 % 10, Some('百')), Place(n / 10 % 10, Some('十')), Place(n % 10, None)]
  }

  function UnitOf(p: Place): string {
    match p.unit case None => [] case Some(u) => [u]
  }

  // The places from one position on. A zero is spoken once, between digits, if any were skipped.
  function SpeakPlaces(places: seq<Place>, started: bool, pendingZero: bool): string {
    if places == [] then []
    else if places[0].digit == 0 then SpeakPlaces(places[1..], started, started)
    else (if pendingZero then ['零'] else []) + [DigitToWord(places[0].digit)] + UnitOf(places[0])
         + SpeakPlaces(places[1..], true, false)
  }

  function Section(n: nat): string {
    SpeakPlaces(Places(n), false, false)
  }

  lemma {:induction false} SpeakUnfolds(places: seq<Place>, i: nat, started: bool, pendingZero: bool)
    requires i < |places|
    ensures SpeakPlaces(places[i..], started, pendingZero) ==
      if places[i].digit == 0 then SpeakPlaces(places[i + 1..], started, started)
      else PlaceWords(places[i], pendingZero) + SpeakPlaces(places[i + 1..], true, false)
  {
    assert places[i..][1..] == places[i + 1..];
  }

  // Writing out the next piece of what is still to be produced.
  lemma Append(out: string, piece: string, rest: string, todo: string, whole: string)
    requires out + todo == whole && todo == piece + rest
    ensures out + piece + rest == whole
  {
  }

  // A digit other than zero with its unit, after a zero if one is pending.
  function PlaceWords(place: Place, pendingZero: bool): (words: string)
    ensures words != []
  {
    (if pendingZero then ['零'] else []) + [DigitToWord(place.digit)] + UnitOf(place)
  }

  method FormatPlaces(places: seq<Place>) returns (out: string)
    ensures out == SpeakPlaces(places, false, false)
  {
    out := [];
    var pendingZero := false;
    assert places[0..] == places;
    for i := 0 to |places|
      invariant out + SpeakPlaces(places[i..], out != [], pendingZero) == SpeakPlaces(places, false, false)
    {
      hide SpeakPlaces, PlaceWords;
      var place := places[i];
      SpeakUnfolds(places, i, out != [], pendingZero);
      if place.digit == 0 {
        pendingZero := out != [];
        continue;
      }
      var piece := PlaceWords(place, pendingZero);
      Append(out, piece, SpeakPlaces(places[i + 1..], true, false),
             SpeakPlaces(places[i..], out != [], pendingZero), SpeakPlaces(places, false, false));
      out := out + piece;
      pendingZero := false;
    }
  }

  method FormatSection(n: nat) returns (out: string)
    ensures out == Section(n)
  {
    out := FormatPlaces(Places(n));
  }

  // "一十" at the front loses its "一".
  function DropLeadingOne(s: string): string {
    if |s| >= 2 && s[0] == '一' && s[1] == '十' then s[1..] else s
  }

  // The myriads, with the zero that bridges a gap before the rest.
  function Front(high: nat, low: nat): string {
    if high > 0 then Section(high) + ['万'] + (if 0 < low < 1000 then ['零'] else []) else []
  }

  function Tail(high: nat, low: nat): string {
    if low > 0 || high == 0 then Section(low) else []
  }

  function Finish(out: string): string {
    if out == [] then [DigitToWord(0)] else DropLeadingOne(out)
  }

  function Cardinal(n: nat): string {
    Finish(Front(n / 10000, n % 10000) + Tail(n / 10000, n % 10000))
  }

  method FormatCardinal(n: nat) returns (words: string)
    ensures words == Cardinal(n)
  {
    hide Section;
    var high := n / 10000;
    var low := n % 10000;
    var out := [];
    if high > 0 {
      var section := FormatSection(high);
      out := out + section;
      out := out + ['万'];
      if low > 0 && low < 1000 {
        out := out + ['零'];
      }
    }
    assert out == Front(high, low);
    if low > 0 || high == 0 {
      var section := FormatSection(low);
      out := out + section;
    }
    assert out == Front(high, low) + Tail(high, low);
    if |out| >= 2 && out[0] == '一' && out[1] == '十' {
      words := ['十'] + out[2..];
      assert words == DropLeadingOne(out);
    } else if out == [] {
      words := [DigitToWord(0)];
    } else {
      words := out;
    }
  }

  const MAX_CARDINAL_DIGITS: nat := 8
  const U32_LIMIT: nat := 0x1_0000_0000

  // The value of a digit string.
  function Value(digits: string): nat {
    if digits == [] then 0 else Value(digits[..|digits| - 1]) * 10 + ToDigit(digits[|digits| - 1])
  }

  // Parsing fails on the empty string, on a foreign character and on overflow.
  function ParseU32(digits: string): Option<nat> {
    if digits != [] && AllDigits(digits) && Value(digits) < U32_LIMIT then Some(Value(digits)) else None
  }

  // Read as a number, rather than digit by digit.
  predicate ReadAsCardinal(digits: string) {
    !(|digits| > 1 && digits[0] == '0') && |digits| <= MAX_CARDINAL_DIGITS
  }

  function Integer(digits: string): string {
    if !ReadAsCardinal(digits) then ReadDigitByDigit(digits)
    else match ParseU32(digits)
      case Some(n) => Cardinal(n)
      case None => ReadDigitByDigit(digits)
  }

  method FormatInteger(digits: string) returns (words: string)
    ensures words == Integer(digits)
  {
    var hasLeadingZero := |digits| > 1 && digits[0] == '0';
    if hasLeadingZero || |digits| > MAX_CARDINAL_DIGITS {
      return ReadDigitByDigit(digits);
    }
    match ParseU32(digits)
    case Some(n) => words := FormatCardinal(n);
    case None => words := ReadDigitByDigit(digits);
  }

  // ---------- Reading ----------

  // The value of a digit word, and of a unit inside a section.
  function WordDigit(c: char): Option<nat> {
    if c == '零' then Some(0) else if c == '一' then Some(1) else if c == '二' then Some(2)
    else if c == '三' then Some(3) else if c == '四' then Some(4) else if c == '五' then Some(5)
    else if c == '六' then Some(6) else if c == '七' then Some(7) else if c == '八' then Some(8)
    else if c == '九' then Some(9) else None
  }

  function UnitValue(c: char): nat {
    if c == '千' then 1000 else if c == '百' then 100 else if c == '十' then 10 else 1
  }

  // What has been read: whole myriads, the current section, and a digit still waiting for its unit.
  datatype Reading = Reading(myriads: nat, section: nat, digit: nat)

  function ReadChar(r: Reading, c: char): Reading {
    match WordDigit(c)
    case Some(d) => r.(digit := d)
    case None =>
      if c == '万' then Reading(r.myriads + r.section + r.digit, 0, 0)
      else Reading(r.myriads, r.section + (if r.digit == 0 then 1 else r.digit) * UnitValue(c), 0)
  }

  function ReadFrom(r: Reading, s: string): Reading
    decreases s
  {
    if s == [] then r else ReadFrom(ReadChar(r, s[0]), s[1..])
  }

  function ReadNumeral(s: string): nat {
    var r := ReadFrom(Reading(0, 0, 0), s);
    r.myriads * 10000 + r.section + r.digit
  }

  lemma {:induction false} ReadConcat(r: Reading, a: string, b: string)
    ensures ReadFrom(r, a + b) == ReadFrom(ReadFrom(r, a), b)
    decreases a
  {
    if a == [] {
      assert a + b == b;
    } else {
      assert (a + b)[0] == a[0] && (a + b)[1..] == a[1..] + b;
      ReadConcat(ReadChar(r, a[0]), a[1..], b);
    }
  }

  lemma WordDigitInverts(d: nat)
    requires d < 10
    ensures WordDigit(DigitToWord(d)) == Some(d)
  {
  }

  // What a list of places adds up to.
  function PlacesValue(places: seq<Place>): nat {
    if places == [] then 0
    else places[0].digit * (match places[0].unit case None => 1 case Some(u) => UnitValue(u)) + PlacesValue(places[1..])
  }

  // Places as a section has them: digits below ten, and only the last one without a unit.
  predicate PlacesOk(places: seq<Place>) {
    forall i | 0 <= i < |places| ::
      && places[i].digit < 10
      && (places[i].unit.None? <==> i == |places| - 1)
      && (places[i].unit.Some? ==> places[i].unit.value in ['千', '百', '十'])
  }

  lemma {:induction false} ReadPlaces(places: seq<Place>, started: bool, pendingZero: bool, r: Reading)
    requires PlacesOk(places) && r.digit == 0
    ensures var r' := ReadFrom(r, SpeakPlaces(places, started, pendingZero));
      r'.myriads == r.myriads && r'.section + r'.digit == r.section + PlacesValue(places)
  {
    if places != [] {
      var place := places[0];
      assert PlacesOk(places[1..]);
      if place.digit == 0 {
        ReadPlaces(places[1..], started, started, r);
      } else {
        var zero := if pendingZero then ['零'] else [];
        var here := zero + [DigitToWord(place.digit)] + UnitOf(place);
        var rest := SpeakPlaces(places[1..], true, false);
        ReadConcat(r, here, rest);
        ReadPlace(place, zero, r);
        if place.unit.Some? {
          ReadPlaces(places[1..], true, false, ReadFrom(r, here));
        } else {
          assert places[1..] == [];
        }
      }
    }
  }

  lemma {:induction false} ReadPlace(place: Place, zero: string, r: Reading)
    requires 0 < place.digit < 10 && r.digit == 0 && (zero == [] || zero == ['零'])
    requires place.unit.Some? ==> place.unit.value in ['千', '百', '十']
    ensures ReadFrom(r, zero + [DigitToWord(place.digit)] + UnitOf(place)) ==
      match place.unit
      case None => r.(digit := place.digit)
      case Some(u) => Reading(r.myriads, r.section + place.digit * UnitValue(u), 0)
  {
    WordDigitInverts(place.digit);
    var word := [DigitToWord(place.digit)];
    ReadConcat(r, zero + word, UnitOf(place));
    ReadConcat(r, zero, word);
    assert ReadFrom(r, zero) == r;
    assert ReadFrom(r, word) == r.(digit := place.digit);
    if place.unit.Some? {
      assert UnitOf(place)[1..] == [];
    }
  }

  lemma PlaceDigits(n: nat)
    requires n < 10000
    ensures n / 1000 < 10
    ensures n / 1000 * 1000 + (n / 100 % 10 * 100 + (n / 10 % 10 * 10 + n % 10)) == n
  {
    var tens, hundreds := n / 10, n / 100;
    assert n == tens * 10 + n % 10;
    assert tens / 10 == hundreds && tens == hundreds * 10 + tens % 10;
    assert hundreds / 10 == n / 1000 && hundreds == n / 1000 * 10 + hundreds % 10;
  }

  lemma PlacesValueUnfolds(a: Place, b: Place, c: Place, d: Place)
    requires a.unit == Some('千') && b.unit == Some('百') && c.unit == Some('十') && d.unit == None
    ensures PlacesValue([a, b, c, d]) == a.digit * 1000 + (b.digit * 100 + (c.digit * 10 + d.digit))
  {
    assert [a, b, c, d][1..] == [b, c, d] && [b, c, d][1..] == [c, d] && [c, d][1..] == [d] && [d][1..] == [];
    assert PlacesValue([d]) == d.digit;
    assert PlacesValue([c, d]) == c.digit * 10 + PlacesValue([d]);
    assert PlacesValue([b, c, d]) == b.digit * 100 + PlacesValue([c, d]);
  }

  lemma SectionValue(n: nat)
    requires n < 10000
    ensures PlacesOk(Places(n)) && PlacesValue(Places(n)) == n
  {
    PlaceDigits(n);
    var p := Places(n);
    PlacesValueUnfolds(p[0], p[1], p[2], p[3]);
    assert p == [p[0], p[1], p[2], p[3]];
  }

  lemma {:induction false} ReadSection(n: nat, r: Reading)
    requires n < 10000 && r.digit == 0
    ensures var r' := ReadFrom(r, Section(n)); r'.myriads == r.myriads && r'.section + r'.digit == r.section + n
  {
    SectionValue(n);
    ReadPlaces(Places(n), false, false, r);
  }

  lemma {:induction false} ReadDropLeadingOne(s: string)
    ensures ReadFrom(Reading(0, 0, 0), DropLeadingOne(s)) == ReadFrom(Reading(0, 0, 0), s)
  {
  }

  lemma ReadFront(high: nat, low: nat)
    requires high < 10000 && low < 10000
    ensures ReadFrom(Reading(0, 0, 0), Front(high, low)) == Reading(high, 0, 0)
  {
    var start := Reading(0, 0, 0);
    if high > 0 {
      var bridge: string := if 0 < low < 1000 then ['零'] else [];
      ReadSection(high, start);
      ReadConcat(start, Section(high) + ['万'], bridge);
      ReadConcat(start, Section(high), ['万']);
      var r := ReadFrom(start, Section(high));
      assert ReadFrom(r, ['万']) == ReadChar(r, '万') == Reading(high, 0, 0);
      assert ReadFrom(Reading(high, 0, 0), bridge) == Reading(high, 0, 0);
    }
  }

  // The reader recovers every number the printer can be given.
  lemma CardinalRoundTrip(n: nat)
    requires n < 100_000_000
    ensures ReadNumeral(Cardinal(n)) == n
  {
    var high, low := n / 10000, n % 10000;
    assert n == high * 10000 + low;
    var out := Front(high, low) + Tail(high, low);
    ReadConcat(Reading(0, 0, 0), Front(high, low), Tail(high, low));
    ReadFront(high, low);
    ReadSection(low, Reading(high, 0, 0));
    ReadDropLeadingOne(out);
    if out == [] {
      assert ReadFrom(Reading(0, 0, 0), [DigitToWord(0)]) == Reading(0, 0, 0);
    }
  }

  // ---------- Injectivity on digit strings ----------

  lemma {:induction false} ValueBound(digits: string, k: nat)
    requires |digits| <= k
    ensures Value(digits) < Pow10(k)
  {
    if k == 0 {
    } else if digits == [] {
      ValueBound([], k - 1);
    } else {
      ValueBound(digits[..|digits| - 1], k - 1);
    }
  }

  function Pow10(k: nat): nat {
    if k == 0 then 1 else 10 * Pow10(k - 1)
  }

  // Up to eight digits fit the printer, so the 32-bit parse never fails on them.
  lemma {:induction false} ShortParses(digits: string)
    requires digits != [] && AllDigits(digits) && |digits| <= MAX_CARDINAL_DIGITS
    ensures Value(digits) < 100_000_000 && ParseU32(digits) == Some(Value(digits))
  {
    ValueBound(digits, 8);
    assert Pow10(8) == 100_000_000 by {
      assert Pow10(4) == 10000;
    }
  }

  // Without leading zeros the value determines the string.
  lemma {:induction false} ValueInjective(a: string, b: string)
    requires a != [] && b != [] && AllDigits(a) && AllDigits(b)
    requires (|a| > 1 ==> a[0] != '0') && (|b| > 1 ==> b[0] != '0')
    requires Value(a) == Value(b)
    ensures a == b
    decreases |a|
  {
    var a', b' := a[..|a| - 1], b[..|b| - 1];
    assert a == a' + [a[|a| - 1]] && b == b' + [b[|b| - 1]];
    assert Value(a') == Value(a) / 10 && Value(b') == Value(b) / 10;
    assert ToDigit(a[|a| - 1]) == ToDigit(b[|b| - 1]);
    if a' != [] {
      ValuePositive(a');
    }
    if b' != [] {
      ValuePositive(b');
    }
    if a' != [] && b' != [] {
      ValueInjective(a', b');
    }
  }

  lemma {:induction false} ValuePositive(s: string)
    requires s != [] && AllDigits(s) && s[0] != '0'
    ensures Value(s) > 0
  {
    if |s| > 1 {
      ValuePositive(s[..|s| - 1]);
    } else {
      assert s[..0] == [];
    }
  }

  lemma {:induction false} DigitWords(digits: string)
    requires AllDigits(digits)
    ensures |ReadDigitByDigit(digits)| == |digits|
    ensures forall i | 0 <= i < |digits| :: ReadDigitByDigit(digits)[i] == DigitToWord(ToDigit(digits[i]))
  {
    if digits != [] {
      DigitWords(digits[1..]);
    }
  }

  // A spoken number is a single digit word, or it contains a unit.
  predicate HasUnit(s: string) {
    exists i :: 0 <= i < |s| && s[i] in ['千', '百', '十', '万']
  }

  lemma HasUnitIn(a: string, b: string, c: string)
    requires HasUnit(b)
    ensures HasUnit(a + b + c)
  {
    var i :| 0 <= i < |b| && b[i] in ['千', '百', '十', '万'];
    assert (a + b + c)[|a| + i] == b[i];
  }

  lemma {:induction false} PlacesSayUnit(places: seq<Place>, started: bool, pendingZero: bool)
    requires PlacesOk(places) && exists i :: 0 <= i < |places| - 1 && places[i].digit != 0
    ensures HasUnit(SpeakPlaces(places, started, pendingZero))
  {
    var i :| 0 <= i < |places| - 1 && places[i].digit != 0;
    assert PlacesOk(places[1..]);
    if places[0].digit == 0 {
      assert places[1..][i - 1].digit != 0;
      PlacesSayUnit(places[1..], started, started);
    } else {
      var zero := if pendingZero then ['零'] else [];
      assert UnitOf(places[0])[0] in ['千', '百', '十', '万'];
      HasUnitIn(zero + [DigitToWord(places[0].digit)], UnitOf(places[0]), SpeakPlaces(places[1..], true, false));
    }
  }

  lemma SectionSaysUnit(n: nat)
    requires 10 <= n < 10000
    ensures HasUnit(Section(n))
  {
    SectionValue(n);
    var p := Places(n);
    assert p[0].digit != 0 || p[1].digit != 0 || p[2].digit != 0;
    PlacesSayUnit(p, false, false);
  }

  lemma DropLeadingOneKeepsUnit(s: string)
    requires HasUnit(s)
    ensures HasUnit(DropLeadingOne(s))
  {
    if DropLeadingOne(s) != s {
      assert s[1..][0] == '十';
    }
  }

  lemma SmallSection(n: nat)
    requires n < 10
    ensures Section(n) == if n == 0 then [] else [DigitToWord(n)]
  {
    var p := Places(n);
    assert p[0].digit == 0 && p[1].digit == 0 && p[2].digit == 0 && p[3].digit == n;
    SpeakUnfolds(p, 0, false, false);
    SpeakUnfolds(p, 1, false, false);
    SpeakUnfolds(p, 2, false, false);
    SpeakUnfolds(p, 3, false, false);
    assert p[0..] == p && p[4..] == [];
  }

  lemma LargeShape(high: nat, low: nat)
    requires low < 10000 && (high > 0 || low >= 10)
    ensures HasUnit(Front(high, low) + Tail(high, low))
  {
    hide Section, HasUnit;
    if high > 0 {
      var bridge: string := if 0 < low < 1000 then ['零'] else [];
      assert ['万'][0] == '万';
      HasUnitIn(Section(high), ['万'], bridge + Tail(high, low));
      assert Section(high) + ['万'] + (bridge + Tail(high, low)) == Front(high, low) + Tail(high, low);
    } else {
      SectionSaysUnit(low);
      assert Front(high, low) + Tail(high, low) == Section(low);
    }
  }

  lemma CardinalShape(n: nat)
    requires n < 100_000_000
    ensures n < 10 ==> Cardinal(n) == [DigitToWord(n)]
    ensures n >= 10 ==> HasUnit(Cardinal(n))
  {
    var high, low := n / 10000, n % 10000;
    if n < 10 {
      SmallSection(n);
      assert Front(high, low) + Tail(high, low) == Section(n);
    } else {
      LargeShape(high, low);
      DropLeadingOneKeepsUnit(Front(high, low) + Tail(high, low));
    }
  }

  // Reading digit by digit says no unit.
  lemma {:induction false} DigitWordsHaveNoUnit(digits: string)
    requires AllDigits(digits)
    ensures !HasUnit(ReadDigitByDigit(digits))
  {
    DigitWords(digits);
    var s := ReadDigitByDigit(digits);
    forall i | 0 <= i < |s| ensures s[i] !in ['千', '百', '十', '万'] {
      WordDigitInverts(ToDigit(digits[i]));
    }
  }

  lemma {:induction false} DigitWordsInjective(a: string, b: string)
    requires AllDigits(a) && AllDigits(b) && ReadDigitByDigit(a) == ReadDigitByDigit(b)
    ensures a == b
  {
    DigitWords(a);
    DigitWords(b);
    forall i | 0 <= i < |a| ensures a[i] == b[i] {
      WordDigitInverts(ToDigit(a[i]));
      WordDigitInverts(ToDigit(b[i]));
    }
  }

  // A digit string and a cardinal are never spoken alike.
  lemma CardinalIsNotDigitwise(a: string, b: string)
    requires a != [] && b != [] && AllDigits(a) && AllDigits(b)
    requires ReadAsCardinal(a) && !ReadAsCardinal(b)
    ensures Integer(a) != Integer(b)
  {
    ShortParses(a);
    CardinalShape(Value(a));
    DigitWordsHaveNoUnit(b);
    DigitWords(b);
  }

  // Different digit strings, of any length, are spoken differently.
  lemma IntegerInjective(a: string, b: string)
    requires a != [] && b != [] && AllDigits(a) && AllDigits(b)
    ensures Integer(a) == Integer(b) <==> a == b
  {
    if ReadAsCardinal(a) && ReadAsCardinal(b) {
      ShortParses(a);
      ShortParses(b);
      CardinalRoundTrip(Value(a));
      CardinalRoundTrip(Value(b));
      if Value(a) == Value(b) {
        ValueInjective(a, b);
      }
    } else if ReadAsCardinal(a) {
      CardinalIsNotDigitwise(a, b);
    } else if ReadAsCardinal(b) {
      CardinalIsNotDigitwise(b, a);
    } else if Integer(a) == Integer(b) {
      DigitWordsInjective(a, b);
    }
  }
}
