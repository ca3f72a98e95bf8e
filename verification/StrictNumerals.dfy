/**
 A strict reader of Chinese numerals. It wants each 零 where a place is skipped and nowhere else, and
 十 rather than 一十 at the front, and it accepts exactly what the number normaliser writes.
 */
module StrictNumerals {
  import opened Wrappers
  import opened Numerals

  // ---------- The reader ----------

  // The unit of the e-th place of a section, counted from the ones.
  function UnitAt(e: nat): string {
    match e
    case 4 => ['千']
    case 3 => ['百']
    case 2 => ['十']
    case _ => []
  }

  function ValueAt(e: nat): nat {
    match e
    case 4 => 1000
    case 3 => 100
    case 2 => 10
    case _ => 1
  }

  // What stands before a place: nothing at all, the place before it, or a gap.
  datatype Before = Nothing | Neighbour | Gap

  // A digit other than zero, with the unit of the e-th place.
  predicate StartsPlace(s: string, e: nat) {
    && s != [] && WordDigit(s[0]).Some? && WordDigit(s[0]).value > 0
    && UnitAt(e) <= s[1..]
  }

  // The e-th place is spoken next, after a 零 exactly if there is a gap before it.
  predicate SpeaksPlace(s: string, e: nat, before: Before) {
    if before.Gap? then s != [] && s[0] == '零' && StartsPlace(s[1..], e) else StartsPlace(s, e)
  }

  // The last e places of a section: their value, and the text behind them.
  function ReadPlaces(s: string, e: nat, before: Before): (nat, string) {
    if e == 0 then (0, s)
    else if SpeaksPlace(s, e, before) then
      var place := if before.Gap? then s[1..] else s;
      var (value, rest) := ReadPlaces(place[1 + |UnitAt(e)|..], e - 1, Neighbour);
      (WordDigit(place[0]).value * ValueAt(e) + value, rest)
    else ReadPlaces(s, e - 1, if before.Nothing? then Nothing else Gap)
  }

  // The thousands are the neighbour of the myriads before them.
  function ReadWhole(s: string): Option<nat> {
    var (high, rest) := ReadPlaces(s, 4, Nothing);
    if high == 0 then None
    else if rest == [] then Some(high)
    else if rest[0] != '万' then None
    else
      var (low, end) := ReadPlaces(rest[1..], 4, Neighbour);
      if end == [] then Some(high * 10000 + low) else None
  }

  function StrictRead(s: string): Option<nat> {
    if s == ['零'] then Some(0)
    else if ['一', '十'] <= s then None
    else if ['十'] <= s then ReadWhole(['一'] + s)
    else ReadWhole(s)
  }

  // ---------- One section ----------

  // The last e places of a section.
  predicate PlacesOf(places: seq<Place>, e: nat) {
    && |places| == e
    && forall i | 0 <= i < e :: places[i].digit < 10 && UnitOf(places[i]) == UnitAt(e - i)
  }

  function Sum(places: seq<Place>): nat {
    if places == [] then 0 else places[0].digit * ValueAt(|places|) + Sum(places[1..])
  }

  function Spell(places: seq<Place>, before: Before): string {
    SpeakPlaces(places, !before.Nothing?, before.Gap?)
  }

  // Text that can follow a section.
  predicate EndsSection(rest: string) {
    rest == [] || rest[0] == '万'
  }

  lemma DigitWord(d: nat)
    requires d < 10
    ensures WordDigit(DigitToWord(d)) == Some(d)
    ensures DigitToWord(d) != '千' && DigitToWord(d) != '百' && DigitToWord(d) != '十' && DigitToWord(d) != '万'
    ensures DigitToWord(d) == '零' <==> d == 0
  {
  }

  lemma WordOfDigit(c: char)
    requires WordDigit(c).Some?
    ensures WordDigit(c).value < 10 && DigitToWord(WordDigit(c).value) == c
  {
  }

  lemma {:induction false} SpellUnfolds(places: seq<Place>, before: Before)
    requires places != []
    ensures Spell(places, before) ==
      if places[0].digit == 0 then Spell(places[1..], if before.Nothing? then Nothing else Gap)
      else (if before.Gap? then ['零'] else []) + [DigitToWord(places[0].digit)] + UnitOf(places[0])
           + Spell(places[1..], Neighbour)
  {
  }

  // The text of the places below the e-th never looks like the e-th place itself.
  lemma {:induction false} LowerPlacesDiffer(places: seq<Place>, e: nat, before: Before, rest: string)
    requires e > |places| && PlacesOf(places, |places|) && |places| <= 3 && e <= 4 && EndsSection(rest)
    ensures before.Nothing? ==> !SpeaksPlace(Spell(places, Nothing) + rest, e, Nothing)
    ensures !before.Nothing? ==> !SpeaksPlace(Spell(places, Gap) + rest, e, before)
  {
    if places != [] {
      var now := if before.Nothing? then Nothing else Gap;
      SpellUnfolds(places, now);
      assert PlacesOf(places[1..], |places[1..]|);
      LowerPlacesDiffer(places[1..], e, before, rest);
      DigitWord(places[0].digit);
    }
  }

  // A digit in its place, with the 零 that a gap calls for.
  function PlaceText(d: nat, e: nat, before: Before): string {
    (if before.Gap? then ['零'] else []) + [DigitToWord(d)] + UnitAt(e)
  }

  lemma {:induction false} ReadsPlace(s: string, d: nat, e: nat, before: Before, below: string)
    requires 0 < d < 10 && e > 0 && s == PlaceText(d, e, before) + below
    ensures SpeaksPlace(s, e, before)
    ensures var (value, rest) := ReadPlaces(below, e - 1, Neighbour);
      ReadPlaces(s, e, before) == (d * ValueAt(e) + value, rest)
  {
    hide UnitAt, ValueAt, WordDigit, DigitToWord;
    DigitWord(d);
    var place := if before.Gap? then s[1..] else s;
    assert place == [DigitToWord(d)] + UnitAt(e) + below;
    assert place[1..] == UnitAt(e) + below;
    assert place[1 + |UnitAt(e)|..] == below;
  }

  lemma SplitsPlace(s: string, e: nat, before: Before) returns (d: nat, below: string)
    requires SpeaksPlace(s, e, before)
    ensures 0 < d < 10 && s == PlaceText(d, e, before) + below
  {
    hide UnitAt, WordDigit, DigitToWord;
    var place := if before.Gap? then s[1..] else s;
    WordOfDigit(place[0]);
    d, below := WordDigit(place[0]).value, place[1 + |UnitAt(e)|..];
    assert place == [place[0]] + UnitAt(e) + below;
  }

  lemma SpellPlace(place: Place, below: seq<Place>, e: nat, before: Before)
    requires place.digit > 0 && UnitOf(place) == UnitAt(e)
    ensures Spell([place] + below, before) == PlaceText(place.digit, e, before) + Spell(below, Neighbour)
  {
    hide UnitAt, DigitToWord, UnitOf;
    SpellUnfolds([place] + below, before);
    assert ([place] + below)[1..] == below;
  }

  lemma SpellNothing(place: Place, below: seq<Place>, before: Before)
    requires place.digit == 0
    ensures Spell([place] + below, before) == Spell(below, if before.Nothing? then Nothing else Gap)
  {
    SpellUnfolds([place] + below, before);
    assert ([place] + below)[1..] == below;
  }

  lemma {:induction false} SumMore(place: Place, below: seq<Place>)
    ensures Sum([place] + below) == place.digit * ValueAt(|below| + 1) + Sum(below)
  {
    assert ([place] + below)[1..] == below;
  }

  lemma ReadsNothing(s: string, e: nat, before: Before)
    requires e > 0 && !SpeaksPlace(s, e, before)
    ensures ReadPlaces(s, e, before) == ReadPlaces(s, e - 1, if before.Nothing? then Nothing else Gap)
  {
  }

  // The reader reads these places out of their spelling, and stops before the rest.
  ghost predicate ReadsThem(places: seq<Place>, before: Before, rest: string) {
    ReadPlaces(Spell(places, before) + rest, |places|, before) == (Sum(places), rest)
  }

  lemma SilentReadsBack(place: Place, below: seq<Place>, before: Before, rest: string)
    requires place.digit == 0 && |below| <= 3 && PlacesOf(below, |below|) && EndsSection(rest)
    requires ReadsThem(below, if before.Nothing? then Nothing else Gap, rest)
    ensures ReadsThem([place] + below, before, rest)
  {
    hide SpeaksPlace, Spell, ValueAt, Sum, PlacesOf, ReadPlaces;
    SpellNothing(place, below, before);
    LowerPlacesDiffer(below, |below| + 1, before, rest);
    ReadsNothing(Spell([place] + below, before) + rest, |below| + 1, before);
    SumMore(place, below);
  }

  lemma SpokenReadsBack(place: Place, below: seq<Place>, before: Before, rest: string)
    requires 0 < place.digit < 10 && UnitOf(place) == UnitAt(|below| + 1) && ReadsThem(below, Neighbour, rest)
    ensures ReadsThem([place] + below, before, rest)
  {
    hide SpeaksPlace, Spell, UnitAt, ValueAt, Sum, UnitOf, ReadPlaces, PlaceText;
    var e, tail := |below| + 1, Spell(below, Neighbour) + rest;
    SpellPlace(place, below, e, before);
    assert Spell([place] + below, before) + rest == PlaceText(place.digit, e, before) + tail;
    ReadsPlace(PlaceText(place.digit, e, before) + tail, place.digit, e, before, tail);
    SumMore(place, below);
  }

  lemma {:induction false} ReadsBack(places: seq<Place>, before: Before, rest: string)
    requires |places| <= 4 && PlacesOf(places, |places|) && EndsSection(rest)
    ensures ReadsThem(places, before, rest)
  {
    if places == [] {
      assert [] + rest == rest;
    } else {
      var place, below := places[0], places[1..];
      assert PlacesOf(below, |below|);
      assert place.digit < 10 && UnitOf(place) == UnitAt(|places| - 0);
      hide ReadsThem, UnitAt, UnitOf, PlacesOf;
      assert places == [place] + below;
      if place.digit == 0 {
        ReadsBack(below, if before.Nothing? then Nothing else Gap, rest);
        SilentReadsBack(place, below, before, rest);
      } else {
        ReadsBack(below, Neighbour, rest);
        SpokenReadsBack(place, below, before, rest);
      }
    }
  }

  function PlaceFor(d: nat, e: nat): (p: Place)
    ensures UnitOf(p) == UnitAt(e) && p.digit == d
  {
    Place(d, if UnitAt(e) == [] then None else Some(UnitAt(e)[0]))
  }

  lemma PlacesMore(place: Place, below: seq<Place>, e: nat)
    requires e > 0 && PlacesOf(below, e - 1) && place.digit < 10 && UnitOf(place) == UnitAt(e)
    ensures PlacesOf([place] + below, e)
  {
    hide UnitAt, UnitOf;
    var places := [place] + below;
    forall i | 0 <= i < e ensures places[i].digit < 10 && UnitOf(places[i]) == UnitAt(e - i) {
      if i > 0 {
        assert places[i] == below[i - 1] && e - 1 - (i - 1) == e - i;
      }
    }
  }

  // What the reader has read is these places spelt out, and the rest.
  ghost predicate ReadsThese(s: string, e: nat, before: Before, places: seq<Place>) {
    && |places| == e && PlacesOf(places, e)
    && var (value, rest) := ReadPlaces(s, e, before);
    value == Sum(places) && s == Spell(places, before) + rest
  }

  lemma ReadsSpoken(s: string, d: nat, e: nat, before: Before, text: string, below: seq<Place>)
    requires 0 < d < 10 && e > 0 && s == PlaceText(d, e, before) + text && ReadsThese(text, e - 1, Neighbour, below)
    ensures ReadsThese(s, e, before, [PlaceFor(d, e)] + below)
  {
    hide ReadPlaces, Spell, UnitAt, ValueAt, Sum, UnitOf, PlaceFor, PlacesOf, PlaceText;
    var place, rest := PlaceFor(d, e), ReadPlaces(text, e - 1, Neighbour).1;
    ReadsPlace(s, d, e, before, text);
    SpellPlace(place, below, e, before);
    assert PlaceText(d, e, before) + (Spell(below, Neighbour) + rest)
      == PlaceText(d, e, before) + Spell(below, Neighbour) + rest;
    SumMore(place, below);
    PlacesMore(place, below, e);
  }

  lemma ReadsSilent(s: string, e: nat, before: Before, below: seq<Place>)
    requires e > 0 && !SpeaksPlace(s, e, before)
    requires ReadsThese(s, e - 1, if before.Nothing? then Nothing else Gap, below)
    ensures ReadsThese(s, e, before, [PlaceFor(0, e)] + below)
  {
    hide SpeaksPlace, Spell, UnitAt, ValueAt, Sum, UnitOf, PlaceFor, PlacesOf;
    var place := PlaceFor(0, e);
    SpellNothing(place, below, before);
    SumMore(place, below);
    PlacesMore(place, below, e);
  }

  // Whatever the reader reads has been spelt.
  lemma {:induction false} ReadAsSpelt(s: string, e: nat, before: Before) returns (places: seq<Place>)
    ensures ReadsThese(s, e, before, places)
    decreases e
  {
    if e == 0 {
      places := [];
      assert s == [] + s;
    } else {
      hide ReadsThese, ReadPlaces, SpeaksPlace, PlaceFor, PlaceText;
      var d, below := 0, [];
      if SpeaksPlace(s, e, before) {
        var text;
        d, text := SplitsPlace(s, e, before);
        below := ReadAsSpelt(text, e - 1, Neighbour);
        ReadsSpoken(s, d, e, before, text, below);
      } else {
        below := ReadAsSpelt(s, e - 1, if before.Nothing? then Nothing else Gap);
        ReadsSilent(s, e, before, below);
      }
      places := [PlaceFor(d, e)] + below;
    }
  }

  lemma {:induction false} SumOfFour(places: seq<Place>)
    requires PlacesOf(places, 4)
    ensures Sum(places)
      == places[0].digit * 1000 + places[1].digit * 100 + places[2].digit * 10 + places[3].digit
  {
    assert places[1..][0] == places[1] && places[1..][1..] == places[2..];
    assert places[2..][0] == places[2] && places[2..][1..] == places[3..];
    assert places[3..][0] == places[3] && places[3..][1..] == [];
    assert Sum(places[3..]) == places[3].digit;
    assert Sum(places[2..]) == places[2].digit * 10 + Sum(places[3..]);
    assert Sum(places[1..]) == places[1].digit * 100 + Sum(places[2..]);
  }

  lemma DigitsAreUnique(a: nat, b: nat, c: nat, d: nat, n: nat)
    requires a < 10 && b < 10 && c < 10 && d < 10 && a * 1000 + b * 100 + c * 10 + d == n
    ensures n < 10000 && n / 1000 == a && n / 100 % 10 == b && n / 10 % 10 == c && n % 10 == d
  {
    assert n / 10 == a * 100 + b * 10 + c;
    assert n / 100 == a * 10 + b;
  }

  lemma UnitIsItsText(p: Place, q: Place)
    requires UnitOf(p) == UnitOf(q) && p.digit == q.digit
    ensures p == q
  {
    if p.unit.Some? && q.unit.Some? {
      assert UnitOf(p)[0] == UnitOf(q)[0];
    }
  }

  // The places of a section are the only ones with its value.
  lemma {:induction false} PlacesAreUnique(places: seq<Place>, n: nat)
    requires PlacesOf(places, 4) && Sum(places) == n
    ensures n < 10000 && places == Places(n)
  {
    hide Sum, UnitOf, UnitAt;
    SumOfFour(places);
    DigitsAreUnique(places[0].digit, places[1].digit, places[2].digit, places[3].digit, n);
    SectionPlaces(n);
    forall i | 0 <= i < 4 ensures places[i] == Places(n)[i] {
      UnitIsItsText(places[i], Places(n)[i]);
    }
  }

  lemma SectionPlaces(n: nat)
    requires n < 10000
    ensures PlacesOf(Places(n), 4) && Sum(Places(n)) == n
  {
    PlaceDigits(n);
    SumOfFour(Places(n));
  }

  // ---------- Whole numbers ----------

  // What is written before a leading 一十 loses its 一.
  function Written(n: nat): string {
    Front(n / 10000, n % 10000) + Tail(n / 10000, n % 10000)
  }

  lemma {:induction false} NothingSpelt(places: seq<Place>, before: Before)
    requires PlacesOf(places, |places|) && |places| <= 4 && Sum(places) == 0
    ensures Spell(places, before) == []
  {
    if places != [] {
      assert PlacesOf(places[1..], |places[1..]|);
      SpellUnfolds(places, before);
      NothingSpelt(places[1..], if before.Nothing? then Nothing else Gap);
    }
  }

  // Behind a gap the same words follow a 零.
  lemma {:induction false} GapAddsZero(places: seq<Place>)
    requires PlacesOf(places, |places|) && |places| <= 4 && Sum(places) > 0
    ensures Spell(places, Gap) == ['零'] + Spell(places, Nothing)
  {
    SpellUnfolds(places, Gap);
    SpellUnfolds(places, Nothing);
    if places[0].digit == 0 {
      assert PlacesOf(places[1..], |places[1..]|);
      GapAddsZero(places[1..]);
    }
  }

  // The bridge between the myriads and the rest is the 零 of a gap in the thousands.
  lemma {:induction false} BridgeIsGap(low: nat)
    requires low < 10000
    ensures (if 0 < low < 1000 then ['零'] else []) + (if low > 0 then Section(low) else [])
      == Spell(Places(low), Neighbour)
  {
    SectionPlaces(low);
    var places := Places(low);
    SumOfFour(places);
    if low == 0 {
      NothingSpelt(places, Neighbour);
    } else {
      SpellUnfolds(places, Neighbour);
      SpellUnfolds(places, Nothing);
      if low < 1000 {
        assert PlacesOf(places[1..], 3);
        hide Spell;
        GapAddsZero(places[1..]);
      }
      SectionIsSpelt(low);
    }
  }

  lemma {:induction false} SectionIsSpelt(n: nat)
    ensures Section(n) == Spell(Places(n), Nothing)
  {
  }

  lemma {:induction false} WrittenIsSpelt(n: nat)
    requires 0 < n < 100_000_000
    ensures n / 10000 < 10000
    ensures Written(n) ==
      if n < 10000 then Spell(Places(n), Nothing)
      else Spell(Places(n / 10000), Nothing) + (['万'] + Spell(Places(n % 10000), Neighbour))
  {
    var high, low := n / 10000, n % 10000;
    hide Section, Spell, Places;
    BridgeIsGap(low);
    SectionIsSpelt(low);
    SectionIsSpelt(high);
    assert n < 10000 ==> high == 0 && low == n;
  }

  lemma {:induction false} ReadsSection(n: nat, before: Before, rest: string)
    requires n < 10000 && EndsSection(rest)
    ensures ReadPlaces(Spell(Places(n), before) + rest, 4, before) == (n, rest)
  {
    hide Spell, Sum, ReadPlaces;
    SectionPlaces(n);
    ReadsBack(Places(n), before, rest);
  }

  lemma {:induction false} ReadsWritten(n: nat)
    requires 0 < n < 100_000_000
    ensures ReadWhole(Written(n)) == Some(n)
  {
    hide Written, Spell, Places, ReadPlaces;
    var high, low := n / 10000, n % 10000;
    WrittenIsSpelt(n);
    if n < 10000 {
      ReadsSection(n, Nothing, []);
      assert Spell(Places(n), Nothing) + [] == Written(n);
    } else {
      var text := Spell(Places(low), Neighbour);
      ReadsSection(high, Nothing, ['万'] + text);
      ReadsSection(low, Neighbour, []);
      assert text + [] == text && (['万'] + text)[1..] == text;
    }
  }

  lemma {:induction false} OnlyWrittenIsRead(s: string, n: nat)
    requires ReadWhole(s) == Some(n)
    ensures 0 < n < 100_000_000 && s == Written(n)
  {
    hide Written, Spell, Places, ReadPlaces, Sum, PlacesOf;
    var (high, rest) := ReadPlaces(s, 4, Nothing);
    var above := ReadAsSpelt(s, 4, Nothing);
    PlacesAreUnique(above, high);
    if rest == [] {
      assert s == Spell(Places(n), Nothing);
    } else {
      var (low, end) := ReadPlaces(rest[1..], 4, Neighbour);
      var below := ReadAsSpelt(rest[1..], 4, Neighbour);
      PlacesAreUnique(below, low);
      assert n / 10000 == high && n % 10000 == low;
      assert rest == ['万'] + Spell(Places(low), Neighbour);
    }
    WrittenIsSpelt(n);
  }

  // The first word of a number is a digit other than zero.
  lemma {:induction false} SpeltStart(places: seq<Place>)
    requires PlacesOf(places, |places|) && |places| <= 4 && Sum(places) > 0
    ensures var s := Spell(places, Nothing); s != [] && s[0] != '十' && s[0] != '零'
  {
    SpellUnfolds(places, Nothing);
    if places[0].digit == 0 {
      assert PlacesOf(places[1..], |places[1..]|);
      SpeltStart(places[1..]);
    } else {
      DigitWord(places[0].digit);
    }
  }

  lemma {:induction false} WrittenStart(n: nat)
    requires 0 < n < 100_000_000
    ensures var s := Written(n); s != [] && s[0] != '十' && s[0] != '零'
  {
    WrittenIsSpelt(n);
    var top := if n < 10000 then n else n / 10000;
    SectionPlaces(top);
    assert |Places(top)| == 4;
    hide Written, Spell, Places, Sum, PlacesOf;
    SpeltStart(Places(top));
  }

  // ---------- Main result ----------

  // The strict reader reads a text as n exactly if the normaliser writes n so: every 零 stands for a
  // gap and every gap has one, also across 万, and 十 stands at the front for 一十.
  lemma {:induction false} StrictReadsExactly(s: string, n: nat)
    ensures StrictRead(s) == Some(n) <==> n < 100_000_000 && s == Cardinal(n)
  {
    hide Cardinal, ReadWhole, Written;
    NothingWritten();
    if 0 < n < 100_000_000 {
      WrittenStart(n);
      ReadsWritten(n);
      CardinalIsWritten(n);
    }
    if s == ['零'] || ['一', '十'] <= s {
    } else {
      var whole := if ['十'] <= s then ['一'] + s else s;
      Unshortened(s, whole);
      if ReadWhole(whole).Some? {
        OnlyWrittenIsRead(whole, ReadWhole(whole).value);
      }
      if 0 < n < 100_000_000 {
        ShortenedIs(Written(n), s, whole);
      }
    }
  }

  lemma CardinalIsWritten(n: nat)
    requires 0 < n < 100_000_000
    ensures Cardinal(n) == DropLeadingOne(Written(n))
  {
    hide DropLeadingOne;
    WrittenStart(n);
  }

  lemma Unshortened(s: string, whole: string)
    requires !(['一', '十'] <= s) && whole == if ['十'] <= s then ['一'] + s else s
    ensures DropLeadingOne(whole) == s
  {
  }

  // A written number is the text that its shortened form stands for.
  lemma ShortenedIs(written: string, s: string, whole: string)
    requires written != [] && written[0] != '十' && !(['一', '十'] <= s)
    requires whole == if ['十'] <= s then ['一'] + s else s
    ensures DropLeadingOne(written) == s <==> written == whole
  {
    if DropLeadingOne(written) == s && ['十'] <= s {
      assert written == ['一'] + written[1..];
    }
  }

  lemma NothingWritten()
    ensures Cardinal(0) == ['零']
  {
    SectionPlaces(0);
    NothingSpelt(Places(0), Nothing);
    SectionIsSpelt(0);
  }

  // Digit strings: up to eight digits without a leading zero are read as the number they write, all
  // others digit by digit.
  lemma {:induction false} IntegerReads(digits: string)
    requires digits != [] && AllDigits(digits)
    ensures
      if |digits| <= 8 && (|digits| == 1 || digits[0] != '0') then StrictRead(Integer(digits)) == Some(Value(digits))
      else && |Integer(digits)| == |digits|
           && forall i | 0 <= i < |digits| :: WordDigit(Integer(digits)[i]) == Some((digits[i] - '0') as int)
  {
    hide StrictRead, Cardinal, ReadDigitByDigit, Value, DigitToWord, WordDigit;
    if ReadAsCardinal(digits) {
      ShortParses(digits);
      StrictReadsExactly(Cardinal(Value(digits)), Value(digits));
    } else {
      DigitWords(digits);
      forall i | 0 <= i < |digits| ensures WordDigit(ReadDigitByDigit(digits)[i]) == Some((digits[i] - '0') as int) {
        DigitWord(ToDigit(digits[i]));
      }
    }
  }
}
