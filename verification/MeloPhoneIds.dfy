/** MeloTTS's mapper of phone and tone pairs: one search bound, two id lists filled in lock-step. */
module MeloPhoneIds {
  import opened Wrappers
  import opened LongestMatch

  type Pair = (string, string)

  function FirstIdOr(lists: map<string, seq<int>>, key: string, default: int): int {
    if key in lists && lists[key] != [] then lists[key][0] else default
  }

  function ToneOr(tones: map<string, int>, symbol: string, default: int): int {
    if symbol in tones then tones[symbol] else default
  }

  // The tone that stands beside blanks and unknown tones.
  function BlankTone(tones: map<string, int>): int {
    ToneOr(tones, ['_'], 0)
  }

  // The matched phones of all pairs in order, each with its own pair's tone.
  function MatchedPhones(lists: map<string, seq<int>>, pairs: seq<Pair>): seq<int> {
    if pairs == [] then []
    else MatchedPhones(lists, pairs[..|pairs| - 1]) + TokenIds(FirstIds(lists), pairs[|pairs| - 1].0, 0)
  }

  function MatchedTones(lists: map<string, seq<int>>, tones: map<string, int>, pairs: seq<Pair>): (r: seq<int>)
    ensures |r| == |MatchedPhones(lists, pairs)|
  {
    if pairs == [] then []
    else
      var last := pairs[|pairs| - 1];
      var count := |TokenIds(FirstIds(lists), last.0, 0)|;
      MatchedTones(lists, tones, pairs[..|pairs| - 1]) + Repeat(ToneOr(tones, last.1, BlankTone(tones)), count)
  }

  function Repeat(x: int, n: nat): (r: seq<int>)
    ensures |r| == n && forall k | 0 <= k < n :: r[k] == x
  {
    seq(n, _ => x)
  }

  method LongestEntry(lists: map<string, seq<int>>) returns (longest: nat)
    ensures forall key | key in lists :: |key| <= longest
    ensures longest == 1 || exists key :: key in lists && |key| == longest
    ensures longest >= 1
  {
    longest := 1;
    var rest := lists.Keys;
    while rest != {}
      invariant rest <= lists.Keys && longest >= 1
      invariant forall key | key in lists.Keys - rest :: |key| <= longest
      invariant longest == 1 || exists key :: key in lists && |key| == longest
      decreases rest
    {
      var key :| key in rest;
      if longest < |key| {
        longest := |key|;
      }
      rest := rest - {key};
    }
  }

  // The two lists MeloTTS produces, by the plain longest match over all usable keys.
  function PhoneIds(lists: map<string, seq<int>>, pairs: seq<Pair>): seq<int> {
    [FirstIdOr(lists, ['^'], 0)] + WithPads(MatchedPhones(lists, pairs), FirstIdOr(lists, ['_'], 0))
      + [FirstIdOr(lists, ['$'], 0)]
  }

  function ToneIds(lists: map<string, seq<int>>, tones: map<string, int>, pairs: seq<Pair>): seq<int> {
    [BlankTone(tones)] + WithPads(MatchedTones(lists, tones, pairs), BlankTone(tones)) + [BlankTone(tones)]
  }

  method MapPhoneTonePairsToIds(lists: map<string, seq<int>>, tones: map<string, int>, pairs: seq<Pair>)
    returns (phoneIds: seq<int>, toneIds: seq<int>)
    ensures phoneIds == PhoneIds(lists, pairs) && toneIds == ToneIds(lists, tones, pairs)
  {
    var bos, eos, blank := FirstIdOr(lists, ['^'], 0), FirstIdOr(lists, ['$'], 0), FirstIdOr(lists, ['_'], 0);
    var blankTone := BlankTone(tones);
    var longest := LongestEntry(lists);
    phoneIds, toneIds := [bos], [blankTone];
    for n := 0 to |pairs|
      invariant phoneIds == PhonesSoFar(lists, pairs, n) && toneIds == TonesSoFar(lists, tones, pairs, n)
    {
      var tone := ToneOr(tones, pairs[n].1, blankTone);
      var phones, marks := MapChunk(lists, pairs[n].0, longest, tone, blank, blankTone);
      OnePairMore(lists, tones, pairs, n);
      phoneIds, toneIds := phoneIds + phones, toneIds + marks;
    }
    assert pairs[..|pairs|] == pairs;
    phoneIds, toneIds := phoneIds + [eos], toneIds + [blankTone];
  }

  // The lists after the first n pairs.
  function PhonesSoFar(lists: map<string, seq<int>>, pairs: seq<Pair>, n: nat): seq<int>
    requires n <= |pairs|
  {
    [FirstIdOr(lists, ['^'], 0)] + WithPads(MatchedPhones(lists, pairs[..n]), FirstIdOr(lists, ['_'], 0))
  }

  function TonesSoFar(lists: map<string, seq<int>>, tones: map<string, int>, pairs: seq<Pair>, n: nat): seq<int>
    requires n <= |pairs|
  {
    [BlankTone(tones)] + WithPads(MatchedTones(lists, tones, pairs[..n]), BlankTone(tones))
  }

  lemma {:induction false} MatchesMore(lists: map<string, seq<int>>, tones: map<string, int>, pairs: seq<Pair>, n: nat)
    requires n < |pairs|
    ensures var ids := TokenIds(FirstIds(lists), pairs[n].0, 0);
      var tone := ToneOr(tones, pairs[n].1, BlankTone(tones));
      && MatchedPhones(lists, pairs[..n + 1]) == MatchedPhones(lists, pairs[..n]) + ids
      && MatchedTones(lists, tones, pairs[..n + 1]) == MatchedTones(lists, tones, pairs[..n]) + Repeat(tone, |ids|)
  {
    hide TokenIds;
    assert pairs[..n + 1][..|pairs[..n + 1]| - 1] == pairs[..n];
  }

  lemma {:induction false} FramedConcat(head: int, a: seq<int>, b: seq<int>, pad: int)
    ensures [head] + WithPads(a + b, pad) == [head] + WithPads(a, pad) + WithPads(b, pad)
  {
    PadsOfConcat(a, b, pad);
  }

  lemma OnePairMore(lists: map<string, seq<int>>, tones: map<string, int>, pairs: seq<Pair>, n: nat)
    requires n < |pairs|
    ensures var ids := TokenIds(FirstIds(lists), pairs[n].0, 0);
      var tone := ToneOr(tones, pairs[n].1, BlankTone(tones));
      && PhonesSoFar(lists, pairs, n + 1) == PhonesSoFar(lists, pairs, n) + WithPads(ids, FirstIdOr(lists, ['_'], 0))
      && TonesSoFar(lists, tones, pairs, n + 1)
         == TonesSoFar(lists, tones, pairs, n) + WithPads(Repeat(tone, |ids|), BlankTone(tones))
  {
    hide TokenIds, WithPads, MatchedPhones, MatchedTones;
    var ids := TokenIds(FirstIds(lists), pairs[n].0, 0);
    var tone := ToneOr(tones, pairs[n].1, BlankTone(tones));
    MatchesMore(lists, tones, pairs, n);
    FramedConcat(FirstIdOr(lists, ['^'], 0), MatchedPhones(lists, pairs[..n]), ids, FirstIdOr(lists, ['_'], 0));
    FramedConcat(BlankTone(tones), MatchedTones(lists, tones, pairs[..n]), Repeat(tone, |ids|), BlankTone(tones));
  }

  lemma {:induction false} ToneStep(out: seq<int>, tone: int, left: nat, pad: int, whole: seq<int>)
    requires out + WithPads(Repeat(tone, left + 1), pad) == whole
    ensures out + [tone] + [pad] + WithPads(Repeat(tone, left), pad) == whole
  {
    assert Repeat(tone, left + 1) == [tone] + Repeat(tone, left);
    PadStep(out, tone, Repeat(tone, left), Repeat(tone, left + 1), pad, whole);
  }

  lemma NoWiderKey(lists: map<string, seq<int>>, chars: string, cursor: nat, longest: nat)
    requires forall key | key in lists :: |key| <= longest
    ensures forall w | longest < w <= |chars| - cursor :: !KeyAt(FirstIds(lists), chars, cursor, w)
  {
  }

  // One pair: the two lists grow together, a phone and a blank beside the tone and a blank tone.
  method MapChunk(lists: map<string, seq<int>>, chars: string, longest: nat, tone: int, blank: int, blankTone: int)
    returns (phones: seq<int>, tonesOut: seq<int>)
    requires forall key | key in lists :: |key| <= longest
    ensures var ids := TokenIds(FirstIds(lists), chars, 0);
      phones == WithPads(ids, blank) && tonesOut == WithPads(Repeat(tone, |ids|), blankTone)
  {
    hide TokenIds, WithPads, KeyAt, FirstIds, Repeat;
    ghost var table := FirstIds(lists);
    ghost var ids := TokenIds(table, chars, 0);
    phones, tonesOut := [], [];
    var cursor := 0;
    while cursor < |chars|
      invariant cursor <= |chars|
      invariant phones + WithPads(TokenIds(table, chars, cursor), blank) == WithPads(ids, blank)
      invariant tonesOut + WithPads(Repeat(tone, |TokenIds(table, chars, cursor)|), blankTone)
        == WithPads(Repeat(tone, |ids|), blankTone)
      decreases |chars| - cursor
    {
      NoWiderKey(lists, chars, cursor, longest);
      var matched := NextMatch(lists, chars, cursor, longest);
      match matched {
        case Some((width, id)) =>
          ghost var todo, rest := TokenIds(table, chars, cursor), TokenIds(table, chars, cursor + width);
          PadStep(phones, id, rest, todo, blank, WithPads(ids, blank));
          ToneStep(tonesOut, tone, |rest|, blankTone, WithPads(Repeat(tone, |ids|), blankTone));
          phones := phones + [id];
          phones := phones + [blank];
          tonesOut := tonesOut + [tone];
          tonesOut := tonesOut + [blankTone];
          cursor := cursor + width;
        case None =>
          cursor := cursor + 1;
      }
    }
    NoIdsAtEnd(table, chars);
    NoPads(blank);
    NoPads(blankTone);
    assert Repeat(tone, 0) == [];
  }

  // Both lists have length 2m + 2 for m matches; the j-th match stands with its own tone, and
  // every other place holds a blank with the blank tone.
  lemma {:induction false} ListsInLockStep(lists: map<string, seq<int>>, tones: map<string, int>,
                                          pairs: seq<Pair>, j: nat)
    requires j < |MatchedPhones(lists, pairs)|
    ensures |PhoneIds(lists, pairs)| == |ToneIds(lists, tones, pairs)| == 2 * |MatchedPhones(lists, pairs)| + 2
    ensures PhoneIds(lists, pairs)[2 * j + 1] == MatchedPhones(lists, pairs)[j]
    ensures ToneIds(lists, tones, pairs)[2 * j + 1] == MatchedTones(lists, tones, pairs)[j]
    ensures PhoneIds(lists, pairs)[2 * j + 2] == FirstIdOr(lists, ['_'], 0)
    ensures ToneIds(lists, tones, pairs)[2 * j + 2] == BlankTone(tones)
  {
    FramedPads(FirstIdOr(lists, ['^'], 0), MatchedPhones(lists, pairs), FirstIdOr(lists, ['_'], 0),
               FirstIdOr(lists, ['$'], 0), j);
    FramedPads(BlankTone(tones), MatchedTones(lists, tones, pairs), BlankTone(tones), BlankTone(tones), j);
  }

  // The id of a key that the phone map may lack.
  predicate IsFirstIdOf(lists: map<string, seq<int>>, key: string, id: int) {
    id == if key in lists && |lists[key]| > 0 then lists[key][0] else 0
  }

  // The frame and the blanks: the first phone id is that of ^, the last that of $ and the j-th blank
  // that of _, each 0 when the map has none. Beside all of them stands the tone of _, which is also
  // the tone of a symbol without one.
  lemma {:induction false} FrameAndBlanks(lists: map<string, seq<int>>, tones: map<string, int>,
                                          pairs: seq<Pair>, j: nat)
    requires j < |MatchedPhones(lists, pairs)|
    ensures var phones, marks, m := PhoneIds(lists, pairs), ToneIds(lists, tones, pairs), |MatchedPhones(lists, pairs)|;
      && |phones| == |marks| == 2 * m + 2
      && IsFirstIdOf(lists, "^", phones[0]) && IsFirstIdOf(lists, "$", phones[2 * m + 1])
      && IsFirstIdOf(lists, "_", phones[2 * j + 2])
      && marks[0] == marks[2 * j + 2] == marks[2 * m + 1] == (if "_" in tones then tones["_"] else 0)
      && forall symbol | symbol !in tones :: ToneOr(tones, symbol, BlankTone(tones)) == marks[0]
  {
    hide WithPads, MatchedPhones, MatchedTones;
    FramedPads(FirstIdOr(lists, ['^'], 0), MatchedPhones(lists, pairs), FirstIdOr(lists, ['_'], 0),
               FirstIdOr(lists, ['$'], 0), j);
    FramedPads(BlankTone(tones), MatchedTones(lists, tones, pairs), BlankTone(tones), BlankTone(tones), j);
  }

  // The tone of the j-th match is the tone of the pair the match came from.
  lemma {:induction false} MatchCarriesItsPairsTone(lists: map<string, seq<int>>, tones: map<string, int>,
                                                   pairs: seq<Pair>, j: nat)
    returns (n: nat, k: nat)
    requires j < |MatchedPhones(lists, pairs)|
    ensures n < |pairs| && j == |MatchedPhones(lists, pairs[..n])| + k
    ensures var ids := TokenIds(FirstIds(lists), pairs[n].0, 0);
      k < |ids| && MatchedPhones(lists, pairs)[j] == ids[k]
    ensures MatchedTones(lists, tones, pairs)[j] == ToneOr(tones, pairs[n].1, BlankTone(tones))
  {
    var last := |pairs| - 1;
    if j < |MatchedPhones(lists, pairs[..last])| {
      n, k := MatchCarriesItsPairsTone(lists, tones, pairs[..last], j);
      assert pairs[..last][..n] == pairs[..n];
    } else {
      n, k := last, j - |MatchedPhones(lists, pairs[..last])|;
    }
  }

  // Kokoro's ids of each pair's phone, one after another.
  function PlainIds(table: Table, pairs: seq<Pair>): seq<int> {
    if pairs == [] then []
    else PlainIds(table, pairs[..|pairs| - 1]) + TokenIds(table, pairs[|pairs| - 1].0, 0)
  }

  lemma {:induction false} MatchedArePlain(lists: map<string, seq<int>>, pairs: seq<Pair>)
    ensures MatchedPhones(lists, pairs) == PlainIds(FirstIds(lists), pairs)
  {
    hide TokenIds, FirstIds;
    if pairs != [] {
      MatchedArePlain(lists, pairs[..|pairs| - 1]);
    }
  }

  // On a shared map with one id per key, MeloTTS's phone ids without begin, end and blanks are
  // Kokoro's ids of the phones.
  lemma {:induction false} MeloAgreesWithKokoro(table: Table, pairs: seq<Pair>)
    ensures var lists := map key | key in table :: [table[key]];
      Unpadded(PhoneIds(lists, pairs)) == PlainIds(table, pairs)
  {
    var lists := map key | key in table :: [table[key]];
    assert FirstIds(lists) == table;
    MatchedArePlain(lists, pairs);
    UnpaddedWithPads(FirstIdOr(lists, ['^'], 0), MatchedPhones(lists, pairs), FirstIdOr(lists, ['_'], 0),
                     FirstIdOr(lists, ['$'], 0));
  }
}
