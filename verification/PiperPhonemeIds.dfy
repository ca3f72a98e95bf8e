/** Piper's phoneme mapper: an index of the longest key per first character bounds the search. */
module PiperPhonemeIds {
  import opened Wrappers
  import opened LongestMatch

  function Max(a: nat, b: nat): nat {
    if a < b then b else a
  }

  // The index covers the keys seen: no seen key is longer than its first character's entry.
  ghost predicate Covers(index: map<char, nat>, seen: set<string>) {
    forall key | key in seen && key != [] :: key[0] in index && |key| <= index[key[0]]
  }

  method LongestEntryByFirstChar(phonemeIdMap: map<string, seq<int>>) returns (index: map<char, nat>)
    ensures Covers(index, phonemeIdMap.Keys)
    ensures forall c | c in index :: exists key :: key in phonemeIdMap && key != [] && key[0] == c && |key| == index[c]
  {
    index := map[];
    var rest := phonemeIdMap.Keys;
    while rest != {}
      invariant rest <= phonemeIdMap.Keys && Covers(index, phonemeIdMap.Keys - rest)
      invariant forall c | c in index ::
        exists key :: key in phonemeIdMap && key != [] && key[0] == c && |key| == index[c]
      decreases rest
    {
      var entry :| entry in rest;
      ghost var before := rest;
      rest := rest - {entry};
      if entry != [] {
        var slot := if entry[0] in index then index[entry[0]] else 0;
        index := index[entry[0] := Max(slot, |entry|)];
        assert phonemeIdMap.Keys - rest == (phonemeIdMap.Keys - before) + {entry};
      }
    }
  }

  // The ids Piper produces, by the plain longest match over all usable keys.
  function PhonemeIds(phonemeIdMap: map<string, seq<int>>, phonemes: string, pad: int, bos: int, eos: int): seq<int> {
    [bos] + WithPads(TokenIds(FirstIds(phonemeIdMap), phonemes, 0), pad) + [eos]
  }

  function EntryFor(index: map<char, nat>, c: char): nat {
    if c in index then index[c] else 0
  }

  // No usable key at the cursor is longer than its first character's entry.
  lemma IndexBoundsSearch(phonemeIdMap: map<string, seq<int>>, index: map<char, nat>, chars: string, cursor: nat)
    requires Covers(index, phonemeIdMap.Keys) && cursor < |chars|
    ensures forall w | EntryFor(index, chars[cursor]) < w <= |chars| - cursor
      :: !KeyAt(FirstIds(phonemeIdMap), chars, cursor, w)
  {
    forall w | EntryFor(index, chars[cursor]) < w <= |chars| - cursor
      ensures !KeyAt(FirstIds(phonemeIdMap), chars, cursor, w)
    {
      assert chars[cursor..cursor + w][0] == chars[cursor];
    }
  }

  method MapPhonemesToIds(phonemeIdMap: map<string, seq<int>>, phonemes: string, pad: int, bos: int, eos: int)
    returns (ids: seq<int>)
    ensures ids == PhonemeIds(phonemeIdMap, phonemes, pad, bos, eos)
  {
    hide TokenIds, WithPads, KeyAt, FirstIds;
    var index := LongestEntryByFirstChar(phonemeIdMap);
    ghost var table := FirstIds(phonemeIdMap);
    ghost var whole := [bos] + WithPads(TokenIds(table, phonemes, 0), pad);
    ids := [bos];
    var cursor := 0;
    while cursor < |phonemes|
      invariant cursor <= |phonemes|
      invariant ids + WithPads(TokenIds(table, phonemes, cursor), pad) == whole
      decreases |phonemes| - cursor
    {
      IndexBoundsSearch(phonemeIdMap, index, phonemes, cursor);
      var longest := EntryFor(index, phonemes[cursor]);
      var matched := NextMatch(phonemeIdMap, phonemes, cursor, longest);
      match matched {
        case Some((width, id)) =>
          PadStep(ids, id, TokenIds(table, phonemes, cursor + width), TokenIds(table, phonemes, cursor), pad, whole);
          ids := ids + [id];
          ids := ids + [pad];
          cursor := cursor + width;
        case None =>
          cursor := cursor + 1;
      }
    }
    NoIdsAtEnd(table, phonemes);
    NoPads(pad);
    assert ids == whole;
    ids := ids + [eos];
  }

  // ---------- The ids around the phonemes ----------

  // The first id of a token every voice needs; the error names the token.
  function RequiredId(phonemeIdMap: map<string, seq<int>>, token: string): Result<int, string> {
    if token in phonemeIdMap && phonemeIdMap[token] != [] then Success(phonemeIdMap[token][0]) else Failure(token)
  }

  // The ids of pad, begin and end, in this order; the first that is missing fails the lookup.
  function MetaIds(phonemeIdMap: map<string, seq<int>>): Result<(int, int, int), string> {
    match (RequiredId(phonemeIdMap, ['_']), RequiredId(phonemeIdMap, ['^']), RequiredId(phonemeIdMap, ['$']))
    case (Success(pad), Success(bos), Success(eos)) => Success((pad, bos, eos))
    case (Failure(token), _, _) => Failure(token)
    case (_, Failure(token), _) => Failure(token)
    case (_, _, Failure(token)) => Failure(token)
  }

  predicate Lacks(phonemeIdMap: map<string, seq<int>>, token: string) {
    token in phonemeIdMap ==> phonemeIdMap[token] == []
  }

  // What a voice makes of its phonemes: the id of ^, each matched id with the id of _ behind it, and
  // the id of $.
  lemma {:induction false} IdsInPlace(phonemeIdMap: map<string, seq<int>>, phonemes: string, j: nat)
    ensures match MetaIds(phonemeIdMap)
      case Failure(token) =>
        && Lacks(phonemeIdMap, token)
        && token == if Lacks(phonemeIdMap, "_") then "_" else if Lacks(phonemeIdMap, "^") then "^" else "$"
      case Success((pad, bos, eos)) =>
        && !Lacks(phonemeIdMap, "_") && !Lacks(phonemeIdMap, "^") && !Lacks(phonemeIdMap, "$")
        && var matched := TokenIds(FirstIds(phonemeIdMap), phonemes, 0);
        var ids := PhonemeIds(phonemeIdMap, phonemes, pad, bos, eos);
        && |ids| == 2 * |matched| + 2
        && ids[0] == phonemeIdMap["^"][0] && ids[|ids| - 1] == phonemeIdMap["$"][0]
        && (j < |matched| ==> ids[2 * j + 1] == matched[j] && ids[2 * j + 2] == phonemeIdMap["_"][0])
  {
    hide WithPads, TokenIds, FirstIds;
    match MetaIds(phonemeIdMap)
    case Failure(_) =>
    case Success((pad, bos, eos)) => FramedPads(bos, TokenIds(FirstIds(phonemeIdMap), phonemes, 0), pad, eos, j);
  }
}
