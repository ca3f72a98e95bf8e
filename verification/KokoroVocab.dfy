/** Kokoro's vocabulary tokeniser: one cap, the longest key of all, bounds the search. */
module KokoroVocab {
  import opened Wrappers
  import opened LongestMatch
  import PiperPhonemeIds

  class Vocab {
    const table: Table
    const maxTokenChars: nat

    ghost predicate Valid() {
      forall key | key in table :: |key| <= maxTokenChars
    }

    // The cap is the longest key's length, or 1 for an empty vocabulary.
    constructor (table: Table)
      ensures Valid() && this.table == table
      ensures if table == map[] then maxTokenChars == 1 else exists key :: key in table && |key| == maxTokenChars
    {
      this.table := table;
      var longest: Option<nat> := None;
      var rest := table.Keys;
      while rest != {}
        invariant rest <= table.Keys
        invariant longest.None? <==> rest == table.Keys
        invariant longest.Some? ==> exists key :: key in table && |key| == longest.value
        invariant forall key | key in table.Keys - rest :: longest.Some? && |key| <= longest.value
        decreases rest
      {
        var key :| key in rest;
        longest := Some(if longest.Some? && |key| < longest.value then longest.value else |key|);
        rest := rest - {key};
      }
      maxTokenChars := match longest case Some(n) => n case None => 1;
      assert longest.None? ==> table.Keys == {};
    }

    // The search at one position, from the widest candidate down.
    method FindEntry(chars: string, i: nat, limit: nat) returns (found: Option<(nat, int)>)
      requires i + limit <= |chars|
      ensures var width := LongestWidth(table, chars, i, limit);
        found == if width == 0 then None else Some((width, table[chars[i..i + width]]))
    {
      var len: nat := limit;
      while len > 0
        invariant len <= limit
        invariant LongestWidth(table, chars, i, len) == LongestWidth(table, chars, i, limit)
      {
        var candidate := chars[i..i + len];
        if candidate in table {
          return Some((len, table[candidate]));
        }
        len := len - 1;
      }
      found := None;
    }

    method Tokenize(phonemes: string) returns (ids: seq<int>)
      requires Valid()
      ensures ids == TokenIds(table, phonemes, 0)
    {
      hide TokenIds;
      ids := [];
      var i := 0;
      while i < |phonemes|
        invariant i <= |phonemes|
        invariant ids + TokenIds(table, phonemes, i) == TokenIds(table, phonemes, 0)
        decreases |phonemes| - i
      {
        var limit := if maxTokenChars < |phonemes| - i then maxTokenChars else |phonemes| - i;
        BoundedSearchIsFull(table, phonemes, i, limit, |phonemes| - i);
        TokenIdsUnfold(table, phonemes, i);
        var found := FindEntry(phonemes, i, limit);
        if found.Some? {
          var (len, id) := found.value;
          MoveId(ids, id, TokenIds(table, phonemes, i + len), TokenIds(table, phonemes, i),
                 TokenIds(table, phonemes, 0));
          ids := ids + [id];
          i := i + len;
        } else {
          i := i + 1;
        }
      }
      NoIdsAtEnd(table, phonemes);
      assert ids + [] == ids;
    }
  }

  // On a shared map with one id per key, Piper's ids without begin, end and pads are Kokoro's.
  lemma {:induction false} PiperAgreesWithKokoro(table: Table, phonemes: string, pad: int, bos: int, eos: int)
    ensures var lists := map key | key in table :: [table[key]];
      Unpadded(PiperPhonemeIds.PhonemeIds(lists, phonemes, pad, bos, eos)) == TokenIds(table, phonemes, 0)
  {
    var lists := map key | key in table :: [table[key]];
    assert FirstIds(lists) == table;
    UnpaddedWithPads(bos, TokenIds(table, phonemes, 0), pad, eos);
  }
}
