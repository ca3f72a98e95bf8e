/**
 Greedy longest-match tokenisation, stated without regard to how the search is bounded: at each
 position take the longest key that starts there, or skip one character if none does.
 */
module LongestMatch {
  import opened Wrappers

  type Table = map<string, int>

  datatype Piece = Matched(key: string, id: int) | Skipped(c: char)

  predicate KeyAt(table: Table, chars: string, i: nat, width: nat) {
    0 < width && i + width <= |chars| && chars[i..i + width] in table
  }

  // The widest key at i among those no wider than `widest`; 0 if there is none.
  function LongestWidth(table: Table, chars: string, i: nat, widest: nat): (width: nat)
    ensures width <= widest
    ensures width > 0 ==> KeyAt(table, chars, i, width)
    ensures forall w | width < w <= widest :: !KeyAt(table, chars, i, w)
  {
    if widest == 0 then 0
    else if KeyAt(table, chars, i, widest) then widest
    else LongestWidth(table, chars, i, widest - 1)
  }

  function Parse(table: Table, chars: string, i: nat): seq<Piece>
    requires i <= |chars|
    decreases |chars| - i
  {
    if i == |chars| then []
    else
      var width := LongestWidth(table, chars, i, |chars| - i);
      if width == 0 then [Skipped(chars[i])] + Parse(table, chars, i + 1)
      else
        var key := chars[i..i + width];
        [Matched(key, table[key])] + Parse(table, chars, i + width)
  }

  function Ids(pieces: seq<Piece>): seq<int> {
    if pieces == [] then []
    else (if pieces[0].Matched? then [pieces[0].id] else []) + Ids(pieces[1..])
  }

  // The same ids without the pieces in between.
  function TokenIds(table: Table, chars: string, i: nat): seq<int>
    requires i <= |chars|
    decreases |chars| - i
  {
    if i == |chars| then []
    else
      var width := LongestWidth(table, chars, i, |chars| - i);
      if width == 0 then TokenIds(table, chars, i + 1)
      else [table[chars[i..i + width]]] + TokenIds(table, chars, i + width)
  }

  lemma TokenIdsUnfold(table: Table, chars: string, i: nat)
    requires i < |chars|
    ensures var width := LongestWidth(table, chars, i, |chars| - i);
      TokenIds(table, chars, i) == if width == 0 then TokenIds(table, chars, i + 1)
        else [table[chars[i..i + width]]] + TokenIds(table, chars, i + width)
  {
  }

  lemma {:induction false} NoIdsAtEnd(table: Table, chars: string)
    ensures TokenIds(table, chars, |chars|) == []
  {
  }

  lemma {:induction false} TokenIdsAreTheParse(table: Table, chars: string, i: nat)
    requires i <= |chars|
    ensures TokenIds(table, chars, i) == Ids(Parse(table, chars, i))
    decreases |chars| - i
  {
    if i < |chars| {
      var width := LongestWidth(table, chars, i, |chars| - i);
      var next := i + (if width == 0 then 1 else width);
      TokenIdsAreTheParse(table, chars, next);
      assert Parse(table, chars, i)[1..] == Parse(table, chars, next);
      assert width == 0 ==> Ids(Parse(table, chars, i)) == [] + Ids(Parse(table, chars, next));
    }
  }

  // ---------- The parse, characterised ----------

  // A key starts at position i of the text.
  predicate StartsAt(key: string, chars: string, i: nat) {
    i <= |chars| && key <= chars[i..]
  }

  // The longest key at its place, or a character where no key would fit.
  ghost predicate BestPiece(table: Table, chars: string, i: nat, piece: Piece) {
    match piece
    case Matched(key, id) =>
      && key != [] && key in table && table[key] == id && StartsAt(key, chars, i)
      && forall other {:trigger StartsAt(other, chars, i)} | other in table && StartsAt(other, chars, i)
         :: |other| <= |key|
    case Skipped(c) =>
      && i < |chars| && chars[i] == c
      && forall other {:trigger StartsAt(other, chars, i)} | other in table && StartsAt(other, chars, i) :: other == []
  }

  // A segmentation of the text from i on into best pieces.
  ghost predicate Greedy(table: Table, chars: string, i: nat, pieces: seq<Piece>)
    decreases pieces
  {
    if pieces == [] then i == |chars|
    else BestPiece(table, chars, i, pieces[0]) && Greedy(table, chars, i + |PieceText(pieces[0])|, pieces[1..])
  }

  lemma KeyIsWidth(table: Table, chars: string, i: nat, key: string)
    requires key in table && StartsAt(key, chars, i) && key != []
    ensures KeyAt(table, chars, i, |key|) && chars[i..i + |key|] == key
  {
    assert key == chars[i..][..|key|] == chars[i..i + |key|];
  }

  lemma WidthIsKey(chars: string, i: nat, width: nat)
    requires i + width <= |chars|
    ensures StartsAt(chars[i..i + width], chars, i)
  {
    assert chars[i..][..width] == chars[i..i + width];
  }

  lemma {:induction false} LongestIsLongest(table: Table, chars: string, i: nat, other: string)
    requires other in table && StartsAt(other, chars, i)
    ensures |other| <= LongestWidth(table, chars, i, |chars| - i)
  {
    if other != [] {
      KeyIsWidth(table, chars, i, other);
    }
  }

  // The piece the parse takes at i.
  function TakenPiece(table: Table, chars: string, i: nat): Piece
    requires i < |chars|
  {
    var width := LongestWidth(table, chars, i, |chars| - i);
    if width == 0 then Skipped(chars[i]) else Matched(chars[i..i + width], table[chars[i..i + width]])
  }

  // It is the only best piece there.
  lemma TakenPieceIsBest(table: Table, chars: string, i: nat, piece: Piece)
    requires i < |chars|
    ensures BestPiece(table, chars, i, piece) <==> piece == TakenPiece(table, chars, i)
  {
    var width := LongestWidth(table, chars, i, |chars| - i);
    forall other {:trigger StartsAt(other, chars, i)} | other in table && StartsAt(other, chars, i)
      ensures |other| <= width {
      LongestIsLongest(table, chars, i, other);
    }
    if width > 0 {
      WidthIsKey(chars, i, width);
      assert chars[i..i + width] != [];
    }
    if BestPiece(table, chars, i, piece) && piece.Matched? {
      KeyIsWidth(table, chars, i, piece.key);
    }
  }

  lemma ParseTakes(table: Table, chars: string, i: nat)
    requires i < |chars|
    ensures var piece := TakenPiece(table, chars, i);
      && 0 < |PieceText(piece)| <= |chars| - i
      && Parse(table, chars, i) == [piece] + Parse(table, chars, i + |PieceText(piece)|)
  {
  }

  lemma GreedyUnfolds(table: Table, chars: string, i: nat, pieces: seq<Piece>)
    requires i < |chars| && pieces != []
    ensures Greedy(table, chars, i, pieces) <==>
      var piece := TakenPiece(table, chars, i);
      pieces[0] == piece && Greedy(table, chars, i + |PieceText(piece)|, pieces[1..])
  {
    TakenPieceIsBest(table, chars, i, pieces[0]);
  }

  lemma ParseUnfolds(table: Table, chars: string, i: nat, pieces: seq<Piece>)
    requires i < |chars|
    ensures 0 < |PieceText(TakenPiece(table, chars, i))| <= |chars| - i
    ensures pieces == Parse(table, chars, i) <==>
      var piece := TakenPiece(table, chars, i);
      pieces != [] && pieces[0] == piece && pieces[1..] == Parse(table, chars, i + |PieceText(piece)|)
  {
    ParseTakes(table, chars, i);
    assert pieces != [] ==> pieces == [pieces[0]] + pieces[1..];
  }

  lemma {:induction false} GreedyAtEnd(table: Table, chars: string, pieces: seq<Piece>)
    ensures Greedy(table, chars, |chars|, pieces) <==> pieces == Parse(table, chars, |chars|)
  {
    if pieces != [] {
      assert !BestPiece(table, chars, |chars|, pieces[0]);
    }
  }

  lemma {:induction false} NothingIsNotGreedy(table: Table, chars: string, i: nat)
    requires i < |chars|
    ensures !Greedy(table, chars, i, []) && Parse(table, chars, i) != []
  {
  }

  // The parse is the one and only greedy segmentation.
  lemma {:induction false} GreedyIsUnique(table: Table, chars: string, i: nat, pieces: seq<Piece>)
    requires i <= |chars|
    ensures Greedy(table, chars, i, pieces) <==> pieces == Parse(table, chars, i)
    decreases |chars| - i
  {
    hide *;
    if i == |chars| {
      GreedyAtEnd(table, chars, pieces);
    } else if pieces == [] {
      NothingIsNotGreedy(table, chars, i);
    } else {
      ParseUnfolds(table, chars, i, pieces);
      GreedyUnfolds(table, chars, i, pieces);
      GreedyIsUnique(table, chars, i + |PieceText(TakenPiece(table, chars, i))|, pieces[1..]);
    }
  }

  function PieceText(p: Piece): string {
    match p case Matched(key, _) => key case Skipped(c) => [c]
  }

  function Text(pieces: seq<Piece>): string {
    if pieces == [] then [] else PieceText(pieces[0]) + Text(pieces[1..])
  }

  lemma TakenText(table: Table, chars: string, i: nat)
    requires i < |chars|
    ensures var text := PieceText(TakenPiece(table, chars, i));
      0 < |text| <= |chars| - i && text == chars[i..i + |text|]
  {
  }

  lemma {:induction false} TextOfCons(piece: Piece, rest: seq<Piece>)
    ensures Text([piece] + rest) == PieceText(piece) + Text(rest)
  {
    assert ([piece] + rest)[1..] == rest;
  }

  // Nothing is lost: the pieces spell the text.
  lemma {:induction false} ParseIsLossless(table: Table, chars: string, i: nat)
    requires i <= |chars|
    ensures Text(Parse(table, chars, i)) == chars[i..]
    decreases |chars| - i
  {
    hide LongestWidth, TakenPiece;
    if i < |chars| {
      hide Parse, Text;
      var piece := TakenPiece(table, chars, i);
      var next := i + |PieceText(piece)|;
      ParseTakes(table, chars, i);
      TakenText(table, chars, i);
      TextOfCons(piece, Parse(table, chars, next));
      ParseIsLossless(table, chars, next);
      assert chars[i..] == chars[i..next] + chars[next..];
    }
  }

  // A bound that no key at i exceeds does not change the search.
  lemma {:induction false} BoundedSearchIsFull(table: Table, chars: string, i: nat, bound: nat, widest: nat)
    requires bound <= widest
    requires forall w | bound < w <= widest :: !KeyAt(table, chars, i, w)
    ensures LongestWidth(table, chars, i, bound) == LongestWidth(table, chars, i, widest)
    decreases widest - bound
  {
    if bound < widest {
      BoundedSearchIsFull(table, chars, i, bound, widest - 1);
    }
  }

  // ---------- Maps whose keys list several ids ----------

  // The first id counts; a key without ids is not usable.
  function FirstIds(lists: map<string, seq<int>>): Table {
    map key | key in lists && lists[key] != [] :: lists[key][0]
  }

  // The ids listed for the next w characters; none where the map has no such key.
  function IdsFor(lists: map<string, seq<int>>, chars: string, cursor: nat, w: nat): seq<int>
    requires cursor + w <= |chars|
  {
    if chars[cursor..cursor + w] in lists then lists[chars[cursor..cursor + w]] else []
  }

  // The search of the Piper and MeloTTS mappers, from the widest candidate down: the first id of the
  // widest key that lists any.
  method FindMatch(lists: map<string, seq<int>>, chars: string, cursor: nat, widest: nat)
    returns (found: Option<(nat, int)>)
    requires cursor + widest <= |chars|
    ensures var width := LongestWidth(FirstIds(lists), chars, cursor, widest);
      found == if width == 0 then None else Some((width, FirstIds(lists)[chars[cursor..cursor + width]]))
    ensures match found
      case None => forall w | 0 < w <= widest :: IdsFor(lists, chars, cursor, w) == []
      case Some((width, id)) =>
        && 0 < width <= widest && IdsFor(lists, chars, cursor, width) != []
        && id == IdsFor(lists, chars, cursor, width)[0]
        && forall w | width < w <= widest :: IdsFor(lists, chars, cursor, w) == []
  {
    var width: nat := widest;
    while width > 0
      invariant width <= widest
      invariant LongestWidth(FirstIds(lists), chars, cursor, width)
        == LongestWidth(FirstIds(lists), chars, cursor, widest)
      invariant forall w | width < w <= widest :: IdsFor(lists, chars, cursor, w) == []
    {
      var candidate := chars[cursor..cursor + width];
      if candidate in lists && lists[candidate] != [] {
        return Some((width, lists[candidate][0]));
      }
      width := width - 1;
    }
    found := None;
  }

  // One step of the mappers: the next id and its width, or nothing to match at the cursor.
  method NextMatch(lists: map<string, seq<int>>, chars: string, cursor: nat, bound: nat)
    returns (found: Option<(nat, int)>)
    requires cursor < |chars|
    requires forall w | bound < w <= |chars| - cursor :: !KeyAt(FirstIds(lists), chars, cursor, w)
    ensures match found
      case None => TokenIds(FirstIds(lists), chars, cursor) == TokenIds(FirstIds(lists), chars, cursor + 1)
      case Some((width, id)) =>
        && 0 < width <= |chars| - cursor
        && TokenIds(FirstIds(lists), chars, cursor) == [id] + TokenIds(FirstIds(lists), chars, cursor + width)
  {
    hide TokenIds;
    TokenIdsUnfold(FirstIds(lists), chars, cursor);
    var widest := if bound < |chars| - cursor then bound else |chars| - cursor;
    BoundedSearchIsFull(FirstIds(lists), chars, cursor, widest, |chars| - cursor);
    found := FindMatch(lists, chars, cursor, widest);
  }

  // Each id followed by a pad.
  function WithPads(ids: seq<int>, pad: int): seq<int> {
    if ids == [] then [] else [ids[0], pad] + WithPads(ids[1..], pad)
  }

  lemma {:induction false} PadsOfConcat(a: seq<int>, b: seq<int>, pad: int)
    ensures WithPads(a + b, pad) == WithPads(a, pad) + WithPads(b, pad)
  {
    if a == [] {
      assert a + b == b;
    } else {
      assert (a + b)[0] == a[0] && (a + b)[1..] == a[1..] + b;
      PadsOfConcat(a[1..], b, pad);
      assert WithPads(a, pad) + WithPads(b, pad) == [a[0], pad] + (WithPads(a[1..], pad) + WithPads(b, pad));
    }
  }

  lemma {:induction false} NoPads(pad: int)
    ensures WithPads([], pad) == []
  {
  }

  // Writing the next id and its pad.
  lemma {:induction false} PadStep(out: seq<int>, id: int, rest: seq<int>, todo: seq<int>, pad: int, whole: seq<int>)
    requires out + WithPads(todo, pad) == whole && todo == [id] + rest
    ensures out + [id] + [pad] + WithPads(rest, pad) == whole
  {
    assert todo[1..] == rest;
    assert out + ([id, pad] + WithPads(rest, pad)) == out + [id] + [pad] + WithPads(rest, pad);
  }

  lemma {:induction false} PadsUnfold(ids: seq<int>, pad: int)
    requires ids != []
    ensures WithPads(ids, pad) == [ids[0], pad] + WithPads(ids[1..], pad)
  {
  }

  lemma {:induction false} PadsAt(ids: seq<int>, pad: int, k: nat)
    ensures |WithPads(ids, pad)| == 2 * |ids|
    ensures k < |ids| ==> WithPads(ids, pad)[2 * k] == ids[k] && WithPads(ids, pad)[2 * k + 1] == pad
  {
    if ids != [] {
      PadsAt(ids[1..], pad, if k > 0 then k - 1 else 0);
      PadsUnfold(ids, pad);
      hide WithPads;
      var rest := WithPads(ids[1..], pad);
      if 0 < k < |ids| {
        assert ([ids[0], pad] + rest)[2 * k] == rest[2 * (k - 1)];
        assert ([ids[0], pad] + rest)[2 * k + 1] == rest[2 * (k - 1) + 1];
      }
    }
  }

  // Begin and end in their places, each id at an odd one, and a pad behind it.
  lemma {:induction false} FramedPads(begin: int, ids: seq<int>, pad: int, end: int, j: nat)
    ensures var framed := [begin] + WithPads(ids, pad) + [end];
      && |framed| == 2 * |ids| + 2 && framed[0] == begin && framed[2 * |ids| + 1] == end
      && (j < |ids| ==> framed[2 * j + 1] == ids[j] && framed[2 * j + 2] == pad)
  {
    PadsAt(ids, pad, j);
    var framed := [begin] + WithPads(ids, pad) + [end];
    if j < |ids| {
      assert framed[2 * j + 1] == WithPads(ids, pad)[2 * j] && framed[2 * j + 2] == WithPads(ids, pad)[2 * j + 1];
    }
  }

  // Moving the next id from what is still to come to what is done.
  lemma MoveId(done: seq<int>, id: int, rest: seq<int>, todo: seq<int>, whole: seq<int>)
    requires done + todo == whole && todo == [id] + rest
    ensures done + [id] + rest == whole
  {
  }

  // What is left without the first and last id and the pads.
  function Unpadded(ids: seq<int>): seq<int> {
    seq(if |ids| < 2 then 0 else (|ids| - 2) / 2, k requires 0 <= k && 2 * k + 1 < |ids| => ids[2 * k + 1])
  }

  lemma {:induction false} UnpaddedWithPads(begin: int, ids: seq<int>, pad: int, end: int)
    ensures Unpadded([begin] + WithPads(ids, pad) + [end]) == ids
  {
    var whole := [begin] + WithPads(ids, pad) + [end];
    PadsAt(ids, pad, 0);
    assert |Unpadded(whole)| == |ids|;
    forall k | 0 <= k < |ids| ensures Unpadded(whole)[k] == ids[k] {
      PadsAt(ids, pad, k);
      assert whole[2 * k + 1] == WithPads(ids, pad)[2 * k];
    }
  }
}
