/**
 The adaptive mel chunker of the streaming Piper model: padded, growing windows over the encoder's
 frames, each decoded on its own and trimmed back, so that the pieces lie side by side.
 */
module MelChunker {
  import opened Arithmetic
  import opened Cancellation
  import opened Wrappers

  const MIN_CHUNK_SIZE: int := 44
  const MAX_CHUNK_SIZE: nat := 1024

  // ---------- Slices along one axis ----------

  // A slice with step 1. Negative ends count from the back; a missing end is the axis length.
  datatype Slice = Slice(start: int, end: Option<int>)

  // The half-open range a slice selects on an axis of the given length; None where slicing panics.
  function Resolve(len: nat, slice: Slice): Option<(nat, nat)> {
    var start := if slice.start < 0 then len + slice.start else slice.start;
    var end := match slice.end case None => len case Some(e) => if e < 0 then len + e else e;
    if start < 0 || start > len || end < 0 || end > len then None
    else if end < start then Some((start, start)) else Some((start, end))
  }

  // ---------- The schedule ----------

  // The width of the k-th chunk, counted from 1.
  function Width(base: nat, k: nat): nat {
    Min(MAX_CHUNK_SIZE, (if base > 1 then base else 1) * k)
  }

  // The sum of the first k widths, plus one padding for each.
  function Cursor(base: nat, padding: nat, k: nat): nat {
    if k == 0 then 0 else Cursor(base, padding, k - 1) + Width(base, k) + padding
  }

  // Whether the k-th chunk is the last: too few frames lie beyond it for another one.
  predicate IsFinal(frames: int, base: nat, padding: nat, k: nat) {
    frames - Cursor(base, padding, k) <= MIN_CHUNK_SIZE
  }

  lemma {:induction false} CursorGrows(base: nat, padding: nat, j: nat, k: nat)
    requires j <= k
    ensures Cursor(base, padding, k) >= Cursor(base, padding, j) + (k - j)
    decreases k - j
  {
    if j < k {
      CursorGrows(base, padding, j, k - 1);
      WidthPositive(base, k);
    }
  }

  lemma WidthPositive(base: nat, k: nat)
    requires k > 0
    ensures 1 <= Width(base, k) <= MAX_CHUNK_SIZE
  {
    var b: nat := if base > 1 then base else 1;
    assert b * k == k + (b - 1) * k;
    assert (b - 1) * k >= 0;
  }

  // How many chunks there are: the least k >= 1 that is final.
  function ChunkCount(frames: int, base: nat, padding: nat, k: nat): (n: nat)
    requires k >= 1
    ensures n >= k && IsFinal(frames, base, padding, n)
    ensures forall j | k <= j < n :: !IsFinal(frames, base, padding, j)
    decreases frames - MIN_CHUNK_SIZE - Cursor(base, padding, k)
  {
    if IsFinal(frames, base, padding, k) then k
    else
      CursorGrows(base, padding, k, k + 1);
      ChunkCount(frames, base, padding, k + 1)
  }

  lemma {:induction false} CursorMonotone(base: nat, padding: nat, j: nat, k: nat)
    requires j <= k
    ensures Cursor(base, padding, j) <= Cursor(base, padding, k)
  {
    CursorGrows(base, padding, j, k);
  }

  // ---------- The schedule in numbers ----------

  // The cursor after k chunks. The k-th chunk is k times as wide as the first, up to 1023 frames;
  // all later ones have 1024.
  function CursorInNumbers(base: nat, padding: nat, k: nat): int {
    var first := if base == 0 then 1 else base;
    var ramp := 1023 / first;
    if k <= ramp then first * (k * (k + 1) / 2) + k * padding
    else first * (ramp * (ramp + 1) / 2) + (k - ramp) * 1024 + k * padding
  }

  lemma HalfGrows(k: nat)
    requires k > 0
    ensures k * (k + 1) / 2 == (k - 1) * k / 2 + k
  {
    assert k * (k + 1) == (k - 1) * k + 2 * k;
  }

  lemma RampEnds(first: nat, k: nat)
    requires first > 0
    ensures k <= 1023 / first <==> first * k < 1024
  {
    var ramp := 1023 / first;
    var gap := k - ramp;
    assert first * ramp <= 1023 < first * ramp + first;
    assert first * k == first * ramp + first * gap;
    if gap <= 0 {
      assert first * gap <= 0;
    } else {
      assert first * gap >= first;
    }
  }

  lemma InNumbersGrows(base: nat, padding: nat, k: nat)
    requires k > 0
    ensures CursorInNumbers(base, padding, k) == CursorInNumbers(base, padding, k - 1) + Width(base, k) + padding
  {
    var first := if base == 0 then 1 else base;
    RampEnds(first, k);
    HalfGrows(k);
    assert k * padding == (k - 1) * padding + padding;
    assert first * (k * (k + 1) / 2) == first * ((k - 1) * k / 2) + first * k;
  }

  lemma {:induction false} CursorIsInNumbers(base: nat, padding: nat, k: nat)
    ensures Cursor(base, padding, k) == CursorInNumbers(base, padding, k)
  {
    if k > 0 {
      CursorIsInNumbers(base, padding, k - 1);
      InNumbersGrows(base, padding, k);
    }
  }

  // ---------- The chunker ----------

  // The mel slice and the audio slice of the k-th chunk, counted from 1.
  function ChunkSlices(frames: int, base: nat, padding: nat, hop: nat, k: nat): (Slice, Slice)
    requires k >= 1
  {
    var start := Cursor(base, padding, k - 1);
    var end := Cursor(base, padding, k);
    var tail: int := -(padding * hop);
    (Slice(if k == 1 then 0 else start - 2 * padding, if IsFinal(frames, base, padding, k) then None else Some(end)),
     Slice(if k == 1 then 0 else padding * hop, if IsFinal(frames, base, padding, k) then None else Some(tail)))
  }

  // The cursor after one more chunk; only before the first chunk is it at the front.
  lemma ScheduleStep(frames: int, base: nat, padding: nat, k: nat)
    ensures Cursor(base, padding, k) == 0 <==> k == 0
    ensures Cursor(base, padding, k + 1) == Cursor(base, padding, k) + Width(base, k + 1) + padding
    ensures IsFinal(frames, base, padding, k + 1) <==> frames - Cursor(base, padding, k + 1) <= MIN_CHUNK_SIZE
  {
    hide Width;
    CursorGrows(base, padding, 0, k);
  }

  // The k-th item and the cursor after it, in numbers: the window starts two paddings before the
  // previous cursor and ends at the new one, and both trims are one padding.
  predicate ItemInNumbers(frames: int, base: nat, padding: nat, hop: nat, k: nat,
                          item: Option<(Slice, Slice)>, cursor: Option<int>)
    requires k >= 1
  {
    var end := CursorInNumbers(base, padding, k);
    var melStart := if k == 1 then 0 else CursorInNumbers(base, padding, k - 1) - 2 * padding;
    var lead := if k == 1 then 0 else padding * hop;
    if frames - end <= 44 then cursor == None && item == Some((Slice(melStart, None), Slice(lead, None)))
    else cursor == Some(end) && item == Some((Slice(melStart, Some(end)), Slice(lead, Some(-(padding * hop)))))
  }

  lemma {:induction false} SlicesInNumbers(frames: int, base: nat, padding: nat, hop: nat, k: nat)
    requires k >= 1
    ensures ItemInNumbers(frames, base, padding, hop, k, Some(ChunkSlices(frames, base, padding, hop, k)),
                          if IsFinal(frames, base, padding, k) then None else Some(Cursor(base, padding, k)))
  {
    hide CursorInNumbers, Cursor;
    CursorIsInNumbers(base, padding, k - 1);
    CursorIsInNumbers(base, padding, k);
  }

  lemma Negated(a: nat, b: nat)
    ensures (0 - a) * b == -(a * b) && 0 * b == 0
  {
  }

  class AdaptiveMelChunker {
    const numFrames: int
    const baseChunkSize: nat
    const padding: nat
    const hopLength: nat
    var cursor: Option<int>
    var chunksEmitted: nat

    // While chunks remain, the cursor is where the schedule says, and no chunk so far was final.
    ghost predicate Valid()
      reads this
    {
      cursor.Some? ==>
        && cursor.value == Cursor(baseChunkSize, padding, chunksEmitted)
        && forall j | 1 <= j <= chunksEmitted :: !IsFinal(numFrames, baseChunkSize, padding, j)
    }

    constructor (numFrames: int, chunkSize: nat, chunkPadding: nat, hopLength: nat)
      ensures Valid() && cursor.Some? && chunksEmitted == 0
      ensures this.numFrames == numFrames && baseChunkSize == chunkSize
      ensures padding == chunkPadding && this.hopLength == hopLength
    {
      this.numFrames, baseChunkSize, padding, this.hopLength := numFrames, chunkSize, chunkPadding, hopLength;
      cursor, chunksEmitted := Some(0), 0;
    }

    method Consume()
      modifies this`cursor
      ensures Valid() && cursor.None?
    {
      cursor := None;
    }

    method CurrentChunkWidth() returns (width: nat)
      ensures width == Width(baseChunkSize, chunksEmitted + 1)
    {
      var base := if baseChunkSize > 1 then baseChunkSize else 1;
      var scaled := base * (chunksEmitted + 1);
      width := if scaled < MAX_CHUNK_SIZE then scaled else MAX_CHUNK_SIZE;
    }

    // The (k+1)-th call yields the (k+1)-th chunk of the schedule, and the cursor is lost exactly
    // when that chunk is final: when at most 44 frames lie beyond it. The window starts two paddings
    // before the previous cursor and ends at the new one.
    method Next() returns (item: Option<(Slice, Slice)>)
      requires Valid()
      modifies this
      ensures Valid()
      ensures old(cursor).None? ==> item.None? && cursor.None? && chunksEmitted == old(chunksEmitted)
      ensures old(cursor).Some? ==>
        && chunksEmitted == old(chunksEmitted) + 1
        && item == Some(ChunkSlices(numFrames, baseChunkSize, padding, hopLength, chunksEmitted))
        && (cursor.None? <==> IsFinal(numFrames, baseChunkSize, padding, chunksEmitted))
      ensures old(cursor).Some? ==>
        ItemInNumbers(numFrames, baseChunkSize, padding, hopLength, chunksEmitted, item, cursor)
    {
      hide Cursor, Width, IsFinal, CursorInNumbers;
      if cursor.None? {
        return None;
      }
      var regionStart := cursor.value;
      ScheduleStep(numFrames, baseChunkSize, padding, chunksEmitted);
      SlicesInNumbers(numFrames, baseChunkSize, padding, hopLength, chunksEmitted + 1);
      Negated(padding, hopLength);
      var melStart, leadTrim := 0, 0;
      if regionStart != 0 {
        melStart, leadTrim := regionStart - padding * 2, padding;
      }
      var width := CurrentChunkWidth();
      var back := 0 - padding;
      var paddedEnd := regionStart + width + padding;
      var isFinal := numFrames - paddedEnd <= MIN_CHUNK_SIZE;
      var melEnd: Option<int>, tailTrim: Option<int> := None, None;
      if !isFinal {
        melEnd, tailTrim := Some(paddedEnd), Some(back);
      }
      chunksEmitted := chunksEmitted + 1;
      cursor := melEnd;
      var audioEnd := match tailTrim case None => None case Some(trim) => Some(trim * hopLength);
      item := Some((Slice(melStart, melEnd), Slice(leadTrim * hopLength, audioEnd)));
    }
  }

  // ---------- What the pieces cover ----------

  // The samples of the utterance a chunk's trimmed audio stands for, when the decoder gives `hop`
  // samples for each frame of the window it is given; None where slicing panics.
  function Piece(frames: nat, hop: nat, slices: (Slice, Slice)): Option<(nat, nat)> {
    match Resolve(frames, slices.0)
    case None => None
    case Some((melStart, melEnd)) =>
      match Resolve((melEnd - melStart) * hop, slices.1)
      case None => None
      case Some((from, to)) => Some((melStart * hop + from, melStart * hop + to))
  }

  // The pieces of the chunks 1..n.
  function Pieces(frames: nat, base: nat, padding: nat, hop: nat, n: nat): (r: seq<Option<(nat, nat)>>)
    ensures |r| == n
    ensures forall k | 1 <= k <= n :: r[k - 1] == Piece(frames, hop, ChunkSlices(frames, base, padding, hop, k))
  {
    if n == 0 then []
    else Pieces(frames, base, padding, hop, n - 1) + [Piece(frames, hop, ChunkSlices(frames, base, padding, hop, n))]
  }

  // The pieces are in bounds, in order, non-empty, and cover [0, total) exactly once.
  ghost predicate Tiles(pieces: seq<Option<(nat, nat)>>, total: nat) {
    && pieces != []
    && (forall i | 0 <= i < |pieces| :: pieces[i].Some? && pieces[i].value.0 < pieces[i].value.1)
    && pieces[0].value.0 == 0
    && (forall i | 0 <= i < |pieces| - 1 :: pieces[i].value.1 == pieces[i + 1].value.0)
    && pieces[|pieces| - 1].value.1 == total
  }

  // The frame at which the k-th piece ends when trimming works as meant.
  function PieceEnd(frames: nat, base: nat, padding: nat, n: nat, k: nat): int {
    if k == 0 then 0 else if k == n then frames else Cursor(base, padding, k) - padding
  }

  lemma Scale(a: int, b: int, hop: nat)
    ensures a * hop + b * hop == (a + b) * hop
    ensures a * hop - b * hop == (a - b) * hop
    ensures a <= b ==> a * hop <= b * hop
    ensures hop > 0 && a < b ==> a * hop < b * hop
  {
    if a <= b {
      var d: nat := b - a;
      assert b * hop == a * hop + d * hop;
      if hop > 0 && d > 0 {
        assert d * hop >= d;
      }
    }
  }

  lemma AudioSlice(window: nat, lead: nat, trail: nat, hop: nat, slice: Slice)
    requires hop > 0 && lead < window - trail
    requires slice.start == lead * hop
    requires if trail == 0 then slice.end.None? else slice.end.Some? && slice.end.value == 0 - trail * hop
    ensures Resolve(window * hop, slice) == Some((lead * hop, (window - trail) * hop))
  {
    Scale(lead, window - trail, hop);
    Scale(window - trail, window, hop);
    Scale(window, trail, hop);
    Scale(0, trail, hop);
    Scale(0, lead, hop);
  }

  // A window that is decoded and trimmed by whole frames at either end.
  lemma TrimmedPiece(frames: nat, hop: nat, slices: (Slice, Slice), start: nat, end: nat, lead: nat, trail: nat)
    requires hop > 0 && start <= end && lead < end - start - trail
    requires Resolve(frames, slices.0) == Some((start, end))
    requires slices.1.start == lead * hop
    requires if trail == 0 then slices.1.end.None? else slices.1.end.Some? && slices.1.end.value == 0 - trail * hop
    ensures Piece(frames, hop, slices) == Some(((start + lead) * hop, (end - trail) * hop))
  {
    AudioSlice(end - start, lead, trail, hop, slices.1);
    Scale(start, lead, hop);
    Scale(start, end - start - trail, hop);
  }

  // With a padding between 1 and the first width, every piece lands where it is meant to.
  lemma {:induction false} GoodPiece(frames: nat, base: nat, padding: nat, hop: nat, n: nat, k: nat)
    requires frames > 0 && hop > 0 && n == ChunkCount(frames, base, padding, 1) && 1 <= k <= n
    requires n == 1 || 1 <= padding <= Width(base, 1)
    ensures Piece(frames, hop, ChunkSlices(frames, base, padding, hop, k))
      == Some((PieceEnd(frames, base, padding, n, k - 1) * hop, PieceEnd(frames, base, padding, n, k) * hop))
    ensures 0 <= PieceEnd(frames, base, padding, n, k - 1) < PieceEnd(frames, base, padding, n, k)
  {
    var slices := ChunkSlices(frames, base, padding, hop, k);
    var start, lead := 0, 0;
    WidthPositive(base, k);
    if k > 1 {
      assert Cursor(base, padding, 1) == Width(base, 1) + padding;
      CursorMonotone(base, padding, 1, k - 1);
      assert !IsFinal(frames, base, padding, k - 1);
      start, lead := Cursor(base, padding, k - 1) - 2 * padding, padding;
    }
    if k < n {
      assert !IsFinal(frames, base, padding, k);
      TrimmedPiece(frames, hop, slices, start, Cursor(base, padding, k), lead, padding);
    } else {
      TrimmedPiece(frames, hop, slices, start, frames, lead, 0);
    }
  }

  // With no padding every piece but the last is empty.
  lemma {:induction false} UnpaddedPieces(frames: nat, base: nat, hop: nat, k: nat)
    requires 1 <= k < ChunkCount(frames, base, 0, 1)
    ensures Piece(frames, hop, ChunkSlices(frames, base, 0, hop, k))
      == Some((Cursor(base, 0, k - 1) * hop, Cursor(base, 0, k - 1) * hop))
  {
    assert !IsFinal(frames, base, 0, k);
    var start, end := Cursor(base, 0, k - 1), Cursor(base, 0, k);
    CursorMonotone(base, 0, k - 1, k);
    assert start <= end < frames;
    assert Resolve(frames, ChunkSlices(frames, base, 0, hop, k).0) == Some((start, end));
    Scale(0, end - start, hop);
  }

  // With more padding than the first width the second window starts before the first frame, so
  // the slice wraps round to the back and never yields the samples that follow the first piece.
  lemma {:induction false} OverpaddedSecondPiece(frames: nat, base: nat, padding: nat, hop: nat)
    requires hop > 0 && padding > Width(base, 1) && ChunkCount(frames, base, padding, 1) > 1
    ensures var piece := Piece(frames, hop, ChunkSlices(frames, base, padding, hop, 2));
      piece.Some? ==> piece.value.0 > Width(base, 1) * hop
  {
    assert !IsFinal(frames, base, padding, 1);
    var w := Width(base, 1);
    assert Cursor(base, padding, 1) == w + padding;
    var slices := ChunkSlices(frames, base, padding, hop, 2);
    assert slices.0.start == w - padding;
    match Resolve(frames, slices.0)
    case None =>
    case Some((melStart, melEnd)) =>
      assert melStart == frames + w - padding;
      Scale(melStart, padding, hop);
      Scale(w, melStart + padding, hop);
      Scale(0, padding, hop);
      assert padding * hop >= 0;
  }

  predicate RunsTo(pieces: seq<Option<(nat, nat)>>, bounds: seq<nat>, i: nat)
    requires |bounds| > i + 1 && |pieces| > i
  {
    bounds[i] < bounds[i + 1] && pieces[i] == Some((bounds[i], bounds[i + 1]))
  }

  // Pieces that run from each bound to the next tile the whole.
  lemma TilesByBounds(pieces: seq<Option<(nat, nat)>>, bounds: seq<nat>)
    requires |bounds| == |pieces| + 1 && pieces != [] && bounds[0] == 0
    requires forall i | 0 <= i < |pieces| :: RunsTo(pieces, bounds, i)
    ensures Tiles(pieces, bounds[|pieces|])
  {
    forall i | 0 <= i < |pieces| ensures pieces[i].Some? && pieces[i].value.0 < pieces[i].value.1 {
      assert RunsTo(pieces, bounds, i);
    }
    forall i | 0 <= i < |pieces| - 1 ensures pieces[i].value.1 == pieces[i + 1].value.0 {
      assert RunsTo(pieces, bounds, i) && RunsTo(pieces, bounds, i + 1);
    }
    assert RunsTo(pieces, bounds, 0) && RunsTo(pieces, bounds, |pieces| - 1);
  }

  // The samples at which the pieces meet.
  function Bound(frames: nat, base: nat, padding: nat, hop: nat, n: nat, k: nat): nat {
    var end := PieceEnd(frames, base, padding, n, k);
    if end < 0 then 0 else end * hop
  }

  lemma {:induction false} GoodRun(frames: nat, base: nat, padding: nat, hop: nat, n: nat, k: nat)
    requires frames > 0 && hop > 0 && n == ChunkCount(frames, base, padding, 1) && 1 <= k <= n
    requires n == 1 || 1 <= padding <= Width(base, 1)
    ensures Bound(frames, base, padding, hop, n, k - 1) < Bound(frames, base, padding, hop, n, k)
    ensures Piece(frames, hop, ChunkSlices(frames, base, padding, hop, k))
      == Some((Bound(frames, base, padding, hop, n, k - 1), Bound(frames, base, padding, hop, n, k)))
  {
    GoodPiece(frames, base, padding, hop, n, k);
    Scale(PieceEnd(frames, base, padding, n, k - 1), PieceEnd(frames, base, padding, n, k), hop);
  }

  lemma {:induction false} GoodPiecesTile(frames: nat, base: nat, padding: nat, hop: nat, n: nat)
    requires frames > 0 && hop > 0 && n == ChunkCount(frames, base, padding, 1)
    requires n == 1 || 1 <= padding <= Width(base, 1)
    ensures Tiles(Pieces(frames, base, padding, hop, n), frames * hop)
  {
    var pieces := Pieces(frames, base, padding, hop, n);
    var bounds := seq(n + 1, k requires 0 <= k <= n => Bound(frames, base, padding, hop, n, k));
    forall i | 0 <= i < |pieces| ensures RunsTo(pieces, bounds, i) {
      GoodRun(frames, base, padding, hop, n, i + 1);
      assert pieces[i + 1 - 1] == Piece(frames, hop, ChunkSlices(frames, base, padding, hop, i + 1));
    }
    TilesByBounds(pieces, bounds);
  }

  // Mel tiling, exactly: the trimmed pieces cover every sample of a non-empty utterance once and
  // in order if and only if one chunk suffices or 1 <= padding <= the first chunk's width.
  lemma {:induction false} MelTiling(frames: nat, base: nat, padding: nat, hop: nat)
    requires frames > 0 && hop > 0
    ensures var n := ChunkCount(frames, base, padding, 1);
      Tiles(Pieces(frames, base, padding, hop, n), frames * hop) <==> n == 1 || 1 <= padding <= Width(base, 1)
  {
    var n := ChunkCount(frames, base, padding, 1);
    var pieces := Pieces(frames, base, padding, hop, n);
    if n == 1 || 1 <= padding <= Width(base, 1) {
      GoodPiecesTile(frames, base, padding, hop, n);
    } else if padding == 0 {
      UnpaddedPieces(frames, base, hop, 1);
      assert pieces[1 - 1] == Some((0, 0));
    } else {
      OverpaddedTilesNot(frames, base, padding, hop, n, pieces);
    }
  }

  // The first of several pieces is trimmed behind only.
  lemma {:induction false} FirstPiece(frames: nat, base: nat, padding: nat, hop: nat)
    requires hop > 0 && padding > 0 && ChunkCount(frames, base, padding, 1) > 1
    ensures Piece(frames, hop, ChunkSlices(frames, base, padding, hop, 1)) == Some((0, Width(base, 1) * hop))
  {
    assert !IsFinal(frames, base, padding, 1);
    var w := Width(base, 1);
    var slices := ChunkSlices(frames, base, padding, hop, 1);
    assert Cursor(base, padding, 1) == w + padding;
    assert Resolve(frames, slices.0) == Some((0, w + padding));
    WidthPositive(base, 1);
    TrimmedPiece(frames, hop, slices, 0, w + padding, 0, padding);
  }

  lemma {:induction false} OverpaddedTilesNot(frames: nat, base: nat, padding: nat, hop: nat, n: nat,
                                              pieces: seq<Option<(nat, nat)>>)
    requires frames > 0 && hop > 0 && padding > Width(base, 1)
    requires n == ChunkCount(frames, base, padding, 1) && n > 1 && pieces == Pieces(frames, base, padding, hop, n)
    ensures !Tiles(pieces, frames * hop)
  {
    hide ChunkCount, Width, Piece, ChunkSlices;
    OverpaddedSecondPiece(frames, base, padding, hop);
    FirstPiece(frames, base, padding, hop);
    assert pieces[1 - 1] == Piece(frames, hop, ChunkSlices(frames, base, padding, hop, 1));
    assert pieces[2 - 1] == Piece(frames, hop, ChunkSlices(frames, base, padding, hop, 2));
  }

  // ---------- The streamer ----------

  // A short utterance is decoded in one go, with no trimming.
  predicate OneShot(frames: nat, chunkSize: nat, padding: nat) {
    frames <= chunkSize * 2 + padding * 2
  }

  // The pieces a streamer delivers when it is never cancelled.
  function StreamedPieces(frames: nat, chunkSize: nat, padding: nat, hop: nat): seq<Option<(nat, nat)>> {
    if OneShot(frames, chunkSize, padding) then [Some((0, frames * hop))]
    else Pieces(frames, chunkSize, padding, hop, ChunkCount(frames, chunkSize, padding, 1))
  }

  class SpeechStreamer {
    const frames: nat
    const hop: nat
    const oneShot: bool
    const chunker: AdaptiveMelChunker
    const cancelToken: CancellationToken

    constructor (frames: nat, chunkSize: nat, padding: nat, hop: nat, cancelToken: CancellationToken)
      ensures Valid() && this.cancelToken == cancelToken && fresh(chunker)
        && chunker.chunksEmitted == 0 && chunker.cursor.Some?
      ensures this.frames == frames && this.hop == hop && oneShot == OneShot(frames, chunkSize, padding)
      ensures chunker.baseChunkSize == chunkSize && chunker.padding == padding
    {
      this.frames, this.hop, oneShot := frames, hop, frames <= chunkSize * 2 + padding * 2;
      this.cancelToken := cancelToken;
      chunker := new AdaptiveMelChunker(frames, chunkSize, padding, hop);
    }

    ghost predicate Valid()
      reads this, chunker
    {
      chunker.Valid() && chunker.numFrames == frames && chunker.hopLength == hop
    }

    // The next piece of audio, as the samples it stands for; nothing once cancelled.
    method Next() returns (item: Option<Option<(nat, nat)>>)
      requires Valid()
      modifies chunker
      ensures Valid()
      ensures cancelToken.flag ==>
        && item.None? && chunker.cursor == old(chunker.cursor)
        && chunker.chunksEmitted == old(chunker.chunksEmitted)
      ensures !cancelToken.flag && old(chunker.cursor).None? ==> item.None? && chunker.cursor.None?
      ensures !cancelToken.flag && old(chunker.cursor).Some? ==>
        && chunker.chunksEmitted == old(chunker.chunksEmitted) + 1
        && item == Some(if oneShot then Some((0, frames * hop))
                        else Piece(frames, hop, ChunkSlices(frames, chunker.baseChunkSize, chunker.padding, hop,
                                                                 chunker.chunksEmitted)))
        && (chunker.cursor.None?
            <==> oneShot || IsFinal(frames, chunker.baseChunkSize, chunker.padding, chunker.chunksEmitted))
    {
      hide ItemInNumbers;
      var cancelled := cancelToken.IsCancelled();
      if cancelled {
        return None;
      }
      var slices := chunker.Next();
      if slices.None? {
        return None;
      }
      if oneShot {
        chunker.Consume();
        return Some(Some((0, frames * hop)));
      }
      item := Some(Piece(frames, hop, slices.value));
    }
  }

  // Pulling the stream to its end, as its consumer does.
  method Stream(frames: nat, chunkSize: nat, padding: nat, hop: nat, cancelToken: CancellationToken)
    returns (pieces: seq<Option<(nat, nat)>>)
    requires !cancelToken.flag
    ensures pieces == StreamedPieces(frames, chunkSize, padding, hop)
  {
    var streamer := new SpeechStreamer(frames, chunkSize, padding, hop, cancelToken);
    pieces := [];
    ghost var n := if streamer.oneShot then 1 else ChunkCount(frames, chunkSize, padding, 1);
    ghost var whole := StreamedPieces(frames, chunkSize, padding, hop);
    while true
      invariant fresh(streamer.chunker) && streamer.Valid() && !streamer.cancelToken.flag
      invariant |pieces| == streamer.chunker.chunksEmitted <= n && pieces == whole[..|pieces|]
      invariant streamer.chunker.cursor.None? <==> |pieces| == n
      decreases n - |pieces|
    {
      var item := streamer.Next();
      if item.None? {
        break;
      }
      pieces := pieces + [item.value];
    }
  }

  // The whole stream tiles the utterance if and only if it is decoded in one go, as an utterance of
  // up to two chunks and two paddings is, or one chunk suffices, or the padding is at least 1 and at
  // most the first chunk's width.
  lemma StreamTiling(frames: nat, chunkSize: nat, padding: nat, hop: nat)
    requires frames > 0 && hop > 0
    ensures var first := if chunkSize == 0 then 1 else if chunkSize > 1024 then 1024 else chunkSize;
      Tiles(StreamedPieces(frames, chunkSize, padding, hop), frames * hop)
      <==> || frames <= 2 * chunkSize + 2 * padding
           || frames <= first + padding + 44
           || 1 <= padding <= first
  {
    hide Piece, ChunkSlices;
    MelTiling(frames, chunkSize, padding, hop);
    Scale(0, frames, hop);
    assert ChunkCount(frames, chunkSize, padding, 1) == 1 <==> IsFinal(frames, chunkSize, padding, 1);
    assert Cursor(chunkSize, padding, 1) == Width(chunkSize, 1) + padding;
  }

  // ---------- The realtime schedule ----------

  const MAX_STREAM_CHUNK_SIZE: int := 1_000_000

  // The chunk size asked for at each sentence of a realtime synthesis. Saturating at the integer
  // width comes out the same under the cap.
  function NextChunkSize(base: nat, sentencesSeen: nat): nat {
    Min(base + base * Min(sentencesSeen, 4), MAX_STREAM_CHUNK_SIZE)
  }

  lemma ChunkSizeGrows(base: nat, sentencesSeen: nat)
    ensures Min(base, MAX_STREAM_CHUNK_SIZE) <= NextChunkSize(base, sentencesSeen)
    ensures NextChunkSize(base, sentencesSeen) <= NextChunkSize(base, sentencesSeen + 1) <= 5 * base
  {
    var extra := Min(sentencesSeen, 4);
    assert base * extra <= base * Min(sentencesSeen + 1, 4) <= base * 4 by {
      Scale(extra, Min(sentencesSeen + 1, 4), base);
      Scale(Min(sentencesSeen + 1, 4), 4, base);
    }
  }

  // Up to the fifth sentence every chunk size is one base larger than the one before, and from there
  // on it stays, unless it has come to a million frames.
  lemma ChunkSizeInNumbers(base: nat, sentencesSeen: nat)
    ensures NextChunkSize(base, sentencesSeen) ==
      var wanted := if sentencesSeen <= 4 then base * (sentencesSeen + 1) else base * 5;
      if wanted <= 1_000_000 then wanted else 1_000_000
  {
    assert sentencesSeen <= 4 ==> base * (sentencesSeen + 1) == base + base * sentencesSeen;
  }

  // A padding that suits the first sentence suits them all: every sentence of the synthesis is
  // covered exactly once, whatever its length.
  lemma EverySentenceTiles(base: nat, padding: nat, sentencesSeen: nat, frames: nat, hop: nat)
    requires frames > 0 && hop > 0 && 1 <= padding <= Width(base, 1)
    ensures Tiles(StreamedPieces(frames, NextChunkSize(base, sentencesSeen), padding, hop), frames * hop)
  {
    ChunkSizeGrows(base, sentencesSeen);
    StreamTiling(frames, NextChunkSize(base, sentencesSeen), padding, hop);
  }

  // The C library's realtime synthesis, with chunks of 72 frames and a padding of 3.
  lemma LibrarySettingsTile(sentencesSeen: nat, frames: nat, hop: nat)
    requires frames > 0 && hop > 0
    ensures Tiles(StreamedPieces(frames, NextChunkSize(72, sentencesSeen), 3, hop), frames * hop)
  {
    EverySentenceTiles(72, 3, sentencesSeen, frames, hop);
  }
}
