/**
 Kokoro's limit on the length of one inference: a long token sequence is cut into chunks, at the
 last break token of each window when it has one, and the finished audio is handed out piecewise.
 */
module TokenSplit {
  import opened Cancellation
  import opened Wrappers

  type TokenId = int

  function Flatten<T>(chunks: seq<seq<T>>): seq<T> {
    if chunks == [] then [] else chunks[0] + Flatten(chunks[1..])
  }

  lemma {:induction false} FlattenAppend<T>(chunks: seq<seq<T>>, last: seq<T>)
    ensures Flatten(chunks + [last]) == Flatten(chunks) + last
  {
    if chunks == [] {
      assert Flatten([last]) == last;
    } else {
      FlattenAppend(chunks[1..], last);
      assert (chunks + [last])[1..] == chunks[1..] + [last];
    }
  }

  lemma NothingFlat<T>()
    ensures Flatten<T>([]) == []
  {
  }

  // The cut a window takes: just past its last break token, or its whole length without one.
  ghost predicate IsCut(window: seq<TokenId>, breakId: Option<TokenId>, cut: nat) {
    && cut <= |window|
    && if breakId.Some? && breakId.value in window
       then cut > 0 && window[cut - 1] == breakId.value
            && (forall j | cut <= j < |window| :: window[j] != breakId.value)
       else cut == |window|
  }

  ghost predicate IsSplit(tokens: seq<TokenId>, maxLen: nat, breakId: Option<TokenId>, chunks: seq<seq<TokenId>>) {
    && chunks != []
    && Flatten(chunks) == tokens
    && |chunks[|chunks| - 1]| <= maxLen
    && forall k | 0 <= k < |chunks| - 1 :: CutAt(Flatten(chunks[k..]), maxLen, breakId, |chunks[k]|)
  }

  ghost predicate CutAt(rest: seq<TokenId>, maxLen: nat, breakId: Option<TokenId>, cut: nat) {
    |rest| > maxLen && IsCut(rest[..maxLen], breakId, cut)
  }

  // The search from the right for the break token.
  method LastPosition(window: seq<TokenId>, id: TokenId) returns (position: Option<nat>)
    ensures position.None? <==> id !in window
    ensures position.Some? ==>
      position.value < |window| && window[position.value] == id && id !in window[position.value + 1..]
  {
    var i := |window|;
    while i > 0
      invariant 0 <= i <= |window| && id !in window[i..]
    {
      i := i - 1;
      if window[i] == id {
        return Some(i);
      }
    }
    return None;
  }

  // With a limit of zero a step takes no token away, so the loop would not end on a token.
  method SplitTokens(tokens: seq<TokenId>, maxLen: nat, breakId: Option<TokenId>) returns (chunks: seq<seq<TokenId>>)
    requires maxLen > 0 || tokens == []
    ensures IsSplit(tokens, maxLen, breakId, chunks)
  {
    hide IsSplit, CutsSoFar, Flatten;
    chunks := [];
    var rest := tokens;
    NothingCut(tokens, maxLen, breakId);
    while |rest| > maxLen
      invariant CutsSoFar(tokens, maxLen, breakId, chunks, rest)
      decreases |rest|
    {
      var window := rest[..maxLen];
      var position: Option<nat> := None;
      if breakId.Some? {
        position := LastPosition(window, breakId.value);
      }
      var cut := if position.Some? then position.value + 1 else maxLen;
      var head, tail := rest[..cut], rest[cut..];
      OneMoreCut(tokens, maxLen, breakId, chunks, rest, cut);
      chunks := chunks + [head];
      rest := tail;
    }
    LastChunk(tokens, maxLen, breakId, chunks, rest);
    chunks := chunks + [rest];
  }

  // The loop's state: the chunks so far are correct cuts of what they and the rest make up.
  ghost predicate CutsSoFar(tokens: seq<TokenId>, maxLen: nat, breakId: Option<TokenId>,
                            chunks: seq<seq<TokenId>>, rest: seq<TokenId>) {
    && Flatten(chunks) + rest == tokens
    && forall k | 0 <= k < |chunks| :: CutAt(Flatten(chunks[k..]) + rest, maxLen, breakId, |chunks[k]|)
  }

  lemma NothingCut(tokens: seq<TokenId>, maxLen: nat, breakId: Option<TokenId>)
    ensures CutsSoFar(tokens, maxLen, breakId, [], tokens)
  {
    assert Flatten<TokenId>([]) + tokens == tokens;
  }

  lemma SuffixGrows<T>(chunks: seq<seq<T>>, head: seq<T>, k: nat)
    requires k <= |chunks|
    ensures Flatten((chunks + [head])[k..]) == Flatten(chunks[k..]) + head
  {
    FlattenAppend(chunks[k..], head);
    assert (chunks + [head])[k..] == chunks[k..] + [head];
  }

  lemma OneMoreCut(tokens: seq<TokenId>, maxLen: nat, breakId: Option<TokenId>,
                   chunks: seq<seq<TokenId>>, rest: seq<TokenId>, cut: nat)
    requires CutsSoFar(tokens, maxLen, breakId, chunks, rest) && CutAt(rest, maxLen, breakId, cut) && cut <= |rest|
    ensures CutsSoFar(tokens, maxLen, breakId, chunks + [rest[..cut]], rest[cut..])
  {
    hide CutAt, Flatten;
    var head, tail := rest[..cut], rest[cut..];
    var more := chunks + [head];
    FlattenAppend(chunks, head);
    assert head + tail == rest;
    forall k | 0 <= k < |more| ensures CutAt(Flatten(more[k..]) + tail, maxLen, breakId, |more[k]|) {
      SuffixGrows(chunks, head, k);
      assert Flatten(more[k..]) + tail == Flatten(chunks[k..]) + rest;
      if k == |chunks| {
        NoChunks(chunks, rest);
      }
    }
  }

  lemma NoChunks(chunks: seq<seq<TokenId>>, rest: seq<TokenId>)
    ensures Flatten(chunks[|chunks|..]) + rest == rest
  {
  }

  lemma LastChunk(tokens: seq<TokenId>, maxLen: nat, breakId: Option<TokenId>,
                  chunks: seq<seq<TokenId>>, rest: seq<TokenId>)
    requires CutsSoFar(tokens, maxLen, breakId, chunks, rest) && |rest| <= maxLen
    ensures IsSplit(tokens, maxLen, breakId, chunks + [rest])
  {
    hide CutAt, Flatten;
    FlattenAppend(chunks, rest);
    forall k | 0 <= k < |chunks| {
      SuffixGrows(chunks, rest, k);
    }
  }

  // ---------- What a split is ----------

  lemma CutIsUnique(window: seq<TokenId>, breakId: Option<TokenId>, a: nat, b: nat)
    requires IsCut(window, breakId, a) && IsCut(window, breakId, b)
    ensures a == b
  {
  }

  // The first chunk of a split, and the split that follows it.
  lemma SplitStep(tokens: seq<TokenId>, maxLen: nat, breakId: Option<TokenId>, chunks: seq<seq<TokenId>>)
    requires IsSplit(tokens, maxLen, breakId, chunks) && |chunks| > 1
    ensures CutAt(tokens, maxLen, breakId, |chunks[0]|)
    ensures chunks[0] == tokens[..|chunks[0]|]
    ensures IsSplit(tokens[|chunks[0]|..], maxLen, breakId, chunks[1..])
  {
    assert chunks[0..] == chunks;
    assert CutAt(Flatten(chunks[0..]), maxLen, breakId, |chunks[0]|);
    var rest := chunks[1..];
    assert tokens[|chunks[0]|..] == Flatten(rest);
    forall k | 0 <= k < |rest| - 1 ensures CutAt(Flatten(rest[k..]), maxLen, breakId, |rest[k]|) {
      assert rest[k..] == chunks[k + 1..];
      assert CutAt(Flatten(chunks[k + 1..]), maxLen, breakId, |chunks[k + 1]|);
    }
  }

  lemma SingleChunk(tokens: seq<TokenId>, maxLen: nat, breakId: Option<TokenId>, chunks: seq<seq<TokenId>>)
    requires IsSplit(tokens, maxLen, breakId, chunks)
    ensures |chunks| == 1 ==> chunks == [tokens]
    ensures |chunks| == 1 <==> |tokens| <= maxLen
  {
    if |chunks| == 1 {
      assert chunks == [chunks[0]];
      assert Flatten(chunks) == chunks[0] + Flatten(chunks[1..]) == chunks[0];
    } else {
      SplitStep(tokens, maxLen, breakId, chunks);
    }
  }

  // The conditions leave no choice: a sequence has one split.
  lemma {:induction false} SplitIsUnique(tokens: seq<TokenId>, maxLen: nat, breakId: Option<TokenId>,
                                         a: seq<seq<TokenId>>, b: seq<seq<TokenId>>)
    requires IsSplit(tokens, maxLen, breakId, a) && IsSplit(tokens, maxLen, breakId, b)
    ensures a == b
    decreases |a|
  {
    SingleChunk(tokens, maxLen, breakId, a);
    SingleChunk(tokens, maxLen, breakId, b);
    if |tokens| > maxLen {
      SplitStep(tokens, maxLen, breakId, a);
      SplitStep(tokens, maxLen, breakId, b);
      CutIsUnique(tokens[..maxLen], breakId, |a[0]|, |b[0]|);
      SplitIsUnique(tokens[|a[0]|..], maxLen, breakId, a[1..], b[1..]);
      assert a == [a[0]] + a[1..] && b == [b[0]] + b[1..];
    }
  }

  // Every chunk fits the limit, and only the empty sequence gives an empty chunk.
  lemma {:induction false} ChunksFit(tokens: seq<TokenId>, maxLen: nat, breakId: Option<TokenId>,
                                     chunks: seq<seq<TokenId>>, k: nat)
    requires maxLen > 0 && IsSplit(tokens, maxLen, breakId, chunks) && k < |chunks|
    ensures |chunks[k]| <= maxLen
    ensures chunks[k] == [] ==> tokens == []
    decreases k
  {
    SingleChunk(tokens, maxLen, breakId, chunks);
    if |chunks| > 1 {
      SplitStep(tokens, maxLen, breakId, chunks);
      if k > 0 {
        ChunksFit(tokens[|chunks[0]|..], maxLen, breakId, chunks[1..], k - 1);
      }
    }
  }

  function Breaks(tokens: seq<TokenId>, breakId: Option<TokenId>): nat {
    if breakId.Some? then multiset(tokens)[breakId.value] else 0
  }

  lemma BreaksAdd(a: seq<TokenId>, b: seq<TokenId>, breakId: Option<TokenId>)
    ensures Breaks(a + b, breakId) == Breaks(a, breakId) + Breaks(b, breakId)
  {
  }

  // A chunk shorter than the limit ends with a break.
  lemma FirstChunkPays(tokens: seq<TokenId>, maxLen: nat, breakId: Option<TokenId>, n: nat)
    requires maxLen > 0 && CutAt(tokens, maxLen, breakId, n)
    ensures n <= |tokens| && Breaks(tokens[n..], breakId) <= Breaks(tokens, breakId)
    ensures Breaks(tokens[n..], breakId) < Breaks(tokens, breakId) || n == maxLen
  {
    BreaksAdd(tokens[..n], tokens[n..], breakId);
    assert tokens == tokens[..n] + tokens[n..];
    if n < maxLen {
      assert tokens[..n][n - 1] == breakId.value;
    }
  }

  lemma {:induction false} ChunksAgainstBreaks(tokens: seq<TokenId>, maxLen: nat, breakId: Option<TokenId>,
                                               chunks: seq<seq<TokenId>>)
    requires maxLen > 0 && IsSplit(tokens, maxLen, breakId, chunks)
    ensures maxLen * (|chunks| - 1) <= maxLen * Breaks(tokens, breakId) + |tokens|
    decreases |chunks|
  {
    hide CutAt, Breaks, Flatten;
    if |chunks| > 1 {
      SplitStep(tokens, maxLen, breakId, chunks);
      var n := |chunks[0]|;
      FirstChunkPays(tokens, maxLen, breakId, n);
      ChunksAgainstBreaks(tokens[n..], maxLen, breakId, chunks[1..]);
      BoundStep(maxLen, |chunks|, Breaks(tokens, breakId), Breaks(tokens[n..], breakId), |tokens|, |tokens| - n);
    }
  }

  lemma BoundStep(m: nat, c: int, b: nat, b': nat, n: nat, n': nat)
    requires m * (c - 2) <= m * b' + n'
    requires b' <= b && n' <= n && (b' < b || n' + m == n)
    ensures m * (c - 1) <= m * b + n
  {
    assert m * (c - 1) == m * (c - 2) + m;
    MulStep(m, if b' < b then b' + 1 else b', b);
  }

  lemma MulStep(m: nat, a: nat, b: nat)
    requires a <= b
    ensures m * a <= m * b
  {
  }

  // No more chunks than one, plus one for every break, plus one for every full limit of tokens.
  lemma ChunkCountBound(tokens: seq<TokenId>, maxLen: nat, breakId: Option<TokenId>, chunks: seq<seq<TokenId>>)
    requires maxLen > 0 && IsSplit(tokens, maxLen, breakId, chunks)
    ensures |chunks| <= 1 + Breaks(tokens, breakId) + |tokens| / maxLen
  {
    hide *;
    ChunksAgainstBreaks(tokens, maxLen, breakId, chunks);
    DistributeOver(maxLen, |chunks| - 1, Breaks(tokens, breakId));
    Divide(maxLen, |chunks| - 1 - Breaks(tokens, breakId), |tokens|);
  }

  lemma DistributeOver(m: nat, a: int, b: int)
    ensures m * (a - b) == m * a - m * b
  {
  }

  lemma MulOrder(m: nat, a: int, b: nat)
    ensures a >= b ==> m * a >= m * b
  {
  }

  lemma Divide(m: nat, extra: int, n: nat)
    requires m > 0 && m * extra <= n
    ensures extra <= n / m
  {
    assert n < m * (n / m) + m;
    MulOrder(m, extra, n / m + 1);
  }

  // A cut falls inside a run of break-free tokens only when that run alone exceeds the limit.
  lemma CutsFollowBreaks(tokens: seq<TokenId>, maxLen: nat, breakId: Option<TokenId>,
                         chunks: seq<seq<TokenId>>, k: nat)
    requires maxLen > 0 && IsSplit(tokens, maxLen, breakId, chunks) && k < |chunks| - 1
    ensures chunks[k] != []
    ensures (breakId.Some? && chunks[k][|chunks[k]| - 1] == breakId.value)
      || (|chunks[k]| == maxLen && (breakId.Some? ==> breakId.value !in chunks[k]))
  {
    var rest := Flatten(chunks[k..]);
    assert CutAt(rest, maxLen, breakId, |chunks[k]|);
    assert rest == chunks[k] + Flatten(chunks[k..][1..]);
    assert chunks[k] == rest[..maxLen][..|chunks[k]|];
  }

  // ---------- Handing out the audio ----------

  /** The finished samples of one sentence, taken in pieces of a fixed size. */
  class KokoroAudioStreamer<Sample> {
    const samples: seq<Sample>
    const chunkSize: nat
    const cancelToken: CancellationToken
    var cursor: nat

    ghost predicate Valid()
      reads this
    {
      cursor <= |samples|
    }

    ghost function Remaining(): seq<Sample>
      reads this
      requires Valid()
    {
      samples[cursor..]
    }

    constructor (samples: seq<Sample>, chunkSize: nat, cancelToken: CancellationToken)
      ensures Valid() && Remaining() == samples && this.chunkSize == chunkSize && this.cancelToken == cancelToken
    {
      this.samples := samples;
      this.chunkSize := chunkSize;
      this.cancelToken := cancelToken;
      cursor := 0;
    }

    method Next() returns (piece: Option<seq<Sample>>)
      requires Valid()
      modifies this`cursor
      ensures Valid()
      ensures piece.None? <==> cancelToken.flag || chunkSize == 0 || old(Remaining()) == []
      ensures piece.None? ==> Remaining() == old(Remaining())
      ensures piece.Some? ==>
        && old(Remaining()) == piece.value + Remaining()
        && piece.value != []
        && |piece.value| <= chunkSize
        && (|piece.value| < chunkSize ==> Remaining() == [])
    {
      var cancelled := cancelToken.IsCancelled();
      if cancelled {
        return None;
      }
      if chunkSize == 0 || cursor >= |samples| {
        return None;
      }
      var end := if cursor + chunkSize < |samples| then cursor + chunkSize else |samples|;
      piece := Some(samples[cursor..end]);
      cursor := end;
    }

    // Pulling to the end without a cancellation returns the whole audio, in full pieces but for
    // the last.
    method Drain() returns (pieces: seq<seq<Sample>>)
      requires Valid() && chunkSize > 0 && !cancelToken.flag
      modifies this`cursor
      ensures Valid() && Remaining() == []
      ensures Flatten(pieces) == old(Remaining())
      ensures forall k | 0 <= k < |pieces| ::
        0 < |pieces[k]| <= chunkSize && (k < |pieces| - 1 ==> |pieces[k]| == chunkSize)
    {
      hide Flatten;
      pieces := [];
      ghost var whole := Remaining();
      NothingFlat<Sample>();
      while true
        invariant Valid() && Flatten(pieces) + Remaining() == whole
        invariant forall k | 0 <= k < |pieces| :: 0 < |pieces[k]| <= chunkSize
        invariant forall k | 0 <= k < |pieces| :: |pieces[k]| < chunkSize ==> k == |pieces| - 1 && Remaining() == []
        decreases |Remaining()|
      {
        ghost var rest := Remaining();
        var piece := Next();
        if piece.None? {
          break;
        }
        FlattenAppend(pieces, piece.value);
        assert Flatten(pieces) + (piece.value + Remaining()) == Flatten(pieces) + piece.value + Remaining();
        pieces := pieces + [piece.value];
      }
    }
  }
}
