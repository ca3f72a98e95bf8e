/**
 Splitting a text into words, encoding each word on its own, and mapping every character of the
 text to the token that stands over it. The tokenizer itself is a parameter.
 */
module G2pwTokenize {
  import opened Wrappers

  // A piece of text with the half-open range of character positions it stands over.
  datatype Span = Span(text: string, start: nat, end: nat)

  // The tokenizer: a word's pieces, or None when it cannot encode the word.
  type Encoder = string -> Option<seq<string>>

  predicate Covers(s: Span, i: int) {
    s.start <= i < s.end
  }

  // The last span over a position.
  function Covering(spans: seq<Span>, i: int): (r: Option<nat>)
    ensures r.Some? ==> r.value < |spans| && Covers(spans[r.value], i)
    ensures r.Some? ==> forall k | r.value < k < |spans| :: !Covers(spans[k], i)
    ensures r.None? ==> forall k | 0 <= k < |spans| :: !Covers(spans[k], i)
  {
    if spans == [] then None
    else
      var last := |spans| - 1;
      if Covers(spans[last], i) then Some(last) else Covering(spans[..last], i)
  }

  lemma {:induction false} CoveringMore(spans: seq<Span>, s: Span, i: int)
    ensures Covering(spans + [s], i) == if Covers(s, i) then Some(|spans|) else Covering(spans, i)
  {
    assert (spans + [s])[..|spans|] == spans;
  }

  // ---------- Words ----------

  predicate IsAsciiAlphanumeric(c: char) {
    '0' <= c <= '9' || 'a' <= c <= 'z' || 'A' <= c <= 'Z'
  }

  // The characters that make up longer words.
  lemma AsciiAlphanumerics(c: char)
    ensures IsAsciiAlphanumeric(c)
      <==> c in "0123456789" || c in "abcdefghijklmnopqrstuvwxyz" || c in "ABCDEFGHIJKLMNOPQRSTUVWXYZ"
  {
  }

  function RunEnd(text: string, i: nat): (end: nat)
    requires i <= |text|
    ensures i <= end <= |text|
    ensures forall k | i <= k < end :: IsAsciiAlphanumeric(text[k])
    ensures end < |text| ==> !IsAsciiAlphanumeric(text[end])
    decreases |text| - i
  {
    if i < |text| && IsAsciiAlphanumeric(text[i]) then RunEnd(text, i + 1) else i
  }

  function WordEnd(text: string, i: nat): (end: nat)
    requires i < |text|
    ensures i < end <= |text|
  {
    if IsAsciiAlphanumeric(text[i]) then RunEnd(text, i + 1) else i + 1
  }

  // The words from position i on: runs of ASCII letters and digits, and every other character
  // but the space on its own.
  function WordsFrom(text: string, i: nat): seq<Span>
    requires i <= |text|
    decreases |text| - i
  {
    if i == |text| then []
    else if text[i] == ' ' then WordsFrom(text, i + 1)
    else [Span(text[i..WordEnd(text, i)], i, WordEnd(text, i))] + WordsFrom(text, WordEnd(text, i))
  }

  function Words(text: string): seq<Span> {
    WordsFrom(text, 0)
  }

  // The slots of a text: each shows the last span over its position.
  ghost predicate SlotsShow(slots: seq<Option<nat>>, spans: seq<Span>) {
    forall i | 0 <= i < |slots| :: slots[i] == Covering(spans, i)
  }

  ghost predicate AllEndBy(spans: seq<Span>, i: nat) {
    forall k | 0 <= k < |spans| :: spans[k].end <= i
  }

  // The loop's state: the words before position i, and the slots they fill.
  ghost predicate Wordized(text: string, i: nat, words: seq<Span>, slots: seq<Option<nat>>)
    requires i <= |text|
  {
    && words + WordsFrom(text, i) == Words(text)
    && |slots| == i && AllEndBy(words, i) && SlotsShow(slots, words)
  }

  method Wordize(text: string) returns (words: seq<Span>, textToWord: seq<Option<nat>>)
    ensures words == Words(text)
    ensures |textToWord| == |text| && SlotsShow(textToWord, words)
  {
    hide Wordized, SlotsShow, WordsFrom;
    words, textToWord := [], [];
    var i := 0;
    NothingWordized(text);
    while i < |text|
      invariant 0 <= i <= |text| && Wordized(text, i, words, textToWord)
      decreases |text| - i
    {
      var current := text[i];
      if current == ' ' {
        SpaceWordized(text, i, words, textToWord);
        textToWord := textToWord + [None];
        i := i + 1;
        continue;
      }
      WordWordized(text, i, words, textToWord);
      if IsAsciiAlphanumeric(current) {
        var start := i;
        while i < |text| && IsAsciiAlphanumeric(text[i])
          invariant start <= i <= |text| && RunEnd(text, i) == RunEnd(text, start)
        {
          i := i + 1;
        }
        var wordIndex := |words|;
        words := words + [Span(text[start..i], start, i)];
        textToWord := textToWord + seq(i - start, _ => Some(wordIndex));
        continue;
      }
      var wordIndex := |words|;
      words := words + [Span(text[i..i + 1], i, i + 1)];
      textToWord := textToWord + seq(1, _ => Some(wordIndex));
      i := i + 1;
    }
    AllWordized(text, words, textToWord);
  }

  lemma NothingWordized(text: string)
    ensures Wordized(text, 0, [], [])
  {
  }

  lemma SpaceWordized(text: string, i: nat, words: seq<Span>, slots: seq<Option<nat>>)
    requires i < |text| && text[i] == ' ' && Wordized(text, i, words, slots)
    ensures Wordized(text, i + 1, words, slots + [None])
  {
    hide SlotsShow, AllEndBy;
    WordsStep(text, i);
    SpaceSlot(slots, words);
  }

  lemma WordWordized(text: string, i: nat, words: seq<Span>, slots: seq<Option<nat>>)
    requires i < |text| && text[i] != ' ' && Wordized(text, i, words, slots)
    ensures var end := WordEnd(text, i);
      Wordized(text, end, words + [Span(text[i..end], i, end)], slots + seq(end - i, _ => Some(|words|)))
  {
    hide SlotsShow, AllEndBy, WordsFrom;
    var end := WordEnd(text, i);
    var word := Span(text[i..end], i, end);
    WordsStep(text, i);
    WordSlots(slots, words, word);
    assert words + [word] + WordsFrom(text, end) == words + ([word] + WordsFrom(text, end));
  }

  lemma AllWordized(text: string, words: seq<Span>, slots: seq<Option<nat>>)
    requires Wordized(text, |text|, words, slots)
    ensures words == Words(text) && |slots| == |text| && SlotsShow(slots, words)
  {
    NoWordsLeft(text);
    assert words + [] == words;
  }

  lemma {:induction false} NoWordsLeft(text: string)
    ensures WordsFrom(text, |text|) == []
  {
  }

  lemma WordsStep(text: string, i: nat)
    requires i < |text|
    ensures WordsFrom(text, i) == if text[i] == ' ' then WordsFrom(text, i + 1)
      else [Span(text[i..WordEnd(text, i)], i, WordEnd(text, i))] + WordsFrom(text, WordEnd(text, i))
  {
  }

  lemma SpaceSlot(slots: seq<Option<nat>>, words: seq<Span>)
    requires SlotsShow(slots, words) && AllEndBy(words, |slots|)
    ensures SlotsShow(slots + [None], words) && AllEndBy(words, |slots| + 1)
  {
  }

  lemma WordSlots(slots: seq<Option<nat>>, words: seq<Span>, word: Span)
    requires SlotsShow(slots, words) && AllEndBy(words, |slots|) && word.start == |slots| < word.end
    ensures SlotsShow(slots + seq(word.end - word.start, _ => Some(|words|)), words + [word])
    ensures AllEndBy(words + [word], word.end)
  {
    forall p | 0 <= p < word.end
      ensures Covering(words + [word], p) == if p < |slots| then slots[p] else Some(|words|) {
      CoveringMore(words, word, p);
    }
  }

  // What a word is: a character that is neither a space nor an ASCII letter or digit, or a run of
  // ASCII letters and digits that cannot be made longer on either side.
  predicate IsWord(text: string, w: Span) {
    && w.start < w.end <= |text| && w.text == text[w.start..w.end]
    && if IsAsciiAlphanumeric(text[w.start]) then
         && (forall k | w.start <= k < w.end :: IsAsciiAlphanumeric(text[k]))
         && (w.start > 0 ==> !IsAsciiAlphanumeric(text[w.start - 1]))
         && (w.end < |text| ==> !IsAsciiAlphanumeric(text[w.end]))
       else text[w.start] != ' ' && w.end == w.start + 1
  }

  ghost predicate AreWords(text: string, words: seq<Span>, i: nat) {
    && (forall k | 0 <= k < |words| :: i <= words[k].start && IsWord(text, words[k]))
    && (forall j, k | 0 <= j < k < |words| :: words[j].end <= words[k].start)
  }

  lemma OneWordMore(text: string, first: Span, words: seq<Span>)
    requires IsWord(text, first) && AreWords(text, words, first.end)
    ensures AreWords(text, [first] + words, first.start)
  {
  }

  lemma NextWordIsWord(text: string, i: nat)
    requires i < |text| && text[i] != ' '
    requires 0 < i && IsAsciiAlphanumeric(text[i]) ==> !IsAsciiAlphanumeric(text[i - 1])
    ensures IsWord(text, Span(text[i..WordEnd(text, i)], i, WordEnd(text, i)))
    ensures WordEnd(text, i) < |text| && IsAsciiAlphanumeric(text[WordEnd(text, i)])
      ==> !IsAsciiAlphanumeric(text[WordEnd(text, i) - 1])
  {
  }

  lemma LaterStart(text: string, words: seq<Span>, i: nat, j: nat)
    requires AreWords(text, words, j) && i <= j
    ensures AreWords(text, words, i)
  {
  }

  lemma {:induction false} WordsAreOrdered(text: string, i: nat)
    requires i <= |text|
    requires 0 < i < |text| && IsAsciiAlphanumeric(text[i]) ==> !IsAsciiAlphanumeric(text[i - 1])
    ensures AreWords(text, WordsFrom(text, i), i)
    decreases |text| - i
  {
    hide WordsFrom, WordEnd, IsWord;
    if i == |text| {
      NoWordsLeft(text);
    } else {
      hide AreWords;
      WordsStep(text, i);
      if text[i] == ' ' {
        WordsAreOrdered(text, i + 1);
        LaterStart(text, WordsFrom(text, i + 1), i, i + 1);
      } else {
        var end := WordEnd(text, i);
        NextWordIsWord(text, i);
        WordsAreOrdered(text, end);
        OneWordMore(text, Span(text[i..end], i, end), WordsFrom(text, end));
      }
    }
  }

  lemma {:induction false} WordsReach(text: string, i: nat, p: nat)
    requires i <= p < |text| && text[p] != ' '
    ensures Covering(WordsFrom(text, i), p).Some?
    decreases |text| - i
  {
    var words := WordsFrom(text, i);
    var next := if text[i] == ' ' then i + 1 else WordEnd(text, i);
    var rest := WordsFrom(text, next);
    if p < next {
      assert Covers(words[0], p);
    } else {
      WordsReach(text, next, p);
      var k := Covering(rest, p).value;
      assert if text[i] == ' ' then words == rest else words[k + 1] == rest[k];
    }
  }

  // The words partition what is not a space: every such character lies in exactly one word.
  lemma {:induction false} WordsPartition(text: string, p: nat)
    requires p < |text|
    ensures Covering(Words(text), p).Some? <==> text[p] != ' '
    ensures AreWords(text, Words(text), 0)
    ensures forall j, k | 0 <= j < |Words(text)| && 0 <= k < |Words(text)|
                          && Covers(Words(text)[j], p) && Covers(Words(text)[k], p) :: j == k
  {
    hide WordsFrom;
    var words := Words(text);
    WordsAreOrdered(text, 0);
    if text[p] != ' ' {
      WordsReach(text, 0, p);
    }
    if Covering(words, p).Some? {
      assert IsWord(text, words[Covering(words, p).value]);
    }
  }

  // ---------- Tokens ----------

  function Strip(piece: string): string {
    if "##" <= piece then piece[2..] else piece
  }

  // Pieces laid out one after another, each as long as its text without the continuation mark.
  function Layout(pieces: seq<string>, start: nat): seq<Span> {
    if pieces == [] then []
    else
      var before := Layout(pieces[..|pieces| - 1], start);
      var cursor := start + StrippedLength(pieces[..|pieces| - 1]);
      var last := pieces[|pieces| - 1];
      before + [Span(last, cursor, cursor + |Strip(last)|)]
  }

  function StrippedLength(pieces: seq<string>): nat {
    if pieces == [] then 0
    else StrippedLength(pieces[..|pieces| - 1]) + |Strip(pieces[|pieces| - 1])|
  }

  const UNKNOWN := "[UNK]"

  predicate IsUnknown(pieces: seq<string>) {
    pieces == [] || pieces == [UNKNOWN]
  }

  function WordTokens(pieces: seq<string>, word: Span): seq<Span> {
    if IsUnknown(pieces) then [Span(UNKNOWN, word.start, word.end)] else Layout(pieces, word.start)
  }

  // The tokens of all words, or the first word that cannot be encoded.
  function TokensOf(encode: Encoder, words: seq<Span>): Result<seq<Span>, string> {
    if words == [] then Success([])
    else
      match TokensOf(encode, words[..|words| - 1])
      case Failure(word) => Failure(word)
      case Success(before) =>
        var word := words[|words| - 1];
        match encode(word.text)
        case None => Failure(word.text)
        case Some(pieces) => Success(before + WordTokens(pieces, word))
  }

  // The characters a piece stands for: its own without a leading ## mark.
  function Width(piece: string): nat {
    if |piece| >= 2 && piece[0] == '#' && piece[1] == '#' then |piece| - 2 else |piece|
  }

  function Widths(pieces: seq<string>, k: nat): nat
    requires k <= |pieces|
  {
    if k == 0 then 0 else Widths(pieces, k - 1) + Width(pieces[k - 1])
  }

  lemma {:induction false} LayoutInPlace(pieces: seq<string>, start: nat, k: nat)
    requires k < |pieces|
    ensures |Layout(pieces, start)| == |pieces|
    ensures StrippedLength(pieces) == Widths(pieces, |pieces|)
    ensures Layout(pieces, start)[k]
      == Span(pieces[k], start + Widths(pieces, k), start + Widths(pieces, k) + Width(pieces[k]))
  {
    var last := |pieces| - 1;
    var before := pieces[..last];
    assert |Strip(pieces[last])| == Width(pieces[last]);
    WidthsOfPrefix(pieces, before, last);
    if before != [] {
      LayoutInPlace(before, start, if k < last then k else 0);
      WidthsOfPrefix(pieces, before, k);
    }
  }

  lemma {:induction false} WidthsOfPrefix(pieces: seq<string>, before: seq<string>, k: nat)
    requires before <= pieces && k <= |pieces|
    ensures k <= |before| ==> Widths(before, k) == Widths(pieces, k)
  {
    if 0 < k <= |before| {
      WidthsOfPrefix(pieces, before, k - 1);
    }
  }

  // The tokens of one word: an unknown one has a single token over the whole of it; otherwise each
  // piece has one, marks and all, and they stand side by side, as wide as the pieces without marks.
  lemma {:induction false} TokensOfWord(pieces: seq<string>, word: Span, k: nat)
    ensures var tokens := WordTokens(pieces, word);
      if pieces == [] || pieces == ["[UNK]"] then tokens == [Span("[UNK]", word.start, word.end)]
      else && |tokens| == |pieces|
           && (k < |pieces| ==>
                 tokens[k] == Span(pieces[k], word.start + Widths(pieces, k), word.start + Widths(pieces, k + 1)))
  {
    if !IsUnknown(pieces) {
      LayoutInPlace(pieces, word.start, if k < |pieces| then k else 0);
    }
  }

  method FillSlots(slots: array<Option<nat>>, from: nat, to: nat, index: nat)
    modifies slots
    ensures forall i | 0 <= i < slots.Length ::
      slots[i] == if from <= i < to then Some(index) else old(slots[i])
  {
    var pos := from;
    while pos < to
      invariant from <= pos && (pos <= to || pos == from)
      invariant forall i | 0 <= i < slots.Length ::
        slots[i] == if from <= i < pos then Some(index) else old(slots[i])
    {
      if pos < slots.Length {
        slots[pos] := Some(index);
      }
      pos := pos + 1;
    }
  }

  lemma SlotsShowMore(slots: seq<Option<nat>>, tokens: seq<Span>, s: Span, slots': seq<Option<nat>>)
    requires SlotsShow(slots, tokens) && |slots'| == |slots|
    requires forall i | 0 <= i < |slots| :: slots'[i] == if Covers(s, i) then Some(|tokens|) else slots[i]
    ensures SlotsShow(slots', tokens + [s])
  {
    forall i | 0 <= i < |slots| {
      CoveringMore(tokens, s, i);
    }
  }

  // One token more: it goes to the end of the list and into the slots it stands over.
  method PushToken(tokens: seq<Span>, s: Span, slots: array<Option<nat>>) returns (more: seq<Span>)
    requires SlotsShow(slots[..], tokens)
    modifies slots
    ensures more == tokens + [s] && SlotsShow(slots[..], more)
  {
    ghost var before := slots[..];
    FillSlots(slots, s.start, s.end, |tokens|);
    SlotsShowMore(before, tokens, s, slots[..]);
    more := tokens + [s];
  }

  method PushPieces(tokens: seq<Span>, pieces: seq<string>, start: nat, slots: array<Option<nat>>)
    returns (more: seq<Span>)
    requires SlotsShow(slots[..], tokens)
    modifies slots
    ensures more == tokens + Layout(pieces, start) && SlotsShow(slots[..], more)
  {
    hide SlotsShow, Covering, Strip;
    more := tokens;
    var cursor := start;
    for n := 0 to |pieces|
      invariant more == tokens + Layout(pieces[..n], start) && cursor == start + StrippedLength(pieces[..n])
      invariant SlotsShow(slots[..], more)
    {
      var length := |Strip(pieces[n])|;
      more := PushToken(more, Span(pieces[n], cursor, cursor + length), slots);
      cursor := cursor + length;
      assert pieces[..n + 1][..n] == pieces[..n];
    }
    assert pieces[..|pieces|] == pieces;
  }

  method TokenizeAndMap(encode: Encoder, text: string)
    returns (r: Result<(seq<Span>, seq<Option<nat>>), string>)
    ensures match TokensOf(encode, Words(text))
      case Failure(word) => r == Failure(word)
      case Success(tokens) =>
        r.Success? && r.value.0 == tokens && |r.value.1| == |text| && SlotsShow(r.value.1, tokens)
  {
    hide Covering, Layout, Words, IsAsciiAlphanumeric;
    var words, _ := Wordize(text);
    var tokens: seq<Span> := [];
    var slots := new Option<nat>[|text|](_ => None);
    for n := 0 to |words|
      invariant TokensOf(encode, words[..n]) == Success(tokens)
      invariant SlotsShow(slots[..], tokens)
    {
      assert words[..n + 1][..n] == words[..n];
      var encoding := encode(words[n].text);
      if encoding.None? {
        FailureStays(encode, words, n + 1);
        return Failure(words[n].text);
      }
      if IsUnknown(encoding.value) {
        tokens := PushToken(tokens, Span(UNKNOWN, words[n].start, words[n].end), slots);
      } else {
        tokens := PushPieces(tokens, encoding.value, words[n].start, slots);
      }
    }
    assert words[..|words|] == words;
    r := Success((tokens, slots[..]));
  }

  lemma {:induction false} FailureStays(encode: Encoder, words: seq<Span>, n: nat)
    requires n <= |words| && TokensOf(encode, words[..n]).Failure?
    ensures TokensOf(encode, words) == TokensOf(encode, words[..n])
    decreases |words|
  {
    if n == |words| {
      assert words[..n] == words;
    } else {
      assert words[..|words| - 1][..n] == words[..n];
      FailureStays(encode, words[..|words| - 1], n);
    }
  }

  // ---------- Coverage ----------

  // The pieces of each of these words are at least as long, or exactly as long, as the word.
  ghost predicate CoversWords(encode: Encoder, words: seq<Span>) {
    forall k | 0 <= k < |words| :: PiecesLength(encode, words[k]) >= |words[k].text|
  }

  ghost predicate TilesWords(encode: Encoder, words: seq<Span>) {
    forall k | 0 <= k < |words| :: PiecesLength(encode, words[k]) == |words[k].text|
  }

  // An unknown word gets one token of its own length.
  function PiecesLength(encode: Encoder, word: Span): nat {
    match encode(word.text)
    case None => |word.text|
    case Some(pieces) => if IsUnknown(pieces) then |word.text| else StrippedLength(pieces)
  }

  lemma {:induction false} LayoutCovers(pieces: seq<string>, start: nat, p: nat)
    requires start <= p < start + StrippedLength(pieces)
    ensures Covering(Layout(pieces, start), p).Some?
  {
    var last := |pieces| - 1;
    if p < start + StrippedLength(pieces[..last]) {
      LayoutCovers(pieces[..last], start, p);
    }
    var before := Layout(pieces[..last], start);
    CoveringMore(before, Layout(pieces, start)[|before|], p);
  }

  lemma {:induction false} LayoutStaysInside(pieces: seq<string>, start: nat)
    ensures forall k | 0 <= k < |Layout(pieces, start)| ::
      start <= Layout(pieces, start)[k].start <= Layout(pieces, start)[k].end <= start + StrippedLength(pieces)
  {
    if pieces != [] {
      LayoutStaysInside(pieces[..|pieces| - 1], start);
    }
  }

  lemma {:induction false} CoveringInConcat(a: seq<Span>, b: seq<Span>, p: int)
    ensures Covering(a, p).Some? || Covering(b, p).Some? <==> Covering(a + b, p).Some?
  {
    var s := a + b;
    if Covering(a, p).Some? {
      assert s[Covering(a, p).value] == a[Covering(a, p).value];
    }
    if Covering(b, p).Some? {
      assert s[|a| + Covering(b, p).value] == b[Covering(b, p).value];
    }
  }

  // The last word's tokens come after those of the words before it.
  lemma LastWordTokens(encode: Encoder, words: seq<Span>)
    requires words != [] && TokensOf(encode, words).Success?
    ensures var init, word := words[..|words| - 1], words[|words| - 1];
      && TokensOf(encode, init).Success? && encode(word.text).Some?
      && TokensOf(encode, words).value == TokensOf(encode, init).value + WordTokens(encode(word.text).value, word)
  {
    hide WordTokens;
  }

  lemma {:induction false} WordIsCovered(encode: Encoder, text: string, word: Span, p: nat)
    requires encode(word.text).Some? && IsWord(text, word)
      && PiecesLength(encode, word) >= |word.text| && Covers(word, p)
    ensures Covering(WordTokens(encode(word.text).value, word), p).Some?
  {
    hide StrippedLength, Layout, Covering;
    var pieces := encode(word.text).value;
    if IsUnknown(pieces) {
      assert Covers(WordTokens(pieces, word)[0], p);
    } else {
      LayoutCovers(pieces, word.start, p);
    }
  }

  // Every character of every word has a token over it.
  lemma {:induction false} WordsAreCovered(encode: Encoder, text: string, words: seq<Span>, w: nat, p: nat)
    requires CoversWords(encode, words) && TokensOf(encode, words).Success?
    requires w < |words| && IsWord(text, words[w]) && Covers(words[w], p)
    ensures Covering(TokensOf(encode, words).value, p).Some?
    decreases |words|
  {
    hide TokensOf, WordTokens, Covering, IsWord, Covers, PiecesLength;
    var last := |words| - 1;
    LastWordTokens(encode, words);
    if w == last {
      WordIsCovered(encode, text, words[w], p);
    } else {
      WordsAreCovered(encode, text, words[..last], w, p);
    }
    CoveringInConcat(TokensOf(encode, words[..last]).value, WordTokens(encode(words[last].text).value, words[last]), p);
  }

  lemma WordTokensStayInside(encode: Encoder, text: string, word: Span, k: nat)
    requires encode(word.text).Some? && IsWord(text, word) && PiecesLength(encode, word) == |word.text|
    requires k < |WordTokens(encode(word.text).value, word)|
    ensures var token := WordTokens(encode(word.text).value, word)[k];
      word.start <= token.start <= token.end <= word.end
  {
    hide StrippedLength, Layout;
    LayoutStaysInside(encode(word.text).value, word.start);
  }

  // With pieces that tile their word, a token stays inside the word it comes from.
  lemma {:induction false} TokensStayInWords(encode: Encoder, text: string, words: seq<Span>, k: nat) returns (w: nat)
    requires TilesWords(encode, words) && TokensOf(encode, words).Success?
    requires forall j | 0 <= j < |words| :: IsWord(text, words[j])
    requires k < |TokensOf(encode, words).value|
    ensures w < |words|
    ensures var token := TokensOf(encode, words).value[k]; words[w].start <= token.start <= token.end <= words[w].end
    decreases |words|
  {
    hide TokensOf, WordTokens, IsWord, PiecesLength;
    NoTokensWithoutWords(encode, words);
    var last := |words| - 1;
    LastWordTokens(encode, words);
    var before := TokensOf(encode, words[..last]).value;
    if k < |before| {
      w := TokensStayInWords(encode, text, words[..last], k);
    } else {
      w := last;
      WordTokensStayInside(encode, text, words[last], k - |before|);
    }
  }

  lemma {:induction false} NoTokensWithoutWords(encode: Encoder, words: seq<Span>)
    ensures words == [] ==> TokensOf(encode, words) == Success([])
  {
  }

  // A covering tokenizer leaves no character but a space without a token.
  lemma {:induction false} SlotsFilled(encode: Encoder, text: string, p: nat)
    requires CoversWords(encode, Words(text)) && TokensOf(encode, Words(text)).Success? && p < |text| && text[p] != ' '
    ensures Covering(TokensOf(encode, Words(text)).value, p).Some?
  {
    hide TokensOf, WordsFrom, IsWord, CoversWords;
    WordsPartition(text, p);
    WordsAreCovered(encode, text, Words(text), Covering(Words(text), p).value, p);
  }

  // With a tiling tokenizer a position has a token exactly when it is not a space, and that token
  // comes from the word the position lies in.
  lemma {:induction false} SlotsAreExact(encode: Encoder, text: string, p: nat)
    requires TilesWords(encode, Words(text)) && TokensOf(encode, Words(text)).Success? && p < |text|
    ensures var tokens, words := TokensOf(encode, Words(text)).value, Words(text);
      && (Covering(tokens, p).Some? <==> text[p] != ' ')
      && (Covering(tokens, p).Some? ==>
            && Covering(words, p).Some?
            && var token, word := tokens[Covering(tokens, p).value], words[Covering(words, p).value];
            word.start <= token.start <= p < token.end <= word.end)
  {
    hide TokensOf, WordsFrom, TilesWords, IsWord;
    var tokens, words := TokensOf(encode, Words(text)).value, Words(text);
    WordsPartition(text, p);
    if Covering(tokens, p).Some? {
      var w := TokensStayInWords(encode, text, words, Covering(tokens, p).value);
      assert Covers(words[w], p);
    }
    if text[p] != ' ' {
      TilingCovers(encode, words);
      SlotsFilled(encode, text, p);
    }
  }

  lemma TilingCovers(encode: Encoder, words: seq<Span>)
    requires TilesWords(encode, words)
    ensures CoversWords(encode, words)
  {
  }

  // A tokenizer that keeps every word whole tiles every text: no word starts with the mark of a
  // continuation.
  lemma WholeWordsTile(encode: Encoder, text: string)
    requires forall word: string :: encode(word) == Some([word])
    ensures TilesWords(encode, Words(text))
  {
    WordsAreOrdered(text, 0);
    forall k | 0 <= k < |Words(text)| ensures PiecesLength(encode, Words(text)[k]) == |Words(text)[k].text| {
      var word := Words(text)[k].text;
      assert IsWord(text, Words(text)[k]);
      assert [word][..0] == [] && StrippedLength([word]) == |Strip(word)|;
    }
  }
}
