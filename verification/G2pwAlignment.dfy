/**
 Preparing one polyphonic character for the g2pW model: a window of characters around it, the
 tokens of the lower-cased window, a window of tokens around the character's own, and the position
 in the id list at which the model is asked.
 */
module G2pwAlignment {
  import opened Arithmetic
  import opened Wrappers
  import opened G2pwTokenize

  datatype Config = Config(
    labelCount: nat,
    candidates: map<char, seq<nat>>,   // the labels each polyphonic character can have
    windowSize: nat,
    maxLen: nat,
    charIndex: char -> Option<nat>)    // the search in the sorted list of known characters

  // The tokenizer's ids, with its defaults already applied.
  datatype Ids = Ids(cls: int, sep: int, of: string -> int)

  datatype Failure =
    | QueryOutOfBounds(query: nat, length: nat)
    | NoCandidates(c: char)
    | EncodeFailed(word: string)
    | NoTokenMapping(position: nat)
    | MaxLenTooSmall(maxLen: nat)
    | UnknownChar(c: char)

  datatype ModelInput = ModelInput(inputIds: seq<int>, positionId: nat, phonemeMask: seq<real>, charId: nat)

  // ---------- Windows ----------

  function SaturatingSub(a: nat, b: nat): nat {
    if a > b then a - b else 0
  }

  // Half a window before the query and half a window from it on, or what the text has of them.
  function TruncateWindow(textLen: nat, query: nat, windowSize: nat): (r: (nat, nat))
    ensures r.0 + windowSize / 2 == query || (r.0 == 0 && query < windowSize / 2)
    ensures r.1 == query + windowSize / 2 || (r.1 == textLen && textLen < query + windowSize / 2)
    ensures query < textLen ==> r.0 <= query && r.1 <= textLen
    ensures query < textLen ==> (query < r.1 <==> windowSize >= 2)
    ensures query < textLen ==> r.0 <= r.1 && r.1 - r.0 <= windowSize
  {
    var half := windowSize / 2;
    (SaturatingSub(query, half), Min(query + half, textLen))
  }

  // The start of the token window is the allowed one nearest to half a window before the token.
  ghost predicate IsNearestStart(start: nat, wanted: int, latest: nat) {
    && start <= latest
    && forall s: nat | s <= latest :: Distance(start, wanted) <= Distance(s, wanted)
  }

  function Distance(a: int, b: int): nat {
    if a < b then b - a else a - b
  }

  function TruncateTokensAroundPosition(count: nat, position: nat, maxLen: nat): (r: Result<(nat, nat, nat), Failure>)
    ensures r.Failure? <==> maxLen < 3
    ensures r.Failure? ==> r.error == MaxLenTooSmall(maxLen)
    ensures r.Success? && position < count ==>
      var (start, end, positionId) := r.value;
      && start <= position < end <= count
      && positionId == position - start + 1
      && end - start == Min(count, maxLen - 2)
      && (count > maxLen - 2 ==> IsNearestStart(start, position - (maxLen - 2) / 2, count - (maxLen - 2)))
  {
    var keep := SaturatingSub(maxLen, 2);
    if keep == 0 then Failure(MaxLenTooSmall(maxLen))
    else if count <= keep then Success((0, count, position + 1))
    else
      var wanted := position - keep / 2;
      var start := Min(if wanted > 0 then wanted else 0, count - keep);
      Success((start, Min(start + keep, count), position - start + 1))
  }

  // ---------- Lower-casing ----------

  // Lower-casing character by character; a character may become several.
  function Lower(lower: char -> string, text: string): string {
    if text == "" then "" else Lower(lower, text[..|text| - 1]) + lower(text[|text| - 1])
  }

  ghost predicate NeverErases(lower: char -> string) {
    forall c :: |lower(c)| >= 1
  }

  // The character at an index of the lower-cased text comes from the character at that index.
  predicate InPlace(lower: char -> string, text: string, q: nat)
    requires q < |text|
  {
    |Lower(lower, text[..q])| <= q < |Lower(lower, text[..q + 1])|
  }

  lemma {:induction false} PrefixLengths(lower: char -> string, text: string, q: nat)
    requires NeverErases(lower) && q <= |text|
    ensures |Lower(lower, text[..q])| >= q
    ensures |Lower(lower, text[..q])| == q <==> forall i | 0 <= i < q :: |lower(text[i])| == 1
  {
    if q > 0 {
      PrefixLengths(lower, text, q - 1);
      assert text[..q][..q - 1] == text[..q - 1];
      assert |lower(text[q - 1])| >= 1;
    }
  }

  // The index still names the same character after lower-casing exactly when every character
  // before it lower-cases to a single character.
  lemma InPlaceIffNothingGrowsBefore(lower: char -> string, text: string, q: nat)
    requires NeverErases(lower) && q < |text|
    ensures InPlace(lower, text, q) <==> forall i | 0 <= i < q :: |lower(text[i])| == 1
  {
    PrefixLengths(lower, text, q);
    PrefixLengths(lower, text, q + 1);
  }

  lemma {:induction false} LowerPrefix(lower: char -> string, text: string, q: nat)
    requires q <= |text|
    ensures Lower(lower, text[..q]) <= Lower(lower, text)
    decreases |text|
  {
    if q == |text| {
      assert text[..q] == text;
    } else {
      assert text[..|text| - 1][..q] == text[..q];
      LowerPrefix(lower, text[..|text| - 1], q);
    }
  }

  // In place, the index reads the first character of the query's own lower-case form.
  lemma {:induction false} InPlaceReads(lower: char -> string, text: string, q: nat)
    requires NeverErases(lower) && q < |text| && InPlace(lower, text, q)
    ensures q < |Lower(lower, text)| && Lower(lower, text)[q] == lower(text[q])[0]
  {
    PrefixLengths(lower, text, q);
    LowerPrefix(lower, text, q + 1);
    assert text[..q + 1][..q] == text[..q];
  }

  // ---------- The query ----------

  // The window as the tokenizer sees it, and the query's index in it.
  function WindowOf(config: Config, chars: string, query: nat): string
    requires query < |chars|
  {
    var (start, end) := TruncateWindow(|chars|, query, config.windowSize);
    chars[start..end]
  }

  function WindowedQuery(config: Config, chars: string, query: nat): nat
    requires query < |chars|
  {
    query - TruncateWindow(|chars|, query, config.windowSize).0
  }

  ghost predicate MaskMarks(mask: seq<real>, labelCount: nat, candidates: seq<nat>) {
    |mask| == labelCount && forall k | 0 <= k < labelCount :: mask[k] == if k in candidates then 1.0 else 0.0
  }

  method BuildPhonemeMask(labelCount: nat, candidates: seq<nat>) returns (mask: array<real>)
    ensures fresh(mask) && MaskMarks(mask[..], labelCount, candidates)
  {
    mask := new real[labelCount](_ => 0.0);
    for n := 0 to |candidates|
      invariant forall k | 0 <= k < labelCount :: mask[k] == if k in candidates[..n] then 1.0 else 0.0
    {
      var c := candidates[n];
      if c < mask.Length {
        mask[c] := 1.0;
      }
      assert candidates[..n + 1] == candidates[..n] + [c];
    }
    assert candidates[..|candidates|] == candidates;
  }

  // What the model is given: the ids of consecutive tokens between the two marks, the one at
  // positionId being the token at p.
  ghost predicate IsInput(config: Config, ids: Ids, tokens: seq<Span>, p: nat, c: char, input: ModelInput)
    requires p < |tokens| && c in config.candidates
  {
    var n := |input.inputIds|;
    && n == Min(|tokens|, SaturatingSub(config.maxLen, 2)) + 2
    && 1 <= input.positionId < n - 1
    && input.positionId - 1 <= p && p + (n - 1 - input.positionId) <= |tokens|
    && input.inputIds[0] == ids.cls && input.inputIds[n - 1] == ids.sep
    && (forall j | 1 <= j < n - 1 :: input.inputIds[j] == ids.of(tokens[p + j - input.positionId].text))
    && MaskMarks(input.phonemeMask, config.labelCount, config.candidates[c])
    && config.charIndex(c) == Some(input.charId)
  }

  // Every outcome of preparing a query, in the order the checks are made.
  ghost predicate Resolves(config: Config, lower: char -> string, encode: Encoder, ids: Ids,
                           chars: string, query: nat, r: Result<ModelInput, Failure>) {
    if query >= |chars| then r == Failure(QueryOutOfBounds(query, |chars|))
    else if chars[query] !in config.candidates then r == Failure(NoCandidates(chars[query]))
    else
      var text := Lower(lower, WindowOf(config, chars, query));
      var q := WindowedQuery(config, chars, query);
      match TokensOf(encode, Words(text))
      case Failure(word) => r == Failure(EncodeFailed(word))
      case Success(tokens) =>
        if q >= |text| || Covering(tokens, q).None? then r == Failure(NoTokenMapping(q))
        else if config.maxLen < 3 then r == Failure(MaxLenTooSmall(config.maxLen))
        else if config.charIndex(chars[query]).None? then r == Failure(UnknownChar(chars[query]))
        else r.Success? && IsInput(config, ids, tokens, Covering(tokens, q).value, chars[query], r.value)
  }

  method ResolvePolyphonic(config: Config, lower: char -> string, encode: Encoder, ids: Ids, chars: string, query: nat)
    returns (r: Result<ModelInput, Failure>)
    ensures Resolves(config, lower, encode, ids, chars, query, r)
  {
    hide TokensOf, WordsFrom, Covering, Lower, IsNearestStart;
    if query >= |chars| {
      return Failure(QueryOutOfBounds(query, |chars|));
    }
    var c := chars[query];
    if c !in config.candidates {
      return Failure(NoCandidates(c));
    }
    var text := Lower(lower, WindowOf(config, chars, query));
    var q := WindowedQuery(config, chars, query);
    var mapped := TokenizeAndMap(encode, text);
    if mapped.Failure? {
      return Failure(EncodeFailed(mapped.error));
    }
    var (tokens, slots) := mapped.value;
    if q >= |slots| || slots[q].None? {
      return Failure(NoTokenMapping(q));
    }
    var p := slots[q].value;
    assert p == Covering(tokens, q).value;
    var truncated := TruncateTokensAroundPosition(|tokens|, p, config.maxLen);
    if truncated.Failure? {
      return Failure(truncated.error);
    }
    var (start, end, positionId) := truncated.value;
    var finalTokens := tokens[start..end];
    var inputIds := [ids.cls];
    for n := 0 to |finalTokens|
      invariant |inputIds| == n + 1 && inputIds[0] == ids.cls
      invariant forall j | 1 <= j <= n :: inputIds[j] == ids.of(finalTokens[j - 1].text)
    {
      inputIds := inputIds + [ids.of(finalTokens[n].text)];
    }
    inputIds := inputIds + [ids.sep];
    var mask := BuildPhonemeMask(config.labelCount, config.candidates[c]);
    var charId := config.charIndex(c);
    if charId.None? {
      return Failure(UnknownChar(c));
    }
    r := Success(ModelInput(inputIds, positionId, mask[..], charId.value));
  }

  // ---------- What the model is asked about ----------

  // In every prepared input the id at the position is the id of the token that stands over the
  // query's index in the lower-cased window, and the list fits the model.
  lemma PositionNamesTheCoveringToken(config: Config, lower: char -> string, encode: Encoder, ids: Ids,
                                      chars: string, query: nat, r: Result<ModelInput, Failure>)
    requires Resolves(config, lower, encode, ids, chars, query, r) && r.Success?
    ensures query < |chars| && |r.value.inputIds| <= config.maxLen
    ensures var text := Lower(lower, WindowOf(config, chars, query));
      var q := WindowedQuery(config, chars, query);
      && TokensOf(encode, Words(text)).Success?
      && var tokens := TokensOf(encode, Words(text)).value;
      && Covering(tokens, q).Some?
      && r.value.positionId < |r.value.inputIds|
      && r.value.inputIds[r.value.positionId] == ids.of(tokens[Covering(tokens, q).value].text)
  {
    hide TokensOf, WordsFrom, Covering, Lower, TruncateWindow, MaskMarks;
  }

  // The window in lower case, and its words.
  function LowText(config: Config, lower: char -> string, chars: string, query: nat): string
    requires query < |chars|
  {
    Lower(lower, WindowOf(config, chars, query))
  }

  // No character before the query's in its window becomes several in lower case.
  ghost predicate NothingGrowsBefore(config: Config, lower: char -> string, chars: string, query: nat)
    requires query < |chars|
  {
    var window, q := WindowOf(config, chars, query), WindowedQuery(config, chars, query);
    q < |window| && forall i | 0 <= i < q :: |lower(window[i])| == 1
  }

  // With a window of at least two characters, room for three ids, nothing before the query that
  // grows in lower case and a tokenizer that encodes and covers the words of the window, every
  // known polyphonic character that is not a space is prepared, at its own index.
  lemma QueryIsAligned(config: Config, lower: char -> string, encode: Encoder, ids: Ids,
                       chars: string, query: nat, r: Result<ModelInput, Failure>)
    requires Resolves(config, lower, encode, ids, chars, query, r)
    requires query < |chars| && chars[query] in config.candidates && config.charIndex(chars[query]).Some?
    requires config.windowSize >= 2 && config.maxLen >= 3
    requires NeverErases(lower) && NothingGrowsBefore(config, lower, chars, query)
    requires lower(chars[query])[..1] != " "
    requires var words := Words(LowText(config, lower, chars, query));
      CoversWords(encode, words) && forall k | 0 <= k < |words| :: encode(words[k].text).Some?
    ensures r.Success?
    ensures InPlace(lower, WindowOf(config, chars, query), WindowedQuery(config, chars, query))
  {
    hide TokensOf, WordsFrom, Covering, Lower, MaskMarks, IsInput, InPlace, CoversWords;
    var window, q := WindowOf(config, chars, query), WindowedQuery(config, chars, query);
    var text := Lower(lower, window);
    assert q < |window| && window[q] == chars[query];
    InPlaceIffNothingGrowsBefore(lower, window, q);
    InPlaceReads(lower, window, q);
    assert lower(window[q])[..1] == [lower(window[q])[0]];
    EncodesEverything(encode, Words(text));
    SlotsFilled(encode, text, q);
  }

  lemma {:induction false} EncodesEverything(encode: Encoder, words: seq<Span>)
    requires forall k | 0 <= k < |words| :: encode(words[k].text).Some?
    ensures TokensOf(encode, words).Success?
  {
    if words != [] {
      EncodesEverything(encode, words[..|words| - 1]);
    }
  }

  // A window of fewer than two characters is empty, so no query is ever prepared.
  lemma NarrowWindowFails(config: Config, lower: char -> string, encode: Encoder, ids: Ids,
                          chars: string, query: nat, r: Result<ModelInput, Failure>)
    requires Resolves(config, lower, encode, ids, chars, query, r) && config.windowSize < 2
    ensures r.Failure?
  {
    if query < |chars| && chars[query] in config.candidates {
      assert WindowOf(config, chars, query) == "";
    }
  }

  // With a tokenizer that tiles the words of the window, the token asked about lies in the word of
  // the query's index.
  lemma TokenLiesInWordOfIndex(config: Config, lower: char -> string, encode: Encoder, ids: Ids,
                               chars: string, query: nat, r: Result<ModelInput, Failure>)
    requires Resolves(config, lower, encode, ids, chars, query, r) && r.Success?
    requires query < |chars| && TilesWords(encode, Words(LowText(config, lower, chars, query)))
    ensures WindowedQuery(config, chars, query) < |WindowOf(config, chars, query)|
    ensures var text, q := LowText(config, lower, chars, query), WindowedQuery(config, chars, query);
      && q < |text| && TokensOf(encode, Words(text)).Success?
      && var tokens, words := TokensOf(encode, Words(text)).value, Words(text);
      && Covering(tokens, q).Some? && Covering(words, q).Some?
      && var token, word := tokens[Covering(tokens, q).value], words[Covering(words, q).value];
      && word.start <= token.start <= q < token.end <= word.end
      && r.value.positionId < |r.value.inputIds| && r.value.inputIds[r.value.positionId] == ids.of(token.text)
  {
    hide TokensOf, WordsFrom, Covering, Lower, MaskMarks, TilesWords;
    if config.windowSize < 2 {
      NarrowWindowFails(config, lower, encode, ids, chars, query, r);
    }
    PositionNamesTheCoveringToken(config, lower, encode, ids, chars, query, r);
    SlotsAreExact(encode, LowText(config, lower, chars, query), WindowedQuery(config, chars, query));
  }

  // Where the query's own lower-case form starts.
  function OwnIndex(config: Config, lower: char -> string, chars: string, query: nat): nat
    requires query < |chars| && WindowedQuery(config, chars, query) <= |WindowOf(config, chars, query)|
  {
    |Lower(lower, WindowOf(config, chars, query)[..WindowedQuery(config, chars, query)])|
  }

  // A query that is no ASCII letter or digit is a word of its own, wherever it ends up.
  lemma OwnWord(config: Config, lower: char -> string, chars: string, query: nat)
    requires query < |chars| && |lower(chars[query])| == 1
    requires lower(chars[query]) != " " && !IsAsciiAlphanumeric(lower(chars[query])[0])
    requires WindowedQuery(config, chars, query) < |WindowOf(config, chars, query)|
    ensures var text, own := LowText(config, lower, chars, query), OwnIndex(config, lower, chars, query);
      && own < |text| && Covering(Words(text), own).Some?
      && Words(text)[Covering(Words(text), own).value] == Span(lower(chars[query]), own, own + 1)
  {
    hide WordsFrom, Covering;
    var window, q := WindowOf(config, chars, query), WindowedQuery(config, chars, query);
    var text, own := LowText(config, lower, chars, query), OwnIndex(config, lower, chars, query);
    assert window[q] == chars[query] && window[..q + 1][..q] == window[..q];
    LowerPrefix(lower, window, q + 1);
    assert text[own] == lower(chars[query])[0];
    WordsPartition(text, own);
    assert IsWord(text, Words(text)[Covering(Words(text), own).value]);
    assert text[own..own + 1] == lower(chars[query]);
  }

  // The token asked about lies in the query's own word if and only if nothing before the query in
  // its window grows in lower case.
  lemma AlignedIffNothingGrows(config: Config, lower: char -> string, encode: Encoder, ids: Ids,
                               chars: string, query: nat, r: Result<ModelInput, Failure>)
    requires Resolves(config, lower, encode, ids, chars, query, r) && r.Success? && query < |chars|
    requires NeverErases(lower) && TilesWords(encode, Words(LowText(config, lower, chars, query)))
    requires |lower(chars[query])| == 1
    requires lower(chars[query]) != " " && !IsAsciiAlphanumeric(lower(chars[query])[0])
    ensures var text, q := LowText(config, lower, chars, query), WindowedQuery(config, chars, query);
      && TokensOf(encode, Words(text)).Success? && q < |WindowOf(config, chars, query)|
      && var tokens, words := TokensOf(encode, Words(text)).value, Words(text);
      && Covering(tokens, q).Some? && Covering(words, OwnIndex(config, lower, chars, query)).Some?
      && var token := tokens[Covering(tokens, q).value];
      && var own := words[Covering(words, OwnIndex(config, lower, chars, query)).value];
      && r.value.positionId < |r.value.inputIds| && r.value.inputIds[r.value.positionId] == ids.of(token.text)
      && own.text == lower(chars[query])
      && (own.start <= token.start && token.end <= own.end <==> NothingGrowsBefore(config, lower, chars, query))
  {
    hide TokensOf, WordsFrom, Covering, Lower, TilesWords, Resolves;
    TokenLiesInWordOfIndex(config, lower, encode, ids, chars, query, r);
    OwnWord(config, lower, chars, query);
    PrefixLengths(lower, WindowOf(config, chars, query), WindowedQuery(config, chars, query));
  }

  // The capital I with a dot becomes two characters, so a query after it is answered for the
  // character one place too early: here the combining dot instead of the query.
  function LowerDotted(c: char): string {
    if c == '\U{130}' then ['i', '\U{307}'] else [c]
  }

  function OnePiece(word: string): Option<seq<string>> {
    Some([word])
  }

  lemma DottedCapitalShiftsTheQuery(config: Config, ids: Ids, r: Result<ModelInput, Failure>)
    requires config.windowSize >= 4 && config.maxLen >= 5
    requires '\U{884C}' in config.candidates && config.charIndex('\U{884C}').Some?
    requires Resolves(config, LowerDotted, OnePiece, ids, ['\U{130}', '\U{884C}'], 1, r)
    ensures r.Success? && r.value.positionId < |r.value.inputIds|
    ensures r.value.inputIds[r.value.positionId] == ids.of(['\U{307}'])
    ensures !InPlace(LowerDotted, WindowOf(config, ['\U{130}', '\U{884C}'], 1),
                     WindowedQuery(config, ['\U{130}', '\U{884C}'], 1))
  {
    hide TokensOf, WordsFrom, Covering, Lower, TruncateWindow, MaskMarks, IsInput, InPlace, NeverErases;
    var chars := ['\U{130}', '\U{884C}'];
    var text := ['i', '\U{307}', '\U{884C}'];
    DottedWindow(config, chars, text);
    ThreeWords(text);
    ThreeTokens(text);
    InPlaceIffNothingGrowsBefore(LowerDotted, chars, 1);
    PositionNamesTheCoveringToken(config, LowerDotted, OnePiece, ids, chars, 1, r);
  }

  lemma {:induction false} DottedWindow(config: Config, chars: string, text: string)
    requires config.windowSize >= 4 && chars == ['\U{130}', '\U{884C}'] && text == ['i', '\U{307}', '\U{884C}']
    ensures WindowOf(config, chars, 1) == chars && WindowedQuery(config, chars, 1) == 1
    ensures Lower(LowerDotted, chars) == text
    ensures NeverErases(LowerDotted) && |LowerDotted(chars[0])| == 2
  {
    assert chars[..1] == ['\U{130}'] && chars[..1][..0] == [];
    assert Lower(LowerDotted, chars[..1]) == ['i', '\U{307}'];
  }

  lemma ThreeWords(text: string)
    requires |text| == 3 && text[1] != ' ' && text[2] != ' ' && text[0] != ' '
    requires !IsAsciiAlphanumeric(text[1]) && !IsAsciiAlphanumeric(text[2])
    ensures Words(text) == [Span([text[0]], 0, 1), Span([text[1]], 1, 2), Span([text[2]], 2, 3)]
  {
    assert text[0..1] == [text[0]] && text[1..2] == [text[1]] && text[2..3] == [text[2]];
    assert WordsFrom(text, 3) == [];
    assert WordsFrom(text, 2) == [Span([text[2]], 2, 3)];
    assert WordsFrom(text, 1) == [Span([text[1]], 1, 2), Span([text[2]], 2, 3)];
  }

  lemma SingleToken(c: char, i: nat)
    requires !("##" <= [c])
    ensures WordTokens([[c]], Span([c], i, i + 1)) == [Span([c], i, i + 1)]
  {
    assert [[c]][..0] == [];
    assert Layout([[c]], i) == [Span([c], i, i + 1)];
  }

  lemma {:induction false} OneTokenMore(words: seq<Span>, c: char, i: nat)
    requires TokensOf(OnePiece, words) == Success(words) && c != '#'
    ensures TokensOf(OnePiece, words + [Span([c], i, i + 1)]) == Success(words + [Span([c], i, i + 1)])
  {
    SingleToken(c, i);
    assert (words + [Span([c], i, i + 1)])[..|words|] == words;
  }

  lemma ThreeTokens(text: string)
    requires |text| == 3 && '#' !in text
    ensures var words := [Span([text[0]], 0, 1), Span([text[1]], 1, 2), Span([text[2]], 2, 3)];
      TokensOf(OnePiece, words) == Success(words) && Covering(words, 1) == Some(1)
  {
    hide TokensOf, WordTokens, Layout;
    var words := [Span([text[0]], 0, 1), Span([text[1]], 1, 2), Span([text[2]], 2, 3)];
    assert words[..1] == [] + [words[0]] && words[..2] == words[..1] + [words[1]] && words == words[..2] + [words[2]];
    NoTokens();
    OneTokenMore([], text[0], 0);
    OneTokenMore(words[..1], text[1], 1);
    OneTokenMore(words[..2], text[2], 2);
    assert Covering(words[..2], 1) == Some(1);
  }

  lemma NoTokens()
    ensures TokensOf(OnePiece, []) == Success([])
  {
  }
}
