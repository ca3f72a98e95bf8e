/**
 MeloTTS hands its phones and tones to itself as text, one phone:tone line per pair. The reader
 splits at newlines, drops empty lines, and splits each line at its last colon.
 */
module MeloCodec {
  import opened Wrappers
  import opened MeloPhoneIds

  // ---------- Printing ----------

  function Line(pair: Pair): string {
    pair.0 + ":" + pair.1
  }

  function Lines(pairs: seq<Pair>): (r: seq<string>)
    ensures |r| == |pairs| && forall k | 0 <= k < |pairs| :: r[k] == Line(pairs[k])
  {
    seq(|pairs|, k requires 0 <= k < |pairs| => Line(pairs[k]))
  }

  function Join(lines: seq<string>): string {
    if lines == [] then ""
    else if |lines| == 1 then lines[0]
    else lines[0] + "\n" + Join(lines[1..])
  }

  function Print(pairs: seq<Pair>): string {
    Join(Lines(pairs))
  }

  // ---------- Parsing ----------

  function Split(text: string): (lines: seq<string>)
    ensures lines != []
    ensures forall line | line in lines :: '\n' !in line
  {
    if text == "" then [""]
    else
      var rest := Split(text[1..]);
      if text[0] == '\n' then [""] + rest else [[text[0]] + rest[0]] + rest[1..]
  }

  // The last colon of a line, as what stands before it and after it.
  function SplitAtLastColon(line: string): (r: Option<Pair>)
    ensures r.Some? ==> line == Line(r.value) && ':' !in r.value.1
    ensures r.None? ==> ':' !in line
  {
    if line == "" then None
    else
      var last := |line| - 1;
      if line[last] == ':' then Some((line[..last], ""))
      else match SplitAtLastColon(line[..last])
        case Some(pair) => Some((pair.0, pair.1 + [line[last]]))
        case None => None
  }

  function ParseLine(line: string): Pair {
    match SplitAtLastColon(line)
    case Some(pair) => pair
    case None => (line, "_")
  }

  function ParseLines(lines: seq<string>): seq<Pair> {
    if lines == [] then []
    else (if lines[0] == "" then [] else [ParseLine(lines[0])]) + ParseLines(lines[1..])
  }

  function Parse(text: string): seq<Pair> {
    ParseLines(Split(text))
  }

  // ---------- The round trip ----------

  // What a pair must look like to survive. A phone may hold colons.
  predicate Clean(pair: Pair) {
    '\n' !in pair.0 && '\n' !in pair.1 && ':' !in pair.1
  }

  ghost predicate AllClean(pairs: seq<Pair>) {
    forall k | 0 <= k < |pairs| :: Clean(pairs[k])
  }

  lemma {:induction false} LastColonIsUnique(pair: Pair)
    requires ':' !in pair.1
    ensures SplitAtLastColon(Line(pair)) == Some(pair)
    decreases |pair.1|
  {
    var line, last := Line(pair), |Line(pair)| - 1;
    if pair.1 == "" {
      assert line[..last] == pair.0;
    } else {
      var n := |pair.1| - 1;
      assert line[last] == pair.1[n] != ':';
      assert line[..last] == Line((pair.0, pair.1[..n]));
      LastColonIsUnique((pair.0, pair.1[..n]));
      assert pair.1[..n] + [line[last]] == pair.1;
    }
  }

  lemma {:induction false} SplitOneLine(line: string, rest: string)
    requires '\n' !in line
    ensures Split(line + "\n" + rest) == [line] + Split(rest)
    ensures Split(line) == [line]
  {
    var text := line + "\n" + rest;
    if line == "" {
      assert text[1..] == rest;
    } else {
      assert text[1..] == line[1..] + "\n" + rest;
      SplitOneLine(line[1..], rest);
      assert line == [line[0]] + line[1..];
    }
  }

  lemma {:induction false} SplitUndoesJoin(lines: seq<string>)
    requires lines != [] && forall line | line in lines :: '\n' !in line
    ensures Split(Join(lines)) == lines
  {
    if |lines| == 1 {
      SplitOneLine(lines[0], "");
    } else {
      SplitUndoesJoin(lines[1..]);
      SplitOneLine(lines[0], Join(lines[1..]));
    }
  }

  lemma {:induction false} ParseLinesUndoesLines(pairs: seq<Pair>)
    requires AllClean(pairs)
    ensures ParseLines(Lines(pairs)) == pairs
  {
    if pairs != [] {
      assert Clean(pairs[0]);
      LastColonIsUnique(pairs[0]);
      assert Lines(pairs)[1..] == Lines(pairs[1..]);
      ParseLinesUndoesLines(pairs[1..]);
      assert pairs == [pairs[0]] + pairs[1..];
    }
  }

  lemma CleanPairsSurvive(pairs: seq<Pair>)
    requires AllClean(pairs)
    ensures Parse(Print(pairs)) == pairs
  {
    if pairs == [] {
      assert Split("") == [""];
      assert ParseLines([""]) == ParseLines([]);
    } else {
      forall line | line in Lines(pairs) ensures '\n' !in line {
        var k :| 0 <= k < |pairs| && line == Line(pairs[k]);
        assert Clean(pairs[k]);
      }
      SplitUndoesJoin(Lines(pairs));
      ParseLinesUndoesLines(pairs);
    }
  }

  lemma ParsedLineIsClean(line: string)
    requires '\n' !in line
    ensures Clean(ParseLine(line))
  {
    var pair := ParseLine(line);
    if SplitAtLastColon(line).Some? {
      forall c | c in pair.0 || c in pair.1 ensures c in line {
      }
    }
  }

  lemma {:induction false} ParsedLinesAreClean(lines: seq<string>)
    requires forall line | line in lines :: '\n' !in line
    ensures AllClean(ParseLines(lines))
  {
    if lines != [] {
      ParsedLineIsClean(lines[0]);
      ParsedLinesAreClean(lines[1..]);
    }
  }

  // The text carries the pairs back exactly when no field holds a newline and no tone a colon.
  lemma RoundTripIffClean(pairs: seq<Pair>)
    ensures Parse(Print(pairs)) == pairs <==> AllClean(pairs)
  {
    if AllClean(pairs) {
      CleanPairsSurvive(pairs);
    }
    ParsedLinesAreClean(Split(Print(pairs)));
  }

  // Whatever the text, reading it gives pairs that printing and reading keep from then on.
  lemma ParsingSettles(text: string)
    ensures Parse(Print(Parse(text))) == Parse(text)
  {
    ParsedLinesAreClean(Split(text));
    RoundTripIffClean(Parse(text));
  }

  // ---------- Any text ----------

  lemma {:induction false} SplitAtNewline(a: string, b: string)
    ensures Split(a + "\n" + b) == Split(a) + Split(b)
  {
    var text := a + "\n" + b;
    if a == "" {
      assert text[1..] == b && text[0] == '\n';
    } else {
      assert text[1..] == a[1..] + "\n" + b;
      SplitAtNewline(a[1..], b);
    }
  }

  lemma {:induction false} ParseLinesConcat(a: seq<string>, b: seq<string>)
    ensures ParseLines(a + b) == ParseLines(a) + ParseLines(b)
  {
    if a == [] {
      assert a + b == b;
    } else {
      assert (a + b)[1..] == a[1..] + b;
      ParseLinesConcat(a[1..], b);
    }
  }

  // How any text is read: line by line; an empty line is no pair, one without a colon is a phone with
  // the tone _, and the last colon of any other line stands between its phone and its tone.
  lemma ReadingIsByLines(a: string, b: string, line: string, tone: string)
    requires '\n' !in line && '\n' !in tone && ':' !in tone
    ensures Parse(a + "\n" + b) == Parse(a) + Parse(b)
    ensures Parse("") == []
    ensures line != "" && ':' !in line ==> Parse(line) == [(line, "_")]
    ensures Parse(line + ":" + tone) == [(line, tone)]
  {
    SplitAtNewline(a, b);
    ParseLinesConcat(Split(a), Split(b));
    SplitOneLine(line, "");
    SplitOneLine(line + ":" + tone, "");
    LastColonIsUnique((line, tone));
    assert Line((line, tone)) == line + ":" + tone;
    assert ParseLines([line])[..] == (if line == "" then [] else [ParseLine(line)]) + ParseLines([]);
    assert ParseLines([line + ":" + tone])[..] == [ParseLine(line + ":" + tone)] + ParseLines([]);
    assert ParseLines([""]) == [] + ParseLines([]);
  }

  // ---------- Into the model ----------

  // From a printed sentence to the model's two id lists: for clean pairs they are those of the
  // pairs that were printed.
  method SpeakPrinted(lists: map<string, seq<int>>, tones: map<string, int>, phonemes: string)
    returns (phoneIds: seq<int>, toneIds: seq<int>)
    ensures |phoneIds| == |toneIds| == 2 * |MatchedPhones(lists, Parse(phonemes))| + 2
    ensures forall pairs: seq<Pair> | AllClean(pairs) && phonemes == Print(pairs) ::
      phoneIds == PhoneIds(lists, pairs) && toneIds == ToneIds(lists, tones, pairs)
  {
    var parsed := Parse(phonemes);
    phoneIds, toneIds := MapPhoneTonePairsToIds(lists, tones, parsed);
    EqualLengths(lists, tones, parsed);
    forall pairs: seq<Pair> | AllClean(pairs) && phonemes == Print(pairs) ensures parsed == pairs {
      CleanPairsSurvive(pairs);
    }
  }

  lemma {:induction false} EqualLengths(lists: map<string, seq<int>>, tones: map<string, int>, pairs: seq<Pair>)
    ensures |PhoneIds(lists, pairs)| == |ToneIds(lists, tones, pairs)| == 2 * |MatchedPhones(lists, pairs)| + 2
  {
    hide MatchedPhones, MatchedTones;
    if MatchedPhones(lists, pairs) == [] {
      assert MatchedTones(lists, tones, pairs) == [];
    } else {
      ListsInLockStep(lists, tones, pairs, 0);
    }
  }
}
