# Dengjen speech synthesis: verified models

Dafny models of the parts of the Dengjen text-to-speech engine where state, interleaving or index
arithmetic decide whether it is right, with proofs about every run or every input. Verify with
`dafny verify dfyconfig.toml`.

## What is modelled

**Synthesis calls and unloading** (`UnloadProtocol`, `UnloadSafety`, `UnloadStacks`, `UnloadKnots`,
`UnloadProgress`, `UnloadPool`, `UnloadRuns`, `CallEvents`, `CallOutcomes`, `CallbackTokens`,
`GoCallbacks`, `CancelSlot`, `Cancellation`). The C library is a transition system. Its state has
voices with a `closing` flag, a guard counter, a cancel slot and an unload that checks, sleeps on the
condition variable or has returned; calls with their mode, phase, cancel flag and producer; threads with a stack
of frames and the thread-local cell that names the voice of the innermost pool job. Every lock section,
callback, pull and return is a step of its own, so a run is any interleaving; only a realtime stream's
read of its own flag goes with the step before it, with which it commutes. The pool has a fixed set of
threads of any number. A realtime call needs a second one for its producer before its first receive
comes back; parallel and batched calls split into pieces that other pool threads may take, and a pool
thread that waits for a piece may start other jobs on top. The caller's code may speak, cancel and
unload, also from inside a callback. The Go callback registry and the cancel slot are classes tied to
the values the runs speak about.

**Streams** (`RealtimeStream`, `SentenceStreams`). The realtime stream is a producer that waits for a
pool thread, an unbounded queue, a consumer and a flag that only ever goes up; it refines one
sequential pass. The lazy, parallel and batched streams are three classes that refine one list of
results.

**Chunking** (`MelChunker`, `TokenSplit`). The growing, padded windows of the streaming Piper model
with slices that count negative ends from the back, and Kokoro's splitting of long token sequences.

**Text** (`Numerals`, `StrictNumerals`, `NumberPasses`, `LongestMatch`, `PiperPhonemeIds`, `KokoroVocab`,
`MeloPhoneIds`, `MeloCodec`, `G2pwTokenize`, `G2pwAlignment`, `HebrewGlyphs`, `HebrewSegments`,
`HebrewAlphabet`, `HebrewVowels`, `HebrewIpa`, `NumberContexts`). Chinese numerals with a strict
reader that accepts exactly what the printer writes, the three normalising passes, three differently
bounded tokenisers against one longest match, the phone and tone text format, the alignment of a
polyphonic character with a model position, and the Hebrew segment machine.

## What the proofs found

These promises do not hold for all inputs. Each has its exact condition and concrete cases.

- *Streamed audio covers the utterance.* It does exactly when the utterance is decoded in one go,
  one chunk suffices, or the padding lies between 1 and the first chunk's width
  (`StreamTiling`). Without padding, all pieces but the last are empty (`UnpaddedPieces`);
  with more, the second window wraps round to the back (`OverpaddedSecondPiece`). The library's own
  settings, 72 and 3, always satisfy it (`LibrarySettingsTile`).
- *Unloading waits for the callbacks and returns.* Safety always holds (`NoCallbackAfterUnload`). A
  waiting unload has a continuation in which it returns if and only if its thread is not knotted
  (`ReturnsIffNotKnotted`), and the same condition decides whether a realtime call that blocks in its
  first receive can get its producer (`ServedIffNotKnotted`). A knot is a set of frames that wait for
  each other: unloads for jobs under knotted frames, split work for pieces under them, and unloads or
  receives for more pool threads than the knot leaves free. Knots do arise, however large the pool is: two
  callbacks that unload each other's voice (`MutualUnloadDeadlocks`); a callback that unloads the voice
  of an outer job of its own thread (`NestedUnloadDeadlocks`); callbacks that unload voices with a call
  still queued, exactly when they leave fewer threads than such a call needs, one or for a realtime
  call two (`StarvedPoolDeadlocks`); as many realtime calls as the pool has threads, all started
  before a producer got one (`FilledPoolDeadlocks`). A caller stays clear of them by not waiting for an
  unload in a callback and having fewer realtime calls under way than the pool has threads
  (`SpareThreadsLetUnloadsReturn`).
- *After unloading from its own callback a worker still delivers FINISHED* (documented at
  `crates/frontends/capi/src/lib.rs:529-531`). One more event comes exactly when the callback was a
  SPEECH callback and asked for more; it is ERROR if the stream panics and FINISHED if not
  (`EventsAfterClosingCallback`). A SPEECH callback that asks to stop and a FINISHED callback get
  none (`StopAfterOwnUnload`, `UnloadFromFinished`). The model follows the code.
- *Hebrew words keep their consonants.* They do exactly when the last voweled letter is not a silent
  sheva that consonants follow, or when no letter is voweled and none sounds
  (`WordKeepsConsonantsIff`, `FinalConsonantLost`). A holam counts only on a vav: a word pointed
  with holam on other letters alone loses everything (`HolamWithoutVavIsLost`).
- *The g2pW position names the query character.* For a query that is no ASCII letter or digit the
  token asked about lies in the query's own word exactly when every character before it in the
  window keeps its length in lower case (`AlignedIffNothingGrows`, `DottedCapitalShiftsTheQuery`).
- *Phones and tones survive their text format.* They do exactly when no field holds a newline and
  no tone a colon (`RoundTripIffClean`).

## Model

| member | source | states |
|---|---|---|
| UnloadSafety.RunningCountsGuards | crates/frontends/capi/src/lib.rs:119-123 | in every state of every run the counter of a voice equals the number of its calls that hold a guard |
| UnloadSafety.CountStep | crates/frontends/capi/src/lib.rs:143-153 | every step, also a failing pool after the guard was taken, keeps counters equal to guards |
| UnloadSafety.ClosingOnlyBegins | crates/frontends/capi/src/lib.rs:129-130 | a voice is closing after a step exactly if it was or the step begins its unload, so the flag never goes down |
| UnloadSafety.SleepingUnloadHasGuard | crates/frontends/capi/src/lib.rs:136-152 | no wakeup is lost: while an unload sleeps some guard is left, and the drop that leaves none makes it check again |
| UnloadSafety.NoCallbackAfterUnload | crates/frontends/capi/src/lib.rs:97-105 | once an unload has waited and returned, no call is added to the voice, none delivers an event, and none can, in any continuation of any run |
| UnloadStacks.LinkedRun | crates/frontends/capi/src/lib.rs:985-1009 | in every run each call on a thread owns exactly the frame it points at, and each waiting unload is the top frame of its thread |
| UnloadStacks.ActiveIsInnermost | crates/frontends/capi/src/lib.rs:990-1008 | saving and restoring the cell keeps it naming the innermost pool job of its thread through any nesting |
| UnloadStacks.UnloadSkipsWaitIffOwnCallback | crates/frontends/capi/src/lib.rs:129-135 | an unload returns without waiting if and only if the innermost pool job of its thread belongs to the same voice |
| UnloadKnots.KnotIsForever | crates/frontends/capi/src/lib.rs:129-140 | whatever a run does next, the frames of a knot and all below them stay in place, and the unloads and blocked receives on top of its threads go on waiting on unchanged stacks |
| UnloadKnots.OuterJobUnloadDeadlocks | crates/frontends/capi/src/lib.rs:131-140 | in every run, unloading a voice that owns an outer job of the thread, but not the innermost one, knots the thread with itself |
| UnloadRuns.NestedUnloadDeadlocks | crates/frontends/capi/src/lib.rs:131-140 | in a pool of any size from two on, a run in which a thread that waits for a piece of a parallel or a batched call speaks another call on top, whose callback unloads the outer voice, after which no continuation lets it return |
| UnloadRuns.MutualUnloadDeadlocks | crates/frontends/capi/src/lib.rs:131-140 | in a pool of any size from two on, a run in which two callbacks unload each other's voice, after which no continuation lets either unload return |
| UnloadRuns.StarvedPoolDeadlocks | crates/dengjen/synth/src/lib.rs:61-75 | for every pool size n, a run in which k callbacks each unload a voice of their own that has a call in the queue; the unloads can return if and only if n - k threads are enough for such a call: two if it is a realtime call, one if not |
| UnloadRuns.FilledPoolDeadlocks | crates/dengjen/synth/src/lib.rs:727-823 | for every pool size, a run in which as many realtime calls as the pool has threads block in their first receive: no continuation gives any of them its producer, or lets an unload from an application thread return, though it cancels first |
| UnloadProgress.UnloadCanReturn | crates/frontends/capi/src/lib.rs:136-153 | outside every knot a waiting unload has a continuation, of starting, serving, cancelling, moving and ending calls, finishing pieces and finishing unloads alone, that ends with it returned |
| UnloadProgress.AcyclicHasNoKnot | crates/frontends/capi/src/lib.rs:131-140 | waits for jobs, pieces and pool threads that go down in some ranking of the frames leave no room for a knot |
| UnloadProgress.ReturnsIffNotKnotted | crates/frontends/capi/src/lib.rs:129-153 | in every run a waiting unload has a continuation in which it returns if and only if its thread is not knotted |
| UnloadProgress.ServedIffNotKnotted | crates/dengjen/synth/src/lib.rs:727-823 | in every run a realtime call in or bound for its first receive has a continuation in which its producer gets a thread if and only if its thread is not knotted |
| UnloadProgress.AcyclicWaitsCanReturn | crates/frontends/capi/src/lib.rs:129-153 | with waits that go down in some ranking of the frames every waiting unload has such a continuation |
| UnloadPool.PieceIsYounger | crates/dengjen/synth/src/lib.rs:572-587 | in every run a piece on a thread was taken after the work it is a piece of had started, so waits for pieces alone never close a circle |
| UnloadPool.SpareThreadsLetUnloadsReturn | crates/dengjen/synth/src/lib.rs:61-75 | in every run, while no callback waits in an unload and fewer realtime calls are under way than the pool has threads, every waiting unload has a continuation in which it returns |
| UnloadProgress.ClosingCallsEndSoon | crates/frontends/capi/src/lib.rs:1064-1088 | from the moment a voice is closing, the steps each of its calls takes, its producer's included, plus those it has left never exceed what it had left, at most eleven |
| CallOutcomes.EndedCallLog | crates/frontends/capi/src/lib.rs:966-1088 | the log of a call that is over follows from the run's actions: one SPEECH for each audio chunk checked with the voice open, then ERROR if an error item was checked with the voice open or a pool job's stream could not be built or panicked, FINISHED if the stream ended, a check found the voice closing or a set flag was seen, and nothing if a SPEECH callback stopped it or the call returned the error; exactly one of these has happened |
| CallOutcomes.SpeechEventsAreOpenChunks | crates/frontends/capi/src/lib.rs:1064-1081 | at any moment the SPEECH events of a call, one in delivery included, are as many as the audio chunks it pulled and then found its voice open |
| CallOutcomes.NothingAfterEnding | crates/frontends/capi/src/lib.rs:1064-1088 | after the action that decides how it ends a call pulls and checks nothing more, and its only moves deliver a terminal event |
| CallEvents.FinishedCallLog | crates/frontends/capi/src/lib.rs:1058-1088 | the order of the events of a finished call, by its outcome: SPEECH* then one terminal event; or SPEECH+ alone; or SPEECH* alone, and none at all for a pool job |
| CallEvents.RunningCallLog | crates/frontends/capi/src/lib.rs:1064-1086 | a call that can still call back has delivered only SPEECH events, apart from one being delivered |
| CallEvents.BoundedDrain | crates/frontends/capi/src/lib.rs:1064-1088 | events delivered while closing are none, one SPEECH, or at most two ending in a terminal one |
| CallEvents.LateEventsAreTheSuffix | crates/frontends/capi/src/lib.rs:1065-1067 | the events counted as late are exactly the suffix of the log from the moment the voice is closing |
| CallEvents.EventsAfterClosingCallback | crates/frontends/capi/src/lib.rs:1064-1088 | after any callback that returns with its voice closing, a call that has ended delivered one more event exactly if it was a SPEECH callback asking for more, ERROR if its stream panicked afterwards and FINISHED otherwise |
| UnloadRuns.StopAfterOwnUnload | crates/frontends/capi/src/lib.rs:529-531 | a run in which a SPEECH callback unloads its own voice, asks to stop, and no terminal event comes |
| UnloadRuns.FinishAfterOwnUnload | crates/frontends/capi/src/lib.rs:529-531 | a run in which it asks for more and FINISHED ends the call |
| UnloadRuns.UnloadFromFinished | crates/frontends/capi/src/lib.rs:529-531 | a run in which a FINISHED callback unloads its own voice, asks for more and gets no event |
| CallEvents.TokenReleasedOnceAfterLastEvent | bindings/go/speak.go:82-97 | each token is unpinned at most once, exactly once by the end of its call, and never while an event may still come |
| GoCallbacks.CallbackRegistry.RegisterCallback | bindings/go/callback.go:42-51 | a fresh token is pinned and maps to the handler |
| GoCallbacks.CallbackRegistry.ReleaseCallback | bindings/go/callback.go:53-65 | the entry goes and the pin is undone only by the caller that still finds it |
| GoCallbacks.CallbackRegistry.HandleEvent | bindings/go/callback.go:81-118 | the code tells whether the handler wants more, a nil one always and a panicking one never, and the token goes back exactly on a terminal event or a stop |
| GoCallbacks.AnswersOfHandlers | bindings/go/callback.go:81-118 | a token that is gone or has a nil function asks for more, a panicking function does not, any other answers for itself |
| GoCallbacks.CallbackRegistry.FinishSpeak | bindings/go/speak.go:91-97 | a failed speak call gives its token back, a successful one leaves it |
| GoCallbacks.HandlerReleasesWithTheCall | bindings/go/callback.go:108-117 | whatever the handlers answer, the registry's tokens after an event are those of the protocol's next state, and the token goes back exactly when the call can no longer call back |
| CancelSlot.SlotHoldsLatestRunning | crates/frontends/capi/src/lib.rs:936-964 | in every run of overlapping syntheses the slot holds the most recently started one while it runs and is empty otherwise |
| CancelSlot.CancelReachesOnlyTheLatest | crates/frontends/capi/src/lib.rs:936-944 | cancelling sets the flag of the latest synthesis if it still runs and no other flag |
| CancelSlot.CancellationIsMonotone | crates/core/src/cancellation.rs:12-18 | a token's flag is never cleared, in any run |
| CancelSlot.EarlierSynthesisCannotBeCancelled | crates/frontends/capi/src/lib.rs:767-772 | the limit documented for the cancel call is reached: a run in which two syntheses overlap, one cancel reaches the later one, and after that one has finished another reaches nobody though the earlier one is still going |
| CancelSlot.VoiceSlot.Start | crates/frontends/capi/src/lib.rs:1034-1042 | a new realtime synthesis puts a fresh token into the slot, whatever it held |
| CancelSlot.VoiceSlot.Finish | crates/frontends/capi/src/lib.rs:951-964 | a finishing synthesis empties the slot only if it still holds its own token |
| CancelSlot.VoiceSlot.CancelActive | crates/frontends/capi/src/lib.rs:936-944 | cancelling sets the held token's flag and nothing else |
| RealtimeStream.DeliversPrefixOfSequential | crates/dengjen/synth/src/lib.rs:727-834 | at every moment of every run the delivered items followed by the queued ones are a prefix of the sequential output |
| RealtimeStream.UncancelledDeliversEverything | crates/dengjen/synth/src/lib.rs:727-834 | an uncancelled run whose consumer has seen the end has delivered exactly the sequential output |
| RealtimeStream.DeliveredInPlace | crates/dengjen/synth/src/lib.rs:727-810 | what such a run has delivered, from the job alone: behind the items of the sentences before it each chunk of a sentence as the output configuration shapes it or with its own error, then the silence, or the error of a failed opening or of a panic, with which the stream ends |
| RealtimeStream.DeliveredCount | crates/dengjen/synth/src/lib.rs:727-810 | if every sentence is streamed to its end, the items delivered are as many as all chunks and silences together |
| RealtimeStream.NeverStuck | crates/dengjen/synth/src/lib.rs:727-834 | until the consumer has seen the end or gone away, the stream itself has a next step, unless its consumer is in the receive and the producer has no thread yet |
| RealtimeStream.UndisturbedRunsComplete | crates/dengjen/synth/src/lib.rs:727-834 | without cancellation and with a consumer that stays every run has a bounded number of steps, and one that cannot go on by itself has delivered exactly the sequential output, or nothing because the producer still waits for a pool thread |
| RealtimeStream.CancellationIsPrompt | crates/dengjen/synth/src/lib.rs:780-834 | after a cancellation at most two more items are sent and at most one more is delivered |
| SentenceStreams.LazyStream.Next | crates/dengjen/synth/src/lib.rs:539-557 | each call yields the result of the next sentence; the sentences synthesised so far followed by those pending never change, and one more is synthesised exactly if an item comes |
| SentenceStreams.ParallelStream.Next | crates/dengjen/synth/src/lib.rs:596-602 | each call yields the next of the results that were all computed beforehand |
| SentenceStreams.BatchedStream.ComputeNextGroup | crates/dengjen/synth/src/lib.rs:639-673 | the next group is the results of up to a batch of sentences, or the pool's error, which ends the input |
| SentenceStreams.BatchedStream.Next | crates/dengjen/synth/src/lib.rs:676-687 | with the pool available each call yields the result of the next sentence; without it the pool's error once |
| SentenceStreams.BatchedStream.SynthesisIsByWholeGroups | crates/dengjen/synth/src/lib.rs:610-687 | after p calls with batch size b exactly min(n, b * ceil(p / b)) of n sentences have been synthesised |
| SentenceStreams.CollectLazy | crates/dengjen/synth/src/lib.rs:539-557 | draining the lazy stream gives one result per sentence in order, errors included |
| SentenceStreams.CollectParallel | crates/dengjen/synth/src/lib.rs:567-602 | draining the parallel stream gives the same list; without a pool there is only the pool's error |
| SentenceStreams.CollectBatched | crates/dengjen/synth/src/lib.rs:625-687 | draining the batched stream gives the same list for every batch size; without a pool its error alone, if there is any sentence |
| MelChunker.AdaptiveMelChunker.Next | crates/dengjen/models/piper/src/streaming.rs:407-440 | the k-th call yields the k-th chunk of the schedule, in numbers: the window ends where k growing widths and k paddings end and starts two paddings before the previous end, both trims are one padding, and the chunk is the last one exactly if at most 44 frames lie beyond |
| MelChunker.CursorIsInNumbers | crates/dengjen/models/piper/src/streaming.rs:399-440 | the end of the k-th chunk in closed form: the j-th width is j times the first while that stays below 1024 and 1024 from then on, and each chunk adds a padding |
| MelChunker.ChunkCount | crates/dengjen/models/piper/src/streaming.rs:410-430 | the number of chunks is the least k >= 1 whose widths and paddings reach the frames but 44, for any chunk size and padding |
| MelChunker.MelTiling | crates/dengjen/models/piper/src/streaming.rs:343-440 | the trimmed pieces are in bounds, non-empty, in order and cover every sample once, if and only if one chunk suffices or 1 <= padding <= first width |
| MelChunker.UnpaddedPieces | crates/dengjen/models/piper/src/streaming.rs:423-439 | without padding every piece but the last is empty |
| MelChunker.OverpaddedSecondPiece | crates/dengjen/models/piper/src/streaming.rs:413-417 | with more padding than the first width the second piece never starts where the first one ended |
| MelChunker.SpeechStreamer.Next | crates/dengjen/models/piper/src/streaming.rs:360-370 | nothing once cancelled; a short utterance whole and once; otherwise the next trimmed piece |
| MelChunker.Stream | crates/dengjen/models/piper/src/streaming.rs:293-371 | draining the streamer gives exactly the pieces of the schedule |
| MelChunker.StreamTiling | crates/dengjen/models/piper/src/streaming.rs:305-371 | the whole stream covers the utterance once if and only if its frames are at most two chunk sizes and two paddings, or at most one width, one padding and 44, or 1 <= padding <= first width |
| MelChunker.ChunkSizeGrows | crates/dengjen/synth/src/lib.rs:703-709 | the chunk size asked for never shrinks from sentence to sentence and stays within five times the first |
| MelChunker.ChunkSizeInNumbers | crates/dengjen/synth/src/lib.rs:703-709 | the chunk size grows by the first one with each sentence up to the fifth and stays from there on, capped at a million |
| MelChunker.EverySentenceTiles | crates/dengjen/synth/src/lib.rs:732-738 | a padding that suits the first sentence's chunk size covers every sentence once |
| MelChunker.LibrarySettingsTile | crates/frontends/capi/src/lib.rs:1021-1022 | the C library's realtime chunk size and padding cover every sentence once |
| Numerals.FormatSection | crates/text/pinyin-phonemizer/src/numbers.rs:34-56 | the loop says the places of a section as the recursive printer does, which the strict reader is proved about |
| Numerals.FormatCardinal | crates/text/pinyin-phonemizer/src/numbers.rs:58-77 | the printed words are the cardinal that both readers are proved about |
| StrictNumerals.StrictReadsExactly | crates/text/pinyin-phonemizer/src/numbers.rs:34-77 | a reader that wants a 零 exactly where places are skipped between digits, also across 万, and rejects 一十 at the front reads a text as n if and only if n is below 10^8 and the text is its cardinal |
| StrictNumerals.IntegerReads | crates/text/pinyin-phonemizer/src/numbers.rs:79-88 | up to eight digits without a leading zero are spoken as the number they write, all other digit strings digit by digit |
| Numerals.CardinalRoundTrip | crates/text/pinyin-phonemizer/src/numbers.rs:34-77 | a reader recovers n from its cardinal for every n below 10^8 |
| Numerals.ShortParses | crates/text/pinyin-phonemizer/src/numbers.rs:79-88 | up to eight digits the 32-bit parse never fails and gives the value |
| Numerals.CardinalIsNotDigitwise | crates/text/pinyin-phonemizer/src/numbers.rs:79-88 | a digit string read as a cardinal is never spoken like one read digit by digit |
| Numerals.IntegerInjective | crates/text/pinyin-phonemizer/src/numbers.rs:26-88 | digit strings of any length are spoken alike if and only if they are equal |
| NumberPasses.NormalizeTemperatures | crates/text/pinyin-phonemizer/src/numbers.rs:100-155 | the scanning loop equals the recursive rewriting of temperatures |
| NumberPasses.NormalizePercentages | crates/text/pinyin-phonemizer/src/numbers.rs:157-206 | the scanning loop equals the recursive rewriting of percentages |
| NumberPasses.NormalizePlainDigits | crates/text/pinyin-phonemizer/src/numbers.rs:208-238 | pushing and popping equals a run-by-run copy in which only a point between digits changes; the pop removes nothing else |
| NumberPasses.NumbersStart | crates/text/pinyin-phonemizer/src/numbers.rs:105-115 | a number starts exactly at a digit, or at either minus sign before a digit |
| NumberPasses.NumberIsWritten | crates/text/pinyin-phonemizer/src/numbers.rs:105-151 | what is scanned as a number is the sign if one stands there, all the digits that follow, and a point only with all the digits behind it, and these are what is spoken |
| NumberPasses.CelsiusIsFound | crates/text/pinyin-phonemizer/src/numbers.rs:128-138 | a Celsius sign is found exactly if, after spaces, the one character for it or a degree sign directly before a C ends there |
| NumberContexts.TemperatureInText | crates/text/pinyin-phonemizer/src/numbers.rs:94-155 | in any text a signed number before a degree sign, after a space or a character that belongs to no number, is normalised to its words and the unit, whatever follows |
| NumberContexts.PercentageInText | crates/text/pinyin-phonemizer/src/numbers.rs:94-206 | likewise a signed number before either percent sign is normalised to its words after the prefix |
| NumberContexts.NumberInText | crates/text/pinyin-phonemizer/src/numbers.rs:94-238 | between two such characters a number or decimal is normalised to its whole part, the spoken point and its fraction digit by digit, if no degree sign follows a space behind it |
| NumberContexts.YearInText | crates/text/pinyin-phonemizer/src/numbers.rs:208-238 | in any text digits before the word for year, after such a character, are read one by one exactly if there are four of them, and as a number otherwise |
| NumberPasses.FractionIsReadDigitwise | crates/text/pinyin-phonemizer/src/numbers.rs:213-235 | digits behind a point that a digit precedes are read one by one, however many and whatever follows, and the point is spoken |
| NumberContexts.DecimalYearInText | crates/text/pinyin-phonemizer/src/numbers.rs:208-238 | a decimal before the word for year is spoken as a decimal, even with four digits behind the point |
| NumberContexts.NormalizedSplits | crates/text/pinyin-phonemizer/src/numbers.rs:94-238 | a character that belongs to no number, sign, unit or year, or a space that no degree sign follows, splits the work of all three passes |
| NumberPasses.NoDegreeSignUnchanged | crates/text/pinyin-phonemizer/src/numbers.rs:100-155 | a text without a degree sign passes the first pass unchanged |
| NumberPasses.NoPercentSignUnchanged | crates/text/pinyin-phonemizer/src/numbers.rs:157-206 | a text without a percent sign passes the second pass unchanged |
| NumberPasses.PlainDigitsLeavesNone | crates/text/pinyin-phonemizer/src/numbers.rs:208-238 | the last pass leaves no ASCII digit in any text |
| NumberPasses.NormalizingIsClosed | crates/text/pinyin-phonemizer/src/numbers.rs:94-98 | no ASCII digit is left, digit-free text is unchanged, and normalising twice is normalising once |
| NumberPasses.NormalizeNumbers | crates/text/pinyin-phonemizer/src/numbers.rs:94-98 | the three passes in sequence leave no ASCII digit and return digit-free text as it is |
| LongestMatch.GreedyIsUnique | crates/dengjen/models/kokoro/src/vocab.rs:71-92 | the longest-match parse is the one and only segmentation into longest keys and characters where no key fits |
| LongestMatch.ParseIsLossless | crates/dengjen/models/kokoro/src/vocab.rs:71-92 | the pieces of the parse, matched or skipped, spell the text |
| LongestMatch.TokenIdsAreTheParse | crates/dengjen/models/kokoro/src/vocab.rs:71-92 | the ids are those of the matched pieces in order |
| LongestMatch.BoundedSearchIsFull | crates/dengjen/models/piper/src/config.rs:127-138 | a bound no key at the position exceeds does not change the search |
| LongestMatch.FindMatch | crates/dengjen/models/piper/src/config.rs:133-138 | the descending search finds the first id of the widest key that lists any, or nothing if no key does |
| PiperPhonemeIds.LongestEntryByFirstChar | crates/dengjen/models/piper/src/config.rs:112-120 | the index holds for each first character the length of its longest key, for every order of the keys |
| PiperPhonemeIds.MapPhonemesToIds | crates/dengjen/models/piper/src/config.rs:105-150 | the search bounded per first character yields the ids of the plain longest match between begin and end, each padded |
| PiperPhonemeIds.IdsInPlace | crates/dengjen/models/piper/src/lib.rs:79-92 | the ids start with that of ^, end with that of $ and have that of _ behind each match; a voice that lacks one of these fails with the first missing |
| KokoroVocab.Vocab.Tokenize | crates/dengjen/models/kokoro/src/vocab.rs:71-92 | the search capped by the longest key yields the ids of the plain longest match |
| KokoroVocab.PiperAgreesWithKokoro | crates/dengjen/models/piper/src/config.rs:105-150 | on a shared map Piper's ids without begin, end and pads are Kokoro's |
| MeloPhoneIds.LongestEntry | crates/dengjen/models/melotts/src/config.rs:107-112 | the bound is at least one, no key exceeds it and some key reaches it |
| MeloPhoneIds.MapPhoneTonePairsToIds | crates/dengjen/models/melotts/src/config.rs:85-145 | the nested loops yield the framed ids of the plain longest match of each phone, with each pair's tone beside them |
| MeloPhoneIds.ListsInLockStep | crates/dengjen/models/melotts/src/config.rs:114-144 | both lists have length 2m + 2 for m matches, with matches at odd places and blanks between |
| MeloPhoneIds.FrameAndBlanks | crates/dengjen/models/melotts/src/config.rs:90-105 | the lists start with the id of ^, end with that of $ and have that of _ between, each 0 when missing, and beside all of them the tone of _, which also stands for unknown tones |
| MeloPhoneIds.MatchCarriesItsPairsTone | crates/dengjen/models/melotts/src/config.rs:117-136 | the tone beside a match is the tone of the pair the match came from |
| MeloPhoneIds.MeloAgreesWithKokoro | crates/dengjen/models/melotts/src/config.rs:119-139 | on a shared map MeloTTS's phone ids without begin, end and blanks are Kokoro's ids of the phones |
| MeloCodec.RoundTripIffClean | crates/dengjen/models/melotts/src/lib.rs:64-101 | reading the printed sentence gives the pairs back if and only if no field holds a newline and no tone a colon |
| MeloCodec.ParsingSettles | crates/dengjen/models/melotts/src/lib.rs:64-101 | what any text is read as survives printing and reading |
| MeloCodec.ReadingIsByLines | crates/dengjen/models/melotts/src/lib.rs:89-99 | any text is read line by line: no pair for an empty line, the tone _ for a line without a colon, and the last colon of any other line between its phone and its tone |
| MeloCodec.SpeakPrinted | crates/dengjen/models/melotts/src/lib.rs:89-123 | the id lists of a printed clean sentence are those of its pairs, and have equal length 2m + 2 |
| TokenSplit.SplitTokens | crates/dengjen/models/kokoro/src/inference.rs:32-46 | the chunks concatenate to the tokens, each but the last ends at the last break of its window or fills it, and the rest fits |
| TokenSplit.SplitIsUnique | crates/dengjen/models/kokoro/src/inference.rs:32-46 | those conditions leave exactly one split |
| TokenSplit.ChunksFit | crates/dengjen/models/kokoro/src/inference.rs:32-46 | every chunk is within the limit and only the empty sequence gives an empty chunk |
| TokenSplit.CutsFollowBreaks | crates/dengjen/models/kokoro/src/inference.rs:37-41 | a chunk that does not end at a break fills the limit and holds no break |
| TokenSplit.ChunkCountBound | crates/dengjen/models/kokoro/src/inference.rs:32-46 | there are at most 1 + breaks + n / limit chunks |
| TokenSplit.KokoroAudioStreamer.Next | crates/dengjen/models/kokoro/src/inference.rs:276-291 | the next piece is a prefix of what remains, short only at the end; nothing once cancelled or with chunk size zero |
| TokenSplit.KokoroAudioStreamer.Drain | crates/dengjen/models/kokoro/src/inference.rs:258-291 | pulling to the end gives all samples in order, in full pieces but for the last |
| G2pwTokenize.Wordize | crates/text/pinyin-phonemizer/src/tokenize.rs:17-56 | the words are the maximal runs and single characters, and each slot shows the word over its position |
| G2pwTokenize.WordsPartition | crates/text/pinyin-phonemizer/src/tokenize.rs:17-56 | every character that is not a space lies in exactly one well-formed word, and no space in any |
| G2pwTokenize.TokenizeAndMap | crates/text/pinyin-phonemizer/src/tokenize.rs:58-119 | the tokens are those of all words, each slot shows the last token over its position, and the first word that cannot be encoded is reported |
| G2pwTokenize.TokensOfWord | crates/text/pinyin-phonemizer/src/tokenize.rs:77-115 | an unknown word has one token over all of it; otherwise the pieces of a word, with their ## marks, stand side by side from its start, each as wide as it is without the mark |
| G2pwTokenize.SlotsFilled | crates/text/pinyin-phonemizer/src/tokenize.rs:68-115 | if the pieces of each word of the text are at least as long as the word, every character but a space has a token |
| G2pwTokenize.SlotsAreExact | crates/text/pinyin-phonemizer/src/tokenize.rs:68-115 | if they are exactly as long, exactly the characters that are not spaces have a token, and it lies inside their word |
| G2pwTokenize.WholeWordsTile | crates/text/pinyin-phonemizer/src/tokenize.rs:98-107 | a tokenizer that keeps words whole meets that condition on every text |
| G2pwAlignment.TruncateWindow | crates/text/pinyin-phonemizer/src/g2pw.rs:20-29 | the window reaches half its size before the query and half from it on, or to the ends of the text, and holds the query if and only if its size is at least two |
| G2pwAlignment.TruncateTokensAroundPosition | crates/text/pinyin-phonemizer/src/g2pw.rs:38-56 | fails exactly below three; otherwise keeps the token, as many tokens as fit, and starts as near as possible to half a window before it |
| G2pwAlignment.BuildPhonemeMask | crates/text/pinyin-phonemizer/src/g2pw.rs:10-18 | the mask is one at the candidate labels and zero elsewhere, and labels out of range are ignored |
| G2pwAlignment.ResolvePolyphonic | crates/text/pinyin-phonemizer/src/g2pw.rs:114-181 | every outcome in order of the checks; on success consecutive tokens between the marks with the covering token at the position |
| G2pwAlignment.PositionNamesTheCoveringToken | crates/text/pinyin-phonemizer/src/g2pw.rs:131-167 | in every prepared input the id at the position is that of the token over the query's index, and the list fits the model |
| G2pwAlignment.QueryIsAligned | crates/text/pinyin-phonemizer/src/g2pw.rs:131-167 | with window >= 2, room >= 3, nothing before the query that grows in lower case and a tokenizer that encodes and covers the window's words, every known polyphonic query is prepared, at its own index |
| G2pwAlignment.NarrowWindowFails | crates/text/pinyin-phonemizer/src/g2pw.rs:20-29 | with a window below two no query is ever prepared |
| G2pwAlignment.TokenLiesInWordOfIndex | crates/text/pinyin-phonemizer/src/g2pw.rs:131-150 | with a tokenizer that tiles the window's words the token asked about lies in the word of the query's index |
| G2pwAlignment.AlignedIffNothingGrows | crates/text/pinyin-phonemizer/src/g2pw.rs:131-150 | for a query whose lower case is one character, no ASCII letter or digit, that token lies in the query's own word if and only if nothing before the query in its window grows in lower case |
| G2pwAlignment.DottedCapitalShiftsTheQuery | crates/text/pinyin-phonemizer/src/g2pw.rs:141-150 | after a dotted capital I the query is answered for the character before it |
| HebrewGlyphs.ApplyGereshDigraphs | crates/text/hebrew-phonemizer/src/ipa.rs:98-123 | the loop equals the recursive collapse of letter and geresh |
| HebrewGlyphs.CollapseIsByParts | crates/text/hebrew-phonemizer/src/ipa.rs:98-123 | a letter alone stays, a digraph becomes one letter with the marks of both, and parts of a word that no digraph joins are collapsed on their own |
| HebrewGlyphs.CollapseIsComplete | crates/text/hebrew-phonemizer/src/ipa.rs:98-123 | no digraph starts anywhere in the result |
| HebrewGlyphs.CollapseKeepsMarks | crates/text/hebrew-phonemizer/src/ipa.rs:108-117 | no point is lost with the geresh |
| HebrewAlphabet.LettersThatSoundAlike | crates/text/hebrew-phonemizer/src/ipa.rs:39-214 | the pairs of letters that sound alike, final forms among them |
| HebrewAlphabet.OnlyADageshMakesADifference | crates/text/hebrew-phonemizer/src/ipa.rs:136-214 | points change the consonant of a letter other than shin, before the end of a word, if and only if the letter is a bet, kaf or pe and just one of the two has a dagesh |
| HebrewAlphabet.SoundsOfLetters | crates/text/hebrew-phonemizer/src/ipa.rs:136-214 | the sounds of the letters that always sound the same |
| HebrewAlphabet.FirstVowelIsHeard | crates/text/hebrew-phonemizer/src/ipa.rs:229-255 | of several vowel points the first in a fixed order is heard, with the sound listed for it |
| HebrewAlphabet.SoundsOfDigraphs | crates/text/hebrew-phonemizer/src/ipa.rs:50-123 | the sounds of gimel, zayin and tsadi with a geresh |
| HebrewVowels.SoundsAreTheLetters | crates/text/hebrew-phonemizer/src/ipa.rs:313-391 | the sounds taken up from a word are those of its letters one by one: each letter's consonant unless it is the vav of a long vowel or the yod after a hiriq, a glottal stop for an alef or ayin without a vowel, and then its vowel |
| HebrewVowels.VavIsVowelOrConsonant | crates/text/hebrew-phonemizer/src/ipa.rs:257-280 | a vav is a u with a dagesh and no vowel point, an o with a holam and no dagesh, and a consonant otherwise |
| HebrewVowels.YodIsHeardUnlessItLengthens | crates/text/hebrew-phonemizer/src/ipa.rs:282-303 | a yod is a consonant unless it has no vowel point and follows a letter with a hiriq |
| HebrewSegments.WordToSegments | crates/text/hebrew-phonemizer/src/ipa.rs:313-391 | the loop over glyphs equals folding each letter's sound into segments |
| HebrewVowels.SegmentsIffVoweled | crates/text/hebrew-phonemizer/src/ipa.rs:229-303 | a word has segments if and only if some letter is a shuruk, a holam on vav, or carries a full vowel or a sheva |
| HebrewVowels.VoweledWordsKeepSpeech | crates/text/hebrew-phonemizer/src/ipa.rs:313-391 | the segments of a word with such a letter say the consonants and vowels of its letters, in order; a word without one gives no segments |
| HebrewVowels.HolamWithoutVavIsLost | crates/text/hebrew-phonemizer/src/ipa.rs:229-255 | a word with a vowel point, holam on a kaf, that has no segment and loses its consonants |
| HebrewSegments.ResolveInPlace | crates/text/hebrew-phonemizer/src/ipa.rs:393-419 | the in-place reading equals a closed form in which silence alternates and a silent schwa's onset moves back |
| HebrewSegments.ResolveShevaAndQamats | crates/text/hebrew-phonemizer/src/ipa.rs:393-434 | the whole resolution equals merging the segments so read |
| HebrewSegments.ResolvedSpeech | crates/text/hebrew-phonemizer/src/ipa.rs:393-434 | what is spoken is the word without its silent schwas, sounded ones as e, without the coda of a silent last segment; no schwa or empty vowel is left and no two neighbours are both silent |
| HebrewSegments.ConsonantsKeptIffNoSilentClose | crates/text/hebrew-phonemizer/src/ipa.rs:421-432 | consonants keep order and content if and only if the last segment is not a silent schwa with a coda; otherwise exactly that coda is missing |
| HebrewVowels.WordKeepsConsonantsIff | crates/text/hebrew-phonemizer/src/ipa.rs:313-434 | from letters to read segments the consonants of the letters, in order, survive if and only if the last voweled letter is not a silent sheva that consonants follow, or no letter is voweled and none sounds |
| HebrewIpa.OneStressBeforeAVowel | crates/text/hebrew-phonemizer/src/ipa.rs:436-454 | the text is the unstressed one with one mark, directly before the vowel of the first of two segments if the second is closed, of the last one otherwise |
| HebrewIpa.StripUnrealizedGlottalStops | crates/text/hebrew-phonemizer/src/ipa.rs:459-481 | the loop keeps a glottal stop exactly if a vowel follows, perhaps behind a stress mark |
| HebrewIpa.GlottalFilterSettles | crates/text/hebrew-phonemizer/src/ipa.rs:459-481 | only realized glottal stops remain, everything else stays in order, a text changes only if one was unrealized, and a second pass changes nothing |
| HebrewIpa.HebrewWordToIpa | crates/text/hebrew-phonemizer/src/ipa.rs:483-489 | the steps from glyphs to text compose to the function the next row is about |
| HebrewVowels.CollapseKeepsVowels | crates/text/hebrew-phonemizer/src/ipa.rs:98-123 | collapsing the geresh neither makes nor loses a voweled letter |
| HebrewIpa.WordIpaIsWellFormed | crates/text/hebrew-phonemizer/src/ipa.rs:436-489 | no schwa and no tie bar is left, there is one stress mark exactly if some written letter is voweled, and a vowel follows every glottal stop |
| HebrewIpa.WordIpaSaysTheWord | crates/text/hebrew-phonemizer/src/ipa.rs:436-489 | but for its stress mark the text of a word is what its read segments say, one sound after another, without tie bars and without the glottal stops that no vowel follows |
| HebrewIpa.FinalConsonantLost | crates/text/hebrew-phonemizer/src/ipa.rs:421-432 | a word whose last written consonant is not in what is spoken |

## Left out

- Memory orderings: steps are atomic and sequentially consistent, which the release store, acquire load and mutexes of the originals provide for these flags.
- An unload's own cancel is the cancel step before it, and a run may also leave it out, which only adds runs; the slot keeps a finished call, whose flag has no reader, and `CancelSlot` has its exact contents.
- Panics arise only while a stream is built or pulled, never inside a caller's callback; voice and token identities are never reused.
- A producer's run is one step, because it never waits and never calls back; whether a call's text can be built is fixed when it enters.
- A parallel or batched call on an application thread hands all its pieces to the pool; the model lets it go on without a taken piece, which no unload can tell, because such calls hold no guard.
- UnloadProgress.UnloadCanReturn: the continuation may end streams, return from callbacks and cancel realtime calls of open voices, because these are the environment's to do.
- UnloadProgress.ReturnsIffNotKnotted: says that a returning continuation exists, not that every fair run takes it, because streams may go on, callbacks may stay away for ever, and the pool may take queued jobs in an order that knots more threads.
- NumberContexts.TemperatureInText: the character before has to be a space or belong to no number, sign, unit or year; numbers that touch others are only covered by the passes' own equations.
- RealtimeStream.UncancelledDeliversEverything: assumes that each model call returns, because the models are not part of this model; when the producer gets its thread is what `UnloadProgress.ServedIffNotKnotted` decides.
- `synthesize_samples` and its parameter checks: a failure there is a failing build in the unload runs.
- SentenceStreams.CollectBatched: `speak_one_sentence` is a function of the sentence, because the models' noise and session state are not part of this model.
- MelChunker.MelTiling: assumes the decoder gives hop-length samples for each frame and that the cross-fade keeps lengths, and leaves out overflow of the signed indices, because the decoder and the sample values are not part of this model.
- Slices that start past their end or before the axis panic in the array library; the model gives None for them.
- Samples are opaque: output shaping, fades, silence generation and number formats of audio are parameters or not part of this model.
- Kokoro's style rows, session inputs and voice files; vocabulary loading, where the map is a parameter.
- TokenSplit.SplitTokens: assumes a positive limit, because with zero the original's loop takes nothing away; its only caller passes 510.
- G2pwAlignment.ResolvePolyphonic: leaves out the model session, its output checks and the choice among labels, and takes the search in the sorted character list and the tokenizer as parameters, because they are foreign code.
- G2pwAlignment.AlignedIffNothingGrows: lower-casing is per character, because the only context-sensitive case, the final sigma, keeps its length.
- Unicode normalisation, cantillation stripping and the grouping of marks with letters: Hebrew words start as glyphs with a one-character base.
- The Hebrew sentence splitting and joining by white space, Arabic and Japanese text handling, eSpeak and the phone tables of MeloTTS.
- Command line, gRPC and Python front ends, file and configuration handling, raw pointers and event memory of the C interface.
- The numeral printer's behaviour at and above 10^8, which its only caller never reaches.
