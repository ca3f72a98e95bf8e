/**
 The lazy, parallel and batched sentence streams. All three yield the per-sentence results in
 order; they differ in when each sentence is synthesised.
 */
module SentenceStreams {
  import opened Arithmetic
  import opened Wrappers

  type Audio = seq<real>
  type Error = string
  type Outcome = Result<Audio, Error>
  type Speaker = string -> Outcome     // process_one_sentence for a fixed provider

  // The reference: one result per sentence, in order, errors included.
  function SentenceResults(speak: Speaker, sentences: seq<string>): (r: seq<Outcome>)
    ensures |r| == |sentences|
    ensures forall i | 0 <= i < |sentences| :: r[i] == speak(sentences[i])
  {
    if sentences == [] then [] else [speak(sentences[0])] + SentenceResults(speak, sentences[1..])
  }

  lemma {:induction false} ResultsOfConcat(speak: Speaker, a: seq<string>, b: seq<string>)
    ensures SentenceResults(speak, a + b) == SentenceResults(speak, a) + SentenceResults(speak, b)
  {
    hide SentenceResults;
    forall i | 0 <= i < |a + b|
      ensures SentenceResults(speak, a + b)[i] == (SentenceResults(speak, a) + SentenceResults(speak, b))[i]
    {
    }
  }

  lemma {:induction false} ResultsSplit(speak: Speaker, sentences: seq<string>, size: nat)
    requires size <= |sentences|
    ensures SentenceResults(speak, sentences)
      == SentenceResults(speak, sentences[..size]) + SentenceResults(speak, sentences[size..])
  {
    hide SentenceResults;
    assert sentences == sentences[..size] + sentences[size..];
    ResultsOfConcat(speak, sentences[..size], sentences[size..]);
  }

  lemma {:induction false} ResultsStep(speak: Speaker, sentences: seq<string>)
    requires sentences != []
    ensures SentenceResults(speak, sentences) == [speak(sentences[0])] + SentenceResults(speak, sentences[1..])
  {
  }

  lemma FirstBuffered(buffered: seq<Outcome>, rest: seq<Outcome>)
    requires buffered != []
    ensures (buffered + rest)[0] == buffered[0] && (buffered + rest)[1..] == buffered[1..] + rest
  {
  }

  // ---------- Lazy ----------

  class LazyStream {
    const speak: Speaker
    var pendingSentences: seq<string>
    var nextChunkIndex: nat
    ghost var synthesised: seq<string>   // the sentences handed to the speaker so far

    ghost function Remaining(): seq<Outcome>
      reads this
    {
      SentenceResults(speak, pendingSentences)
    }

    constructor (speak: Speaker, sentences: seq<string>)
      ensures Remaining() == SentenceResults(speak, sentences) && nextChunkIndex == 0
      ensures pendingSentences == sentences && synthesised == []
    {
      this.speak := speak;
      pendingSentences, nextChunkIndex, synthesised := sentences, 0, [];
    }

    // Each call synthesises one sentence, and no earlier than it is asked for.
    method Next() returns (item: Option<Outcome>)
      modifies this
      ensures old(Remaining()) == [] ==> item.None? && Remaining() == [] && nextChunkIndex == old(nextChunkIndex)
      ensures old(Remaining()) != [] ==>
        && item == Some(old(Remaining())[0]) && Remaining() == old(Remaining())[1..]
        && nextChunkIndex == old(nextChunkIndex) + 1
      ensures synthesised + pendingSentences == old(synthesised + pendingSentences)
      ensures |synthesised| == |old(synthesised)| + if item.Some? then 1 else 0
    {
      hide SentenceResults;
      if pendingSentences == [] {
        return None;
      }
      ResultsStep(speak, pendingSentences);
      var sentence := pendingSentences[0];
      pendingSentences := pendingSentences[1..];
      nextChunkIndex := nextChunkIndex + 1;
      item := Some(speak(sentence));
      synthesised := synthesised + [sentence];
    }
  }

  // ---------- Parallel ----------

  class ParallelStream {
    var finished: seq<Outcome>

    // Every sentence is synthesised before the stream exists. The parallel map fills slot k with
    // sentence k's result whatever order the pool works in.
    constructor (speak: Speaker, sentences: seq<string>)
      ensures finished == SentenceResults(speak, sentences)
    {
      finished := seq(|sentences|, k requires 0 <= k < |sentences| => speak(sentences[k]));
      new;
      assert finished == SentenceResults(speak, sentences);
    }

    method Next() returns (item: Option<Outcome>)
      modifies this
      ensures old(finished) == [] ==> item.None? && finished == []
      ensures old(finished) != [] ==> item == Some(old(finished)[0]) && finished == old(finished)[1..]
    {
      if finished == [] {
        return None;
      }
      item := Some(finished[0]);
      finished := finished[1..];
    }
  }

  // ---------- Batched ----------

  // The sentences synthesised after `pulls` calls: whole groups, as few as serve the calls.
  function SynthesisedAfter(total: nat, batch: nat, pulls: nat): nat
    requires batch > 0
  {
    Min(total, batch * ((pulls + batch - 1) / batch))
  }

  // Groups are whole, and the current one is open for at least one of its items.
  ghost predicate GroupOk(total: nat, batch: nat, done: nat, taken: nat) {
    if done == 0 then taken == 0
    else exists first: nat :: GroupFrom(total, batch, first, done, taken)
  }

  ghost predicate GroupFrom(total: nat, batch: nat, first: nat, done: nat, taken: nat) {
    first * batch < taken <= done && done == Min(total, (first + 1) * batch)
  }

  // Opening a group when the previous one is used up.
  lemma GroupOpens(total: nat, batch: nat, before: nat)
    requires batch > 0 && before < total && GroupOk(total, batch, before, before)
    ensures GroupOk(total, batch, before + Min(batch, total - before), before + 1)
  {
    if before == 0 {
      assert GroupFrom(total, batch, 0, Min(batch, total), 1);
    } else {
      var first: nat :| GroupFrom(total, batch, first, before, before);
      assert (first + 2) * batch == before + batch;
      assert GroupFrom(total, batch, first + 1, before + Min(batch, total - before), before + 1);
    }
  }

  lemma GroupStaysOpen(total: nat, batch: nat, done: nat, taken: nat)
    requires GroupOk(total, batch, done, taken) && taken < done
    ensures GroupOk(total, batch, done, taken + 1)
  {
    var first: nat :| GroupFrom(total, batch, first, done, taken);
    assert GroupFrom(total, batch, first, done, taken + 1);
  }

  lemma MultiplesGrow(a: nat, b: nat, k: nat)
    ensures a < b ==> a * k + k <= b * k
  {
    if a + 1 < b {
      MultiplesGrow(a, b - 1, k);
      assert b * k == (b - 1) * k + k;
    }
  }

  lemma CeilingIs(p: nat, b: nat, first: nat)
    requires b > 0 && first * b < p <= (first + 1) * b
    ensures (p + b - 1) / b == first + 1
  {
    var q := (p + b - 1) / b;
    assert p + b - 1 == q * b + (p + b - 1) % b;
    assert (first + 1) * b == first * b + b;
    MultiplesGrow(q, first + 1, b);
    MultiplesGrow(first + 1, q, b);
  }

  class BatchedStream {
    const speak: Speaker
    const batchSize: nat
    const poolError: Option<Error>   // why the thread pool could not be built, if it could not
    var pending: seq<string>
    var buffered: seq<Outcome>
    var nextChunkIndex: nat          // sentences handed to the pool so far
    ghost const total: nat
    ghost var pulls: nat             // calls of Next that returned an item

    ghost function Remaining(): seq<Outcome>
      reads this
    {
      buffered + SentenceResults(speak, pending)
    }

    ghost predicate Valid()
      reads this
    {
      batchSize > 0 &&
      (poolError.None? ==>
        && nextChunkIndex + |pending| == total
        && pulls + |buffered| == nextChunkIndex
        && GroupOk(total, batchSize, nextChunkIndex, pulls))
    }

    constructor (speak: Speaker, batchSize: nat, poolError: Option<Error>, sentences: seq<string>)
      requires batchSize > 0
      ensures Valid() && this.poolError == poolError && this.batchSize == batchSize && total == |sentences|
      ensures pulls == 0 && nextChunkIndex == 0
      ensures pending == sentences && buffered == [] && this.speak == speak
      ensures Remaining() == SentenceResults(speak, sentences)
    {
      this.speak, this.batchSize, this.poolError := speak, batchSize, poolError;
      pending, buffered, nextChunkIndex := sentences, [], 0;
      total, pulls := |sentences|, 0;
      new;
      assert Remaining() == SentenceResults(speak, sentences);
    }

    method ComputeNextGroup() returns (group: Option<seq<Outcome>>)
      requires Valid() && buffered == []
      modifies this`pending, this`nextChunkIndex
      ensures old(pending) == [] ==> group.None? && pending == [] && nextChunkIndex == old(nextChunkIndex)
      ensures old(pending) != [] ==>
        var size := Min(batchSize, |old(pending)|);
        && group.Some? && nextChunkIndex == old(nextChunkIndex) + size
        && (poolError.None? ==>
              && group.value == SentenceResults(speak, old(pending)[..size])
              && pending == old(pending)[size..])
        && (poolError.Some? ==> group.value == [Failure(poolError.value)] && pending == [])
    {
      var size := Min(batchSize, |pending|);
      var chunk := pending[..size];
      pending := pending[size..];
      if chunk == [] {
        return None;
      }
      nextChunkIndex := nextChunkIndex + |chunk|;
      if poolError.Some? {
        pending := [];
        return Some([Failure(poolError.value)]);
      }
      var results := seq(|chunk|, k requires 0 <= k < |chunk| => speak(chunk[k]));
      assert results == SentenceResults(speak, chunk);
      group := Some(results);
    }

    method Next() returns (item: Option<Outcome>)
      requires Valid()
      modifies this
      ensures Valid()
      // With the pool available the items are the per-sentence results, one at a time.
      ensures poolError.None? && old(Remaining()) == [] ==> item.None? && Remaining() == [] && pulls == old(pulls)
      ensures poolError.None? && old(Remaining()) != [] ==>
        && item == Some(old(Remaining())[0]) && Remaining() == old(Remaining())[1..] && pulls == old(pulls) + 1
      // Without it, the next unbuffered sentence becomes the pool's error and ends the stream.
      ensures poolError.Some? && old(buffered) == [] ==>
        && pending == [] && buffered == []
        && item == if old(pending) == [] then None else Some(Failure(poolError.value))
    {
      hide SentenceResults, GroupOk;
      if buffered == [] {
        ghost var sentences := pending;
        ghost var before := nextChunkIndex;
        var group := ComputeNextGroup();
        if group.None? {
          return None;
        }
        buffered := group.value;
        ResultsSplit(speak, sentences, Min(batchSize, |sentences|));
        if poolError.None? {
          GroupOpens(total, batchSize, before);
        }
      } else if poolError.None? {
        GroupStaysOpen(total, batchSize, nextChunkIndex, pulls);
      }
      FirstBuffered(buffered, SentenceResults(speak, pending));
      item := Some(buffered[0]);
      buffered := buffered[1..];
      pulls := pulls + 1;
    }

    // After any number of calls, exactly the sentences of the groups opened so far have been
    // synthesised.
    lemma SynthesisIsByWholeGroups()
      requires Valid() && poolError.None?
      ensures nextChunkIndex == SynthesisedAfter(total, batchSize, pulls)
    {
      GroupsServePulls(total, batchSize, nextChunkIndex, pulls);
    }
  }

  lemma GroupsServePulls(total: nat, batch: nat, done: nat, taken: nat)
    requires batch > 0 && GroupOk(total, batch, done, taken)
    ensures done == SynthesisedAfter(total, batch, taken)
  {
    if done == 0 {
      assert (0 + batch - 1) / batch == 0;
    } else {
      var first: nat :| GroupFrom(total, batch, first, done, taken);
      CeilingIs(taken, batch, first);
    }
  }

  // ---------- The three modes agree ----------

  // Moving the item in hand from what is still to come to what has been collected.
  lemma Collect(done: seq<Outcome>, item: Outcome, rest: seq<Outcome>, whole: seq<Outcome>)
    requires done + ([item] + rest) == whole
    ensures done + [item] + rest == whole && |done| < |whole|
  {
  }

  lemma HeadAndTail(rest: seq<Outcome>)
    requires rest != []
    ensures [rest[0]] + rest[1..] == rest
  {
  }

  method CollectLazy(speak: Speaker, sentences: seq<string>) returns (results: seq<Outcome>)
    ensures results == SentenceResults(speak, sentences)
  {
    hide SentenceResults;
    var stream := new LazyStream(speak, sentences);
    results := [];
    ghost var whole := SentenceResults(speak, sentences);
    while true
      invariant fresh(stream) && results + stream.Remaining() == whole
      decreases |whole| - |results|
    {
      ghost var rest := stream.Remaining();
      var item := stream.Next();
      if item.None? {
        break;
      }
      HeadAndTail(rest);
      Collect(results, item.value, stream.Remaining(), whole);
      results := results + [item.value];
    }
  }

  // Building the parallel stream synthesises everything, so without a pool there is no stream.
  method StartParallel(speak: Speaker, poolError: Option<Error>, sentences: seq<string>)
    returns (r: Result<ParallelStream, Error>)
    ensures match poolError
      case Some(error) => r == Failure(error)
      case None => r.Success? && fresh(r.value) && r.value.finished == SentenceResults(speak, sentences)
  {
    if poolError.Some? {
      return Failure(poolError.value);
    }
    var stream := new ParallelStream(speak, sentences);
    r := Success(stream);
  }

  method CollectParallel(speak: Speaker, poolError: Option<Error>, sentences: seq<string>)
    returns (r: Result<seq<Outcome>, Error>)
    ensures match poolError
      case Some(error) => r == Failure(error)
      case None => r == Success(SentenceResults(speak, sentences))
  {
    hide SentenceResults;
    var started := StartParallel(speak, poolError, sentences);
    if started.Failure? {
      return Failure(started.error);
    }
    var stream := started.value;
    var results: seq<Outcome> := [];
    ghost var whole := SentenceResults(speak, sentences);
    while true
      invariant fresh(stream) && results + stream.finished == whole
      decreases |whole| - |results|
    {
      ghost var rest := stream.finished;
      var item := stream.Next();
      if item.None? {
        break;
      }
      HeadAndTail(rest);
      Collect(results, item.value, stream.finished, whole);
      results := results + [item.value];
    }
    assert results + [] == results;
    r := Success(results);
  }

  // What the batched stream gives: without a pool, its error in place of the first group.
  function BatchedResults(speak: Speaker, poolError: Option<Error>, sentences: seq<string>): seq<Outcome> {
    match poolError
    case None => SentenceResults(speak, sentences)
    case Some(error) => if sentences == [] then [] else [Failure(error)]
  }

  method CollectBatched(speak: Speaker, batchSize: nat, poolError: Option<Error>, sentences: seq<string>)
    returns (results: seq<Outcome>)
    requires batchSize > 0
    ensures results == BatchedResults(speak, poolError, sentences)
  {
    hide SentenceResults;
    var stream := new BatchedStream(speak, batchSize, poolError, sentences);
    results := [];
    ghost var whole := BatchedResults(speak, poolError, sentences);
    ghost var rest := whole;
    while true
      invariant fresh(stream) && stream.Valid() && stream.poolError == poolError && results + rest == whole
      invariant rest == if poolError.None? then stream.Remaining() else BatchedResults(speak, poolError, stream.pending)
      invariant poolError.Some? ==> stream.buffered == []
      decreases |whole| - |results|
    {
      var item := stream.Next();
      if item.None? {
        break;
      }
      HeadAndTail(rest);
      rest := rest[1..];
      Collect(results, item.value, rest, whole);
      results := results + [item.value];
    }
  }
}
