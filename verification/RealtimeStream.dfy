/**
 The realtime speech stream: a producer that waits for a thread of the pool, an unbounded channel, a
 consumer, and a cancel flag any thread may set. Each read of the flag, send and receive is a step
 of its own. The stream delivers a prefix of what one sequential pass over the sentences would
 produce, and all of it when the producer gets its thread, nobody cancels and the consumer stays.
 */
module RealtimeStream {
  import opened Wrappers

  type Samples = seq<real>
  type Error = string
  type Item = Result<Samples, Error>

  // How the model's stream for one sentence goes when it is left alone.
  datatype Ending = Exhausted | Panics(message: string)
  datatype Script =
    | OpenFails(error: Error)
    | OpenPanics(message: string)
    | Yields(chunks: seq<Item>, ending: Ending)

  // `shape` applies the output configuration to one chunk; `silence` is the appended silence.
  datatype Job = Job(scripts: seq<Script>, shape: Samples -> Item, silence: Option<Item>)

  // ---------- The sequential pass ----------

  function ShapeChunk(job: Job, chunk: Item): Item {
    match chunk
    case Success(samples) => job.shape(samples)
    case Failure(error) => Failure(error)
  }

  function ShapeAll(job: Job, chunks: seq<Item>): (r: seq<Item>)
    ensures |r| == |chunks|
    ensures forall j | 0 <= j < |chunks| :: r[j] == ShapeChunk(job, chunks[j])
  {
    if chunks == [] then [] else ShapeAll(job, chunks[..|chunks| - 1]) + [ShapeChunk(job, chunks[|chunks| - 1])]
  }

  // A panic of the producer reaches the consumer as an error.
  function PanicError(message: string): Error {
    "synthesis worker panicked: " + message
  }

  function SilenceItems(job: Job): seq<Item> {
    match job.silence case None => [] case Some(item) => [item]
  }

  // Everything one sentence contributes.
  function SentenceItems(job: Job, script: Script): seq<Item> {
    match script
    case OpenFails(error) => [Failure(error)]
    case OpenPanics(message) => [Failure(PanicError(message))]
    case Yields(chunks, Exhausted) => ShapeAll(job, chunks) + SilenceItems(job)
    case Yields(chunks, Panics(message)) => ShapeAll(job, chunks) + [Failure(PanicError(message))]
  }

  // Whether production goes on after this sentence.
  predicate Continues(script: Script) {
    script.Yields? && script.ending.Exhausted?
  }

  // The output of the sentences from k on, stopping at the first one that cannot be streamed.
  function Sequential(job: Job, k: nat): seq<Item>
    requires k <= |job.scripts|
    decreases |job.scripts| - k
  {
    if k == |job.scripts| then []
    else if Continues(job.scripts[k]) then SentenceItems(job, job.scripts[k]) + Sequential(job, k + 1)
    else SentenceItems(job, job.scripts[k])
  }

  // ---------- Where each item stands ----------

  // How many items a sentence contributes.
  function ItemCount(job: Job, script: Script): nat {
    match script
    case OpenFails(_) => 1
    case OpenPanics(_) => 1
    case Yields(chunks, Panics(_)) => |chunks| + 1
    case Yields(chunks, Exhausted) => |chunks| + if job.silence.Some? then 1 else 0
  }

  // How many items the first k sentences contribute.
  function Offset(job: Job, k: nat): nat
    requires k <= |job.scripts|
  {
    if k == 0 then 0 else Offset(job, k - 1) + ItemCount(job, job.scripts[k - 1])
  }

  // The stream goes on to sentence k: all before it are streamed to their ends.
  predicate Reaches(job: Job, k: nat)
    requires k <= |job.scripts|
  {
    forall i | 0 <= i < k :: job.scripts[i].Yields? && job.scripts[i].ending.Exhausted?
  }

  lemma SentenceLength(job: Job, script: Script)
    ensures |SentenceItems(job, script)| == ItemCount(job, script)
  {
  }

  lemma {:induction false} SequentialFrom(job: Job, k: nat)
    requires k <= |job.scripts| && Reaches(job, k)
    ensures Offset(job, k) <= |Sequential(job, 0)| && Sequential(job, 0)[Offset(job, k)..] == Sequential(job, k)
  {
    hide SentenceItems, ItemCount;
    if k > 0 {
      SequentialFrom(job, k - 1);
      SentenceLength(job, job.scripts[k - 1]);
      assert Continues(job.scripts[k - 1]);
      var whole, items := Sequential(job, 0), SentenceItems(job, job.scripts[k - 1]);
      assert whole[Offset(job, k - 1)..][|items|..] == whole[Offset(job, k)..];
    }
  }

  // The items of one sentence, from their place on.
  lemma {:induction false} SentenceInPlace(job: Job, k: nat)
    requires k < |job.scripts| && Reaches(job, k)
    ensures var whole, at, items := Sequential(job, 0), Offset(job, k), SentenceItems(job, job.scripts[k]);
      && at + |items| <= |whole| && (forall j | 0 <= j < |items| :: whole[at + j] == items[j])
      && (!Continues(job.scripts[k]) ==> |whole| == at + |items|)
  {
    hide SentenceItems;
    SequentialFrom(job, k);
    var whole, at, items := Sequential(job, 0), Offset(job, k), SentenceItems(job, job.scripts[k]);
    forall j | 0 <= j < |items| ensures whole[at + j] == items[j] {
      assert whole[at..][j] == items[j];
    }
  }

  // ---------- The concurrent stream ----------

  datatype Producer =
    | AwaitsThread                        // owned by the pool, not started
    | NextSentence(k: nat)                // about to read the flag before sentence k
    | Opening(k: nat)                     // inside stream_synthesis
    | OpenFailed(k: nat)                  // about to send the opening error
    | Pulling(k: nat, j: nat)             // inside the model stream's next()
    | GotChunk(k: nat, j: nat)            // chunk j in hand, flag not read yet
    | Sending(k: nat, j: nat)             // flag was clear, about to send chunk j
    | StreamOver(k: nat, cut: bool)       // the stream returned None; cut short or exhausted
    | SendingSilence(k: nat)              // flag was clear, about to send the silence
    | Panicked(message: string)           // about to send the panic's message
    | Stopped

  datatype Consumer = Idle | Receiving | Ended | Dropped

  datatype State = State(
    producer: Producer, consumer: Consumer,
    queue: seq<Item>, delivered: seq<Item>, cancelled: bool)

  datatype Action =
    | Cancel
    | GetThread         // a thread of the pool takes the producer's job
    | ReadFlag          // the producer reads the cancel flag
    | CallModel         // the model call returns as scripted
    | CutShort          // the model call noticed the cancellation and ended the stream
    | Send
    | CheckFlag         // the consumer's next() reads the flag
    | Receive
    | Disconnect        // the consumer's receive finds the channel closed and empty
    | Drop              // the consumer goes away

  predicate Enabled(job: Job, s: State, a: Action) {
    match a
    case Cancel => true
    case GetThread => s.producer.AwaitsThread?
    case ReadFlag => s.producer.NextSentence? || s.producer.GotChunk? || s.producer.StreamOver?
    case CallModel => s.producer.Opening? || s.producer.Pulling?
    case CutShort => (s.producer.Opening? || s.producer.Pulling?) && s.cancelled
    case Send => s.producer.OpenFailed? || s.producer.Sending? || s.producer.SendingSilence? || s.producer.Panicked?
    case CheckFlag => s.consumer.Idle?
    case Receive => s.consumer.Receiving? && s.queue != []
    case Disconnect => s.consumer.Receiving? && s.queue == [] && s.producer.Stopped?
    case Drop => s.consumer.Idle? || s.consumer.Ended?
  }

  // A state the producer can be in.
  predicate ProducerOk(job: Job, p: Producer) {
    match p
    case AwaitsThread => true
    case NextSentence(k) => k <= |job.scripts|
    case Opening(k) => k < |job.scripts|
    case OpenFailed(k) => k < |job.scripts| && job.scripts[k].OpenFails?
    case Pulling(k, j) => k < |job.scripts| && job.scripts[k].Yields? && j <= |job.scripts[k].chunks|
    case GotChunk(k, j) => k < |job.scripts| && job.scripts[k].Yields? && j < |job.scripts[k].chunks|
    case Sending(k, j) => k < |job.scripts| && job.scripts[k].Yields? && j < |job.scripts[k].chunks|
    case StreamOver(k, cut) => k < |job.scripts| && (!cut ==> Continues(job.scripts[k]))
    case SendingSilence(k) => k < |job.scripts| && Continues(job.scripts[k]) && job.silence.Some?
    case Panicked(_) => true
    case Stopped => true
  }

  function AfterFlag(job: Job, p: Producer, cancelled: bool): Producer
    requires ProducerOk(job, p) && (p.NextSentence? || p.GotChunk? || p.StreamOver?)
  {
    match p
    case NextSentence(k) => if k == |job.scripts| || cancelled then Stopped else Opening(k)
    case GotChunk(k, j) => if cancelled then NextSentence(k + 1) else Sending(k, j)
    case StreamOver(k, _) => if !cancelled && job.silence.Some? then SendingSilence(k) else NextSentence(k + 1)
  }

  function AfterModel(job: Job, p: Producer): Producer
    requires ProducerOk(job, p) && (p.Opening? || p.Pulling?)
  {
    match p
    case Opening(k) =>
      (match job.scripts[k]
       case OpenFails(_) => OpenFailed(k)
       case OpenPanics(message) => Panicked(message)
       case Yields(_, _) => Pulling(k, 0))
    case Pulling(k, j) =>
      if j < |job.scripts[k].chunks| then GotChunk(k, j)
      else match job.scripts[k].ending
        case Exhausted => StreamOver(k, false)
        case Panics(message) => Panicked(message)
  }

  function Outgoing(job: Job, p: Producer): Item
    requires ProducerOk(job, p) && (p.OpenFailed? || p.Sending? || p.SendingSilence? || p.Panicked?)
  {
    match p
    case OpenFailed(k) => Failure(job.scripts[k].error)
    case Sending(k, j) => ShapeChunk(job, job.scripts[k].chunks[j])
    case SendingSilence(_) => job.silence.value
    case Panicked(message) => Failure(PanicError(message))
  }

  // A failed send (the receiver is gone) ends production.
  function AfterSend(p: Producer, receiverGone: bool): Producer
    requires p.OpenFailed? || p.Sending? || p.SendingSilence? || p.Panicked?
  {
    match p
    case OpenFailed(_) => Stopped
    case Sending(k, j) => if receiverGone then Stopped else Pulling(k, j + 1)
    case SendingSilence(k) => if receiverGone then Stopped else NextSentence(k + 1)
    case Panicked(_) => Stopped
  }

  function Apply(job: Job, s: State, a: Action): State
    requires ProducerOk(job, s.producer) && Enabled(job, s, a)
  {
    match a
    case Cancel => s.(cancelled := true)
    case GetThread => s.(producer := NextSentence(0))
    case ReadFlag => s.(producer := AfterFlag(job, s.producer, s.cancelled))
    case CallModel => s.(producer := AfterModel(job, s.producer))
    case CutShort => s.(producer := StreamOver(s.producer.k, true))
    case Send =>
      s.(producer := AfterSend(s.producer, s.consumer.Dropped?),
         queue := if s.consumer.Dropped? then s.queue else s.queue + [Outgoing(job, s.producer)])
    case CheckFlag => s.(consumer := if s.cancelled then Ended else Receiving)
    case Receive => s.(consumer := Idle, queue := s.queue[1..], delivered := s.delivered + [s.queue[0]])
    case Disconnect => s.(consumer := Ended)
    case Drop => s.(consumer := Dropped)
  }

  const INITIAL: State := State(AwaitsThread, Idle, [], [], false)

  ghost predicate StepAt(job: Job, r: seq<State>, i: nat)
    requires i < |r| - 1
  {
    ProducerOk(job, r[i].producer) && exists a :: Enabled(job, r[i], a) && r[i + 1] == Apply(job, r[i], a)
  }

  ghost predicate IsRun(job: Job, r: seq<State>) {
    && |r| > 0 && r[0] == INITIAL
    && forall i | 0 <= i < |r| - 1 :: StepAt(job, r, i)
  }

  // ---------- What every reachable state keeps ----------

  // What has left the producer so far.
  function Sent(s: State): seq<Item> {
    s.delivered + s.queue
  }

  // The sequential output still owed from the producer's position, if nothing is cut.
  function Owed(job: Job, p: Producer): seq<Item>
    requires ProducerOk(job, p)
  {
    match p
    case AwaitsThread => Sequential(job, 0)
    case NextSentence(k) => Sequential(job, k)
    case Opening(k) => Sequential(job, k)
    case OpenFailed(k) => [Failure(job.scripts[k].error)]
    case Pulling(k, j) => ShapeAll(job, job.scripts[k].chunks)[j..] + AfterChunks(job, k)
    case GotChunk(k, j) => ShapeAll(job, job.scripts[k].chunks)[j..] + AfterChunks(job, k)
    case Sending(k, j) => ShapeAll(job, job.scripts[k].chunks)[j..] + AfterChunks(job, k)
    case StreamOver(k, _) => if Continues(job.scripts[k]) then AfterChunks(job, k) else []
    case SendingSilence(k) => AfterChunks(job, k)
    case Panicked(message) => [Failure(PanicError(message))]
    case Stopped => []
  }

  // What follows the chunks of a streamed sentence.
  function AfterChunks(job: Job, k: nat): seq<Item>
    requires k < |job.scripts| && job.scripts[k].Yields?
  {
    match job.scripts[k].ending
    case Exhausted => SilenceItems(job) + Sequential(job, k + 1)
    case Panics(message) => [Failure(PanicError(message))]
  }

  ghost predicate OnTrack(job: Job, s: State)
    requires ProducerOk(job, s.producer)
  {
    Sent(s) + Owed(job, s.producer) == Sequential(job, 0)
  }

  // Only a cancellation or a vanished consumer makes the producer give up on what it owes; a
  // cancelled producer that has given up sends nothing more.
  ghost predicate Refines(job: Job, s: State) {
    && ProducerOk(job, s.producer)
    && (s.producer.AwaitsThread? ==> Sent(s) == [])
    && (s.producer.StreamOver? && s.producer.cut ==> s.cancelled)
    && (s.consumer.Ended? && !s.cancelled ==> s.producer.Stopped? && s.queue == [])
    && (|| OnTrack(job, s)
        || (&& Sent(s) <= Sequential(job, 0)
            && (|| (s.producer.Stopped? && (s.cancelled || s.consumer.Dropped?))
                || (s.cancelled && (s.producer.NextSentence? || s.producer.StreamOver?)))))
  }

  lemma {:induction false} SequentialUnfolds(job: Job, k: nat)
    requires k < |job.scripts|
    ensures Sequential(job, k) ==
      match job.scripts[k]
      case OpenFails(error) => [Failure(error)]
      case OpenPanics(message) => [Failure(PanicError(message))]
      case Yields(chunks, _) => ShapeAll(job, chunks)[0..] + AfterChunks(job, k)
  {
    if job.scripts[k].Yields? {
      var shaped := ShapeAll(job, job.scripts[k].chunks);
      assert shaped[0..] == shaped;
      if Continues(job.scripts[k]) {
        assert shaped + SilenceItems(job) + Sequential(job, k + 1)
          == shaped + (SilenceItems(job) + Sequential(job, k + 1));
      }
    }
  }

  lemma {:induction false} SentIsPrefix(job: Job, s: State)
    requires Refines(job, s)
    ensures Sent(s) <= Sequential(job, 0)
  {
    hide Sequential, Owed;
  }

  // A clear flag leaves what is owed as it is.
  lemma ClearFlagKeepsOwed(job: Job, p: Producer)
    requires ProducerOk(job, p) && (p.NextSentence? || p.GotChunk? || (p.StreamOver? && Continues(job.scripts[p.k])))
    ensures ProducerOk(job, AfterFlag(job, p, false)) && Owed(job, AfterFlag(job, p, false)) == Owed(job, p)
  {
    hide ShapeAll;
    match p
    case NextSentence(k) =>
    case GotChunk(_, _) => hide Sequential;
    case StreamOver(k, _) =>
      hide Sequential;
      assert [] + Sequential(job, k + 1) == Sequential(job, k + 1);
  }

  lemma ReadFlagStep(job: Job, s: State)
    requires Refines(job, s) && Enabled(job, s, ReadFlag)
    ensures Refines(job, Apply(job, s, ReadFlag))
  {
    hide Sequential, Owed, ShapeAll, ShapeChunk;
    if s.cancelled {
      SentIsPrefix(job, s);
    } else {
      ClearFlagKeepsOwed(job, s.producer);
    }
  }

  lemma CallModelStep(job: Job, s: State)
    requires Refines(job, s) && Enabled(job, s, CallModel)
    ensures Refines(job, Apply(job, s, CallModel))
  {
    var s' := Apply(job, s, CallModel);
    if s.producer.Opening? {
      SequentialUnfolds(job, s.producer.k);
    } else if s.producer.j == |job.scripts[s.producer.k].chunks| {
      assert ShapeAll(job, job.scripts[s.producer.k].chunks)[s.producer.j..] == [];
      assert [] + AfterChunks(job, s.producer.k) == AfterChunks(job, s.producer.k);
    }
    assert Owed(job, s'.producer) == Owed(job, s.producer);
  }

  // What is sent is the first item owed.
  lemma SendsFirstOwed(job: Job, p: Producer)
    requires ProducerOk(job, p) && (p.OpenFailed? || p.Sending? || p.SendingSilence? || p.Panicked?)
    ensures ProducerOk(job, AfterSend(p, false))
    ensures Owed(job, p) == [Outgoing(job, p)] + Owed(job, AfterSend(p, false))
  {
    if p.Sending? {
      var shaped := ShapeAll(job, job.scripts[p.k].chunks);
      assert shaped[p.j..] == [shaped[p.j]] + shaped[p.j + 1..];
    }
  }

  lemma SendKeepsTrack(owed: seq<Item>, owed': seq<Item>, sent: seq<Item>, item: Item, whole: seq<Item>)
    requires sent + owed == whole && owed == [item] + owed'
    ensures sent + [item] + owed' == whole
  {
  }

  lemma SendStep(job: Job, s: State)
    requires Refines(job, s) && Enabled(job, s, Send)
    ensures Refines(job, Apply(job, s, Send))
  {
    assert OnTrack(job, s);
    var s' := Apply(job, s, Send);
    if s.consumer.Dropped? {
      assert Sent(s') == Sent(s);
    } else {
      var item := Outgoing(job, s.producer);
      SendsFirstOwed(job, s.producer);
      SendKeepsTrack(Owed(job, s.producer), Owed(job, s'.producer), Sent(s), item, Sequential(job, 0));
      assert s'.delivered + (s.queue + [item]) == Sent(s) + [item];
      assert OnTrack(job, s');
    }
  }

  lemma RefinesStep(job: Job, s: State, a: Action)
    requires Refines(job, s) && Enabled(job, s, a)
    ensures Refines(job, Apply(job, s, a))
  {
    match a
    case ReadFlag => ReadFlagStep(job, s);
    case CallModel => CallModelStep(job, s);
    case Send => SendStep(job, s);
    case Receive => assert Sent(Apply(job, s, a)) == Sent(s);
    case _ =>
  }

  lemma {:induction false} RefinesRun(job: Job, r: seq<State>, i: nat)
    requires IsRun(job, r) && i < |r|
    ensures Refines(job, r[i])
  {
    if i == 0 {
      assert Sent(r[0]) + Sequential(job, 0) == Sequential(job, 0);
    } else {
      RefinesRun(job, r, i - 1);
      assert StepAt(job, r, i - 1);
      var a :| Enabled(job, r[i - 1], a) && r[i] == Apply(job, r[i - 1], a);
      RefinesStep(job, r[i - 1], a);
    }
  }

  // ---------- Main results ----------

  // At every moment of every run, what has been delivered followed by what is queued is a prefix
  // of the sequential output, however cancellation interleaves.
  lemma {:induction false} DeliversPrefixOfSequential(job: Job, r: seq<State>, i: nat)
    requires IsRun(job, r) && i < |r|
    ensures r[i].delivered + r[i].queue <= Sequential(job, 0)
    ensures r[i].delivered <= Sequential(job, 0)
  {
    RefinesRun(job, r, i);
    assert r[i].delivered <= Sent(r[i]);
  }

  // An uncancelled run whose consumer stays delivers the whole sequential output by the time the
  // consumer sees the end of the stream.
  lemma {:induction false} UncancelledDeliversEverything(job: Job, r: seq<State>, i: nat)
    requires IsRun(job, r) && i < |r| && !r[i].cancelled && r[i].consumer.Ended?
    ensures r[i].delivered == Sequential(job, 0)
  {
    RefinesRun(job, r, i);
    assert r[i].delivered == Sent(r[i]);
  }

  // What an undisturbed stream has delivered, sentence by sentence and in terms of the job alone:
  // each chunk as the output configuration shapes it or with its own error, the silence after the
  // last chunk, and the error that ends the stream. Nothing follows the first sentence that cannot
  // be streamed.
  lemma {:induction false} DeliveredInPlace(job: Job, r: seq<State>, i: nat, k: nat)
    requires IsRun(job, r) && i < |r| && !r[i].cancelled && r[i].consumer.Ended?
    requires k < |job.scripts| && Reaches(job, k)
    ensures var delivered, at := r[i].delivered, Offset(job, k);
      at + ItemCount(job, job.scripts[k]) <= |delivered| &&
      match job.scripts[k]
      case OpenFails(error) => delivered[at..] == [Failure(error)]
      case OpenPanics(message) => delivered[at..] == [Failure("synthesis worker panicked: " + message)]
      case Yields(chunks, ending) =>
        && (forall j | 0 <= j < |chunks| :: delivered[at + j] ==
              match chunks[j] case Success(samples) => job.shape(samples) case Failure(error) => Failure(error))
        && match ending
           case Exhausted => job.silence.Some? ==> delivered[at + |chunks|] == job.silence.value
           case Panics(message) => delivered[at + |chunks|..] == [Failure("synthesis worker panicked: " + message)]
  {
    hide Sequential, Offset, Reaches;
    UncancelledDeliversEverything(job, r, i);
    SentenceInPlace(job, k);
    hide IsRun;
    SentenceLength(job, job.scripts[k]);
    var delivered, at, items := r[i].delivered, Offset(job, k), SentenceItems(job, job.scripts[k]);
    if job.scripts[k].Yields? {
      var chunks := job.scripts[k].chunks;
      forall j | 0 <= j < |chunks| ensures delivered[at + j] == ShapeChunk(job, chunks[j]) {
        assert items[j] == ShapeAll(job, chunks)[j];
      }
      if |items| > |chunks| {
        assert delivered[at + |chunks|] == items[|chunks|];
      }
    } else {
      assert delivered[at + 0] == items[0];
    }
  }

  // Without such a sentence the items of all sentences are delivered and nothing else.
  lemma {:induction false} DeliveredCount(job: Job, r: seq<State>, i: nat)
    requires IsRun(job, r) && i < |r| && !r[i].cancelled && r[i].consumer.Ended?
    requires Reaches(job, |job.scripts|)
    ensures |r[i].delivered| == Offset(job, |job.scripts|)
  {
    UncancelledDeliversEverything(job, r, i);
    SequentialFrom(job, |job.scripts|);
  }

  // The stream's own steps, which need no thread and nobody's cancellation or departure.
  predicate IsOwn(a: Action) {
    !a.Cancel? && !a.Drop? && !a.GetThread?
  }

  // The consumer is in its receive while the producer has no thread.
  predicate AwaitsPool(s: State) {
    s.producer.AwaitsThread? && s.consumer.Receiving?
  }

  // The stream never gets stuck short of that: while the consumer has not seen the end and has
  // not gone away, some step of its own is possible, unless it waits for a thread of the pool.
  lemma NeverStuck(job: Job, s: State) returns (a: Action)
    requires Refines(job, s) && !s.consumer.Ended? && !s.consumer.Dropped?
    ensures Enabled(job, s, a) && (if AwaitsPool(s) then a == GetThread else IsOwn(a))
  {
    hide OnTrack, Sequential;
    if s.consumer.Idle? {
      a := CheckFlag;
    } else if s.queue != [] {
      a := Receive;
    } else {
      match s.producer
      case AwaitsThread => a := GetThread;
      case Stopped => a := Disconnect;
      case Opening(_) => a := CallModel;
      case Pulling(_, _) => a := CallModel;
      case NextSentence(_) => a := ReadFlag;
      case GotChunk(_, _) => a := ReadFlag;
      case StreamOver(_, _) => a := ReadFlag;
      case _ => a := Send;
    }
  }

  // ---------- Termination ----------

  function ScriptWork(script: Script): nat {
    if script.Yields? then 3 * |script.chunks| + 5 else 5
  }

  function WorkFrom(job: Job, k: nat): nat
    requires k <= |job.scripts|
    decreases |job.scripts| - k
  {
    if k == |job.scripts| then 1 else ScriptWork(job.scripts[k]) + WorkFrom(job, k + 1)
  }

  // An upper bound on the producer's remaining steps.
  function ProducerWork(job: Job, p: Producer): nat
    requires ProducerOk(job, p)
  {
    match p
    case AwaitsThread => WorkFrom(job, 0) + 1
    case NextSentence(k) => WorkFrom(job, k)
    case Opening(k) => WorkFrom(job, k) - 1
    case OpenFailed(_) => 1
    case Pulling(k, j) => 3 * (|job.scripts[k].chunks| - j) + 3 + WorkFrom(job, k + 1)
    case GotChunk(k, j) => 3 * (|job.scripts[k].chunks| - j) + 2 + WorkFrom(job, k + 1)
    case Sending(k, j) => 3 * (|job.scripts[k].chunks| - j) + 1 + WorkFrom(job, k + 1)
    case StreamOver(k, _) => 2 + WorkFrom(job, k + 1)
    case SendingSilence(k) => 1 + WorkFrom(job, k + 1)
    case Panicked(_) => 1
    case Stopped => 0
  }

  // Each of the stream's own steps uses up this much; a send adds two steps for the consumer.
  function Work(job: Job, s: State): nat
    requires ProducerOk(job, s.producer)
  {
    3 * ProducerWork(job, s.producer) + 2 * |s.queue| +
    (match s.consumer case Idle => 2 case Receiving => 1 case Ended => 0 case Dropped => 0)
  }

  lemma {:induction false} WorkPositive(job: Job, k: nat)
    requires k <= |job.scripts|
    ensures WorkFrom(job, k) >= 1
    decreases |job.scripts| - k
  {
  }

  lemma FlagUsesWork(job: Job, p: Producer, cancelled: bool)
    requires ProducerOk(job, p) && (p.NextSentence? || p.GotChunk? || p.StreamOver?)
    requires p.StreamOver? && p.cut ==> cancelled
    ensures ProducerOk(job, AfterFlag(job, p, cancelled))
    ensures ProducerWork(job, AfterFlag(job, p, cancelled)) < ProducerWork(job, p)
  {
    match p
    case NextSentence(k) => WorkPositive(job, k);
    case GotChunk(k, _) => WorkPositive(job, k + 1);
    case StreamOver(k, _) => WorkPositive(job, k + 1);
  }

  lemma ModelUsesWork(job: Job, p: Producer)
    requires ProducerOk(job, p) && (p.Opening? || p.Pulling?)
    ensures ProducerOk(job, AfterModel(job, p)) && ProducerWork(job, AfterModel(job, p)) < ProducerWork(job, p)
    ensures ProducerWork(job, StreamOver(p.k, true)) < ProducerWork(job, p)
  {
    WorkPositive(job, p.k + 1);
  }

  lemma SendUsesWork(job: Job, p: Producer, gone: bool)
    requires ProducerOk(job, p) && (p.OpenFailed? || p.Sending? || p.SendingSilence? || p.Panicked?)
    ensures ProducerOk(job, AfterSend(p, gone)) && ProducerWork(job, AfterSend(p, gone)) < ProducerWork(job, p)
  {
  }

  lemma ThreadUsesWork(job: Job)
    ensures ProducerWork(job, NextSentence(0)) < ProducerWork(job, AwaitsThread)
  {
  }

  // Every step of the stream, its start included, uses up work.
  lemma EveryStepUsesWork(job: Job, s: State, a: Action)
    requires Refines(job, s) && Enabled(job, s, a) && !a.Cancel? && !a.Drop?
    ensures ProducerOk(job, Apply(job, s, a).producer) && Work(job, Apply(job, s, a)) < Work(job, s)
  {
    hide ProducerWork, OnTrack, Sequential;
    match a
    case GetThread => ThreadUsesWork(job);
    case ReadFlag => FlagUsesWork(job, s.producer, s.cancelled);
    case CallModel => ModelUsesWork(job, s.producer);
    case CutShort => ModelUsesWork(job, s.producer);
    case Send => SendUsesWork(job, s.producer, s.consumer.Dropped?);
    case _ =>
  }

  // A run in which nobody cancels and the consumer stays.
  ghost predicate IsUndisturbed(job: Job, r: seq<State>) {
    IsRun(job, r) && forall i | 0 <= i < |r| - 1 :: QuietStepAt(job, r, i)
  }

  ghost predicate QuietStepAt(job: Job, r: seq<State>, i: nat)
    requires i < |r| - 1
  {
    && ProducerOk(job, r[i].producer)
    && exists a: Action :: !a.Cancel? && !a.Drop? && Enabled(job, r[i], a) && r[i + 1] == Apply(job, r[i], a)
  }

  // No step of the stream's own is possible any more.
  ghost predicate HasStopped(job: Job, s: State) {
    forall a | IsOwn(a) :: !Enabled(job, s, a)
  }

  lemma {:induction false} UndisturbedWork(job: Job, r: seq<State>, i: nat)
    requires IsUndisturbed(job, r) && i < |r|
    ensures ProducerOk(job, INITIAL.producer) && ProducerOk(job, r[i].producer)
    ensures i + Work(job, r[i]) <= Work(job, INITIAL)
    ensures !r[i].cancelled && !r[i].consumer.Dropped?
  {
    hide Refines, Work, ProducerOk, Apply, Enabled;
    RefinesRun(job, r, 0);
    RefinesRun(job, r, i);
    assert ProducerOk(job, r[0].producer) && ProducerOk(job, r[i].producer)
      by { RefinesIsOk(job, r[0]); RefinesIsOk(job, r[i]); }
    if i > 0 {
      UndisturbedWork(job, r, i - 1);
      RefinesRun(job, r, i - 1);
      assert QuietStepAt(job, r, i - 1);
      var a: Action :| !a.Cancel? && !a.Drop? && Enabled(job, r[i - 1], a) && r[i] == Apply(job, r[i - 1], a);
      EveryStepUsesWork(job, r[i - 1], a);
      QuietStepsDisturbNothing(job, r[i - 1], a);
    }
  }

  lemma RefinesIsOk(job: Job, s: State)
    requires Refines(job, s)
    ensures ProducerOk(job, s.producer)
  {
  }

  lemma QuietStepsDisturbNothing(job: Job, s: State, a: Action)
    requires ProducerOk(job, s.producer) && Enabled(job, s, a) && !a.Cancel? && !a.Drop?
    ensures Apply(job, s, a).cancelled == s.cancelled
    ensures Apply(job, s, a).consumer.Dropped? <==> s.consumer.Dropped?
  {
  }

  // Undisturbed, every run is short, and one that cannot go on by itself has delivered the whole
  // sequential output, or its consumer still waits for the producer to get a thread of the pool and
  // nothing has been delivered.
  lemma {:induction false} UndisturbedRunsComplete(job: Job, r: seq<State>)
    requires IsUndisturbed(job, r)
    ensures ProducerOk(job, INITIAL.producer) && |r| - 1 <= Work(job, INITIAL)
    ensures HasStopped(job, r[|r| - 1]) ==>
      r[|r| - 1].delivered == if AwaitsPool(r[|r| - 1]) then [] else Sequential(job, 0)
  {
    hide Refines, Work, ProducerOk, Apply, Enabled, Sequential, AwaitsPool;
    var last := |r| - 1;
    UndisturbedWork(job, r, last);
    if HasStopped(job, r[last]) {
      RefinesRun(job, r, last);
      if AwaitsPool(r[last]) {
        NothingSentYet(job, r[last]);
      } else {
        if !r[last].consumer.Ended? {
          var a := NeverStuck(job, r[last]);
        }
        UncancelledDeliversEverything(job, r, last);
      }
    }
  }

  lemma NothingSentYet(job: Job, s: State)
    requires Refines(job, s) && AwaitsPool(s)
    ensures s.delivered == []
  {
    assert |s.delivered| <= |Sent(s)|;
  }

  // ---------- After a cancellation ----------

  // What a cancelled producer may still send.
  function StillToSend(p: Producer): nat {
    match p
    case Opening(_) => 1
    case OpenFailed(_) => 1
    case Pulling(_, _) => 1
    case Sending(_, _) => 2
    case SendingSilence(_) => 1
    case Panicked(_) => 1
    case _ => 0
  }

  predicate AfterCancel(early: State, late: State) {
    && early.cancelled && late.cancelled
    && |Sent(late)| + StillToSend(late.producer) <= |Sent(early)| + StillToSend(early.producer)
    && |late.delivered| + (if late.consumer.Receiving? then 1 else 0)
       <= |early.delivered| + (if early.consumer.Receiving? then 1 else 0)
  }

  lemma AfterCancelStep(job: Job, s: State, a: Action)
    requires ProducerOk(job, s.producer) && Enabled(job, s, a) && s.cancelled
    ensures AfterCancel(s, Apply(job, s, a))
  {
  }

  // Once the flag is set it stays set, the producer sends at most two more items (the chunk it
  // was about to send and an error) and the consumer takes at most one more.
  lemma {:induction false} CancellationIsPrompt(job: Job, r: seq<State>, i: nat, j: nat)
    requires IsRun(job, r) && i <= j < |r| && r[i].cancelled
    ensures r[j].cancelled
    ensures |r[j].delivered| + |r[j].queue| <= |r[i].delivered| + |r[i].queue| + 2
    ensures |r[j].delivered| <= |r[i].delivered| + 1
    ensures AfterCancel(r[i], r[j])
    decreases j - i
  {
    if i < j {
      CancellationIsPrompt(job, r, i, j - 1);
      assert StepAt(job, r, j - 1);
      var a :| Enabled(job, r[j - 1], a) && r[j] == Apply(job, r[j - 1], a);
      AfterCancelStep(job, r[j - 1], a);
    }
  }
}
