/**
 Runs of the unload protocol, built step by step from the empty state, for every size of the pool
 that allows them: some end in a deadlock, and some show what a call delivers after its own callback
 has unloaded its voice.
 */
module UnloadRuns {
  import opened Wrappers
  import opened CallbackTokens
  import opened UnloadProtocol
  import opened UnloadSafety
  import opened UnloadStacks
  import opened UnloadKnots
  import opened UnloadProgress
  import opened UnloadPool

  // ---------- Pieces of runs ----------

  lemma Step(r: seq<State>, a: Action) returns (r': seq<State>)
    requires r != [] && IsRun(r) && Enabled(Last(r), a)
    ensures r' != [] && IsRun(r') && r <= r' && Last(r') == Apply(Last(r), a)
  {
    RunGoesOn(r, a);
    r' := r + [Apply(Last(r), a)];
  }

  const OPEN: VoiceState := VoiceState(false, 0, Open, None)

  // The numbers below n.
  function Below(n: nat): (r: set<nat>)
    ensures forall i: nat :: i in r <==> i < n
  {
    if n == 0 then {} else Below(n - 1) + {n - 1}
  }

  function Idle(pool: bool): ThreadState {
    ThreadState(pool, None, [])
  }

  // Idle threads, the first n of them the pool's.
  function Threads(n: nat, all: nat): map<Thread, ThreadState> {
    map t | t in Below(all) :: Idle(t < n)
  }

  // Nothing has been called yet.
  function Quiet(voices: nat, n: nat, all: nat): State {
    State(map v | v in Below(voices) :: OPEN, map[], Threads(n, all), Tokens({}, map[]))
  }

  lemma {:induction false} Setup(voices: nat, n: nat, all: nat) returns (r: seq<State>)
    ensures r != [] && IsRun(r) && Last(r) == Quiet(voices, n, all)
    decreases voices
  {
    hide IsRun, Quiet;
    if voices == 0 {
      r := SetupThreads(n, all);
    } else {
      r := Setup(voices - 1, n, all);
      MoreVoices(voices - 1, n, all);
      r := Step(r, LoadVoice(voices - 1));
    }
  }

  lemma MoreVoices(voices: nat, n: nat, all: nat)
    ensures Enabled(Quiet(voices, n, all), LoadVoice(voices))
    ensures Apply(Quiet(voices, n, all), LoadVoice(voices)) == Quiet(voices + 1, n, all)
  {
    assert Quiet(voices, n, all).voices[voices := OPEN] == Quiet(voices + 1, n, all).voices;
  }

  lemma {:induction false} SetupThreads(n: nat, all: nat) returns (r: seq<State>)
    ensures r != [] && IsRun(r) && Last(r) == Quiet(0, n, all)
    decreases all
  {
    hide IsRun, Quiet;
    if all == 0 {
      r := EmptyRun();
      NothingYet(n);
    } else {
      r := SetupThreads(n, all - 1);
      MoreThreads(n, all - 1);
      r := Step(r, NewThread(all - 1, all - 1 < n));
    }
  }

  lemma NothingYet(n: nat)
    ensures Quiet(0, n, 0) == State(map[], map[], map[], Tokens({}, map[]))
  {
    assert Quiet(0, n, 0).voices == map[] && Quiet(0, n, 0).threads == map[];
  }

  lemma MoreThreads(n: nat, all: nat)
    ensures Enabled(Quiet(0, n, all), NewThread(all, all < n))
    ensures Apply(Quiet(0, n, all), NewThread(all, all < n)) == Quiet(0, n, all + 1)
  {
    assert Threads(n, all)[all := Idle(all < n)] == Threads(n, all + 1);
  }

  lemma EmptyRun() returns (r: seq<State>)
    ensures r != [] && IsRun(r) && Last(r) == State(map[], map[], map[], Tokens({}, map[]))
  {
    r := [State(map[], map[], map[], Tokens({}, map[]))];
  }

  // A new nonblocking call of a voice waits in the queue.
  function WithQueued(s: State, w: Worker, v: Voice, mode: Mode): State
    requires v in s.voices
  {
    s.(workers := s.workers[w := NewCall(v, true, mode, true, 0, 0, Queued)],
       voices := s.voices[v := Join(s.voices[v])],
       tokens := Register(s.tokens, w))
  }

  lemma Queue(r: seq<State>, w: Worker, v: Voice, mode: Mode) returns (r': seq<State>)
    requires r != [] && IsRun(r) && w !in Last(r).workers && v in Last(r).voices && !Last(r).voices[v].closing
    ensures r' != [] && IsRun(r') && r <= r' && Last(r') == WithQueued(Last(r), w, v, mode)
  {
    hide IsRun;
    r' := Step(r, Enter(w, v, mode, true));
    r' := Step(r', Spawn(w));
  }

  // A queued call has started on a thread and builds its stream.
  function WithBuilding(s: State, w: Worker, t: Thread): State
    requires w in s.workers && t in s.threads && s.workers[w].voice in s.voices
  {
    var ws, ts := s.workers[w], s.threads[t];
    s.(workers := s.workers[w := ws.(phase := Building, thread := t, depth := |ts.stack|)],
       voices := s.voices[ws.voice := Occupy(s.voices[ws.voice], w, ws.mode)],
       threads := s.threads[t := Push(ts, Job(w, ws.voice, true, ts.active, false)).(active := Some(ws.voice))])
  }

  lemma Begin(r: seq<State>, w: Worker, t: Thread) returns (r': seq<State>)
    requires r != [] && IsRun(r) && w in Last(r).workers && Last(r).workers[w].phase.Queued?
    requires Last(r).workers[w].voice in Last(r).voices && CanTakeJob(Last(r), t)
    ensures r' != [] && IsRun(r') && r <= r' && Last(r') == WithBuilding(Last(r), w, t)
  {
    hide IsRun, CanTakeJob;
    r' := Step(r, Start(w, t));
  }

  // It pulls its stream.
  function WithPulling(s: State, w: Worker): State
    requires w in s.workers
  {
    var ws := s.workers[w];
    s.(workers := s.workers[w := ws.(phase := Pulling,
                                         producer := if ws.mode.Realtime? then Unserved else ws.producer)])
  }

  lemma Build(r: seq<State>, w: Worker) returns (r': seq<State>)
    requires r != [] && IsRun(r) && OnTop(Last(r), w) && Last(r).workers[w].voice in Last(r).voices
    requires var ws := Last(r).workers[w]; ws.phase.Building? && ws.builds && !ws.cancelled && !ws.mode.Parallel?
    ensures r' != [] && IsRun(r') && r <= r' && Last(r') == WithPulling(Last(r), w)
  {
    hide IsRun, OnTop, HasPieces;
    SplitsNothing(Last(r), w);
    r' := Step(r, Run(w, BuildSucceeds));
  }

  lemma SplitsNothing(s: State, w: Worker)
    requires OnTop(s, w) && !Splits(s.workers[w])
    ensures w in s.workers && !IsJoining(s, s.workers[w].thread)
  {
  }

  function WithSpeech(s: State, w: Worker): State
    requires w in s.workers
  {
    var ws := s.workers[w];
    s.(workers := s.workers[w := ws.(phase := InCallback(Speech), events := ws.events + [Speech])])
  }

  lemma Speak(r: seq<State>, w: Worker) returns (r': seq<State>)
    requires r != [] && IsRun(r) && OnTop(Last(r), w) && Last(r).workers[w].mode.Lazy?
    requires Last(r).workers[w].phase.Pulling? && !Last(r).workers[w].producer.Unserved?
    requires Last(r).workers[w].voice in Last(r).voices && !Last(r).voices[Last(r).workers[w].voice].closing
    ensures r' != [] && IsRun(r') && r <= r' && Last(r') == WithSpeech(Last(r), w)
  {
    var ws := Last(r).workers[w];
    SpeechMoves(ws);
    hide IsRun, OnTop, NextPhase, Advance;
    r' := MoveTo(r, w, PullsChunk, ws.(phase := Pulled(true)));
    r' := MoveTo(r', w, ReadsClosing, ws.(phase := Delivering(Speech)));
    r' := MoveTo(r', w, Invokes, ws.(phase := InCallback(Speech), events := ws.events + [Speech]));
    assert Last(r').workers == WithSpeech(Last(r), w).workers;
  }

  // From a pull to its SPEECH callback on an open voice.
  lemma SpeechMoves(ws: WorkerState)
    requires ws.phase.Pulling? && !ws.producer.Unserved?
    ensures NextPhase(ws, PullsChunk, false).Some?
    ensures Advance(ws, PullsChunk, false) == ws.(phase := Pulled(true))
    ensures var ws' := ws.(phase := Pulled(true));
      NextPhase(ws', ReadsClosing, false).Some?
      && Advance(ws', ReadsClosing, false) == ws.(phase := Delivering(Speech))
    ensures var ws' := ws.(phase := Delivering(Speech));
      NextPhase(ws', Invokes, false).Some?
      && Advance(ws', Invokes, false) == ws.(phase := InCallback(Speech), events := ws.events + [Speech])
  {
  }

  // One move of a call on top of its thread that stays there and keeps its token.
  lemma MoveTo(r: seq<State>, w: Worker, m: Move, ws': WorkerState) returns (r': seq<State>)
    requires r != [] && IsRun(r) && OnTop(Last(r), w) && Last(r).workers[w].voice in Last(r).voices
    requires !Splits(Last(r).workers[w]) && !m.Returns?
    requires var ws, closing := Last(r).workers[w], Last(r).voices[Last(r).workers[w].voice].closing;
      NextPhase(ws, m, closing).Some? && Advance(ws, m, closing) == ws' && OnStack(ws'.phase)
    ensures r' != [] && IsRun(r') && r <= r'
    ensures Last(r') == Last(r).(workers := Last(r).workers[w := ws']) && OnTop(Last(r'), w)
  {
    SplitsNothing(Last(r), w);
    AdvanceKeepsRequest(Last(r).workers[w], m, Last(r).voices[Last(r).workers[w].voice].closing);
    TopStays(Last(r), w, ws');
    hide IsRun, OnTop, NextPhase, Advance, IsJoining;
    r' := Step(r, Run(w, m));
  }

  lemma TopStays(s: State, w: Worker, ws': WorkerState)
    requires OnTop(s, w) && ws'.thread == s.workers[w].thread && OnStack(ws'.phase)
    ensures OnTop(s.(workers := s.workers[w := ws']), w)
  {
  }

  function Busy(w: Worker, v: Voice): ThreadState {
    ThreadState(true, Some(v), [Job(w, v, true, None, false)])
  }

  // A lazy call of voice v in its first SPEECH callback.
  function Speaking(v: Voice, t: Thread): WorkerState {
    WorkerState(v, true, Lazy, true, t, 0, InCallback(Speech), NotSpawned, false, [Speech], [], Pending)
  }

  function WithCallback(s: State, w: Worker, v: Voice, t: Thread): State
    requires v in s.voices
  {
    State(s.voices[v := Join(s.voices[v])], s.workers[w := Speaking(v, t)], s.threads[t := Busy(w, v)],
          Register(s.tokens, w))
  }

  lemma Callback(r: seq<State>, w: Worker, v: Voice, t: Thread) returns (r': seq<State>)
    requires r != [] && IsRun(r) && w !in Last(r).workers && v in Last(r).voices && !Last(r).voices[v].closing
    requires t in Last(r).threads && Last(r).threads[t] == Idle(true)
    ensures r' != [] && IsRun(r') && r <= r' && Last(r') == WithCallback(Last(r), w, v, t)
  {
    hide IsRun;
    r' := Queue(r, w, v, Lazy);
    r' := Begin(r', w, t);
    r' := Build(r', w);
    r' := Speak(r', w);
    CallbackState(Last(r), w, v, t);
  }

  lemma CallbackState(s: State, w: Worker, v: Voice, t: Thread)
    requires v in s.voices && t in s.threads && s.threads[t] == Idle(true)
    ensures WithSpeech(WithPulling(WithBuilding(WithQueued(s, w, v, Lazy), w, t), w), w) == WithCallback(s, w, v, t)
  {
    var s', s'' := WithSpeech(WithPulling(WithBuilding(WithQueued(s, w, v, Lazy), w, t), w), w),
                   WithCallback(s, w, v, t);
    assert [] + [Job(w, v, true, None, false)] == [Job(w, v, true, None, false)];
    assert [] + [Speech] == [Speech];
    assert s'.voices == s''.voices && s'.workers == s''.workers && s'.threads == s''.threads;
  }

  // Voice v's unload waits on thread t.
  function WithUnloading(s: State, v: Voice, t: Thread): State
    requires v in s.voices && t in s.threads
  {
    s.(voices := s.voices[v := s.voices[v].(closing := true, unload := Checking(t))],
       threads := s.threads[t := Push(s.threads[t], Unloading(v))])
  }

  // Everybody who speaks is in a callback, queued or on a pool thread, so any open voice may be
  // unloaded.
  ghost predicate NoCallIsPending(s: State) {
    forall w | w in s.workers :: !CallInProgress(s.workers[w])
  }

  lemma Unload(r: seq<State>, v: Voice, t: Thread) returns (r': seq<State>)
    requires r != [] && IsRun(r) && NoCallIsPending(Last(r)) && v in Last(r).voices && Last(r).voices[v].unload.Open?
    requires RunsCallerCode(Last(r), t) && Last(r).threads[t].active != Some(v)
    ensures r' != [] && IsRun(r') && r <= r' && Last(r') == WithUnloading(Last(r), v, t)
  {
    hide IsRun, RunsCallerCode;
    r' := Step(r, BeginUnload(v, t));
  }

  // A knotted unload has no continuation in which it returns.
  lemma NeverReturns(r: seq<State>, t: Thread)
    requires r != [] && IsRun(r) && IsWaiting(Last(r), t) && Knotted(Last(r), t)
    ensures !CanReturn(r, Top(Last(r).threads[t]).voice)
  {
    hide IsRun, CanReturn, Knotted;
    ReturnsIffNotKnotted(r, t);
  }

  // ---------- Callbacks that unload each other's voice ----------

  // Two callbacks on two threads of a pool of n.
  function BothSpeak(n: nat): State
    requires n >= 2
  {
    WithCallback(WithCallback(Quiet(2, n, n), 0, 0, 0), 1, 1, 1)
  }

  function BothWait(n: nat): State
    requires n >= 2
  {
    WithUnloading(WithUnloading(BothSpeak(n), 1, 0), 0, 1)
  }

  lemma TwoCallbacks(n: nat) returns (r: seq<State>)
    requires n >= 2
    ensures r != [] && IsRun(r) && Last(r) == BothSpeak(n)
  {
    hide IsRun;
    r := Setup(2, n, n);
    r := Callback(r, 0, 0, 0);
    r := Callback(r, 1, 1, 1);
  }

  // Two callbacks that unload each other's voice, in a pool of any size that holds both.
  lemma MutualUnloadDeadlocks(n: nat) returns (r: seq<State>)
    requires n >= 2
    ensures r != [] && IsRun(r) && Pool(Last(r)) == Below(n)
    ensures IsWaiting(Last(r), 0) && IsWaiting(Last(r), 1) && !CanReturn(r, 0) && !CanReturn(r, 1)
  {
    hide IsRun, CanReturn, BothSpeak, BothWait, WithUnloading, Knotted;
    r := TwoCallbacks(n);
    FirstUnload(n);
    r := Unload(r, 1, 0);
    SecondUnload(n);
    r := Unload(r, 0, 1);
    BothAreKnotted(n);
    NeverReturns(r, 0);
    NeverReturns(r, 1);
  }

  lemma FirstUnload(n: nat)
    requires n >= 2
    ensures var s := BothSpeak(n);
      && NoCallIsPending(s) && RunsCallerCode(s, 0) && 1 in s.voices && s.voices[1].unload.Open?
      && 0 in s.threads && s.threads[0].active == Some(0)
  {
  }

  lemma SecondUnload(n: nat)
    requires n >= 2
    ensures 1 in BothSpeak(n).voices && 0 in BothSpeak(n).threads
    ensures var s := WithUnloading(BothSpeak(n), 1, 0);
      && NoCallIsPending(s) && RunsCallerCode(s, 1) && 0 in s.voices && s.voices[0].unload.Open?
      && 1 in s.threads && s.threads[1].active == Some(1)
      && WithUnloading(s, 0, 1) == BothWait(n)
  {
  }

  lemma {:induction false} BothAreKnotted(n: nat)
    requires n >= 2
    ensures var s := BothWait(n);
      && IsWaiting(s, 0) && Top(s.threads[0]).voice == 1 && IsWaiting(s, 1) && Top(s.threads[1]).voice == 0
      && Knotted(s, 0) && Knotted(s, 1) && Pool(s) == Below(n)
  {
    hide Knotted, BothWait, Pool;
    var s := BothWait(n);
    BothWaitThreads(n);
    assert HoldsVoice(s, 1, 1, 0) && HoldsVoice(s, 0, 0, 0);
    MutualWaitsAreAKnot(s, 0, 1, 0, 0);
  }

  lemma {:induction false} BothWaitThreads(n: nat)
    requires n >= 2
    ensures var s := BothWait(n);
      && 0 in s.threads && s.threads[0].stack == [Job(0, 0, true, None, false), Unloading(1)]
      && 1 in s.threads && s.threads[1].stack == [Job(1, 1, true, None, false), Unloading(0)]
      && Pool(s) == Below(n)
  {
    hide Pool, Quiet;
    var both := Threads(n, n)[0 := Busy(0, 0)][1 := Busy(1, 1)];
    QuietThreads(2, n, n);
    assert BothWait(n).threads == both[0 := Push(Busy(0, 0), Unloading(1))][1 := Push(Busy(1, 1), Unloading(0))];
    PoolOfAll(BothWait(n), n);
  }

  lemma QuietThreads(voices: nat, n: nat, all: nat)
    ensures Quiet(voices, n, all).threads == Threads(n, all)
  {
  }

  lemma {:induction false} PoolOfAll(s: State, n: nat)
    requires forall t: Thread :: t in s.threads && s.threads[t].pool <==> t < n
    ensures Pool(s) == Below(n)
  {
    assert forall t: Thread :: t in Pool(s) <==> t in Below(n);
  }

  // ---------- Callbacks that starve the pool ----------

  function StarvedCalls(n: nat, k: nat): (r: set<Worker>)
    requires k <= n
    ensures forall w: Worker :: w in r <==> w < k || n <= w < n + k
  {
    if k == 0 then {} else StarvedCalls(n, k - 1) + {n + k - 1, k - 1}
  }

  function StarvedVoices(n: nat, k: nat): map<Voice, VoiceState> {
    map v | v in Below(2 * n) ::
      if v < k then Join(OPEN) else if n <= v < n + k then VoiceState(true, 1, Checking(v - n), None) else OPEN
  }

  function StarvedWorkers(n: nat, k: nat, mode: Mode): map<Worker, WorkerState>
    requires k <= n
  {
    map w | w in StarvedCalls(n, k) ::
      if w < n then Speaking(w, w) else NewCall(w, true, mode, true, 0, 0, Queued)
  }

  function StarvedThread(n: nat, t: Thread): ThreadState {
    ThreadState(true, Some(t), [Job(t, t, true, None, false), Unloading(n + t)])
  }

  function StarvedThreads(n: nat, k: nat): map<Thread, ThreadState> {
    map t | t in Below(n) :: if t < k then StarvedThread(n, t) else Idle(true)
  }

  function Untouched(calls: set<Worker>): Tokens {
    Tokens(calls, map w | w in calls :: 0)
  }

  // The first k callbacks of a pool of n wait in the unload of a voice whose call is still queued.
  function Starved(n: nat, k: nat, mode: Mode): State
    requires k <= n
  {
    State(StarvedVoices(n, k), StarvedWorkers(n, k, mode), StarvedThreads(n, k), Untouched(StarvedCalls(n, k)))
  }

  lemma {:induction false} StarvedRun(n: nat, k: nat, mode: Mode) returns (r: seq<State>)
    requires k <= n
    ensures r != [] && IsRun(r) && Last(r) == Starved(n, k, mode)
  {
    hide IsRun, Starved, Quiet, WithQueued, WithCallback, WithUnloading;
    if k == 0 {
      r := Setup(2 * n, n, n);
      NoneStarved(n, mode);
    } else {
      r := StarvedRun(n, k - 1, mode);
      OneMoreQueued(n, k - 1, mode);
      r := Queue(r, n + k - 1, n + k - 1, mode);
      r := Callback(r, k - 1, k - 1, k - 1);
      OneMoreWaits(n, k - 1, mode);
      r := Unload(r, n + k - 1, k - 1);
      OneMoreStarved(n, k - 1, mode);
    }
  }

  lemma NoneStarved(n: nat, mode: Mode)
    ensures Quiet(2 * n, n, n) == Starved(n, 0, mode)
  {
    assert Quiet(2 * n, n, n).voices == StarvedVoices(n, 0) && Threads(n, n) == StarvedThreads(n, 0);
    assert StarvedWorkers(n, 0, mode) == map[] && Starved(n, 0, mode).tokens.unpins == map[];
  }

  lemma OneMoreQueued(n: nat, k: nat, mode: Mode)
    requires k < n
    ensures var s := Starved(n, k, mode);
      && n + k !in s.workers && n + k in s.voices && !s.voices[n + k].closing
    ensures var s := WithQueued(Starved(n, k, mode), n + k, n + k, mode);
      && k !in s.workers && k in s.voices && !s.voices[k].closing && k in s.threads && s.threads[k] == Idle(true)
  {
  }

  lemma OneMoreWaits(n: nat, k: nat, mode: Mode)
    requires k < n
    ensures n + k in Starved(n, k, mode).voices && k in Starved(n, k, mode).voices
    ensures var s := WithCallback(WithQueued(Starved(n, k, mode), n + k, n + k, mode), k, k, k);
      && NoCallIsPending(s) && n + k in s.voices && s.voices[n + k].unload.Open?
      && RunsCallerCode(s, k) && s.threads[k].active == Some(k)
  {
    hide StarvedVoices, StarvedThreads, Untouched;
    OneMoreVoice(n, k);
  }

  lemma OneMoreStarved(n: nat, k: nat, mode: Mode)
    requires k < n
    ensures n + k in Starved(n, k, mode).voices && k in Starved(n, k, mode).voices
    ensures WithUnloading(WithCallback(WithQueued(Starved(n, k, mode), n + k, n + k, mode), k, k, k), n + k, k)
      == Starved(n, k + 1, mode)
  {
    hide StarvedVoices, StarvedWorkers, StarvedThreads, StarvedCalls, Untouched;
    OneMoreVoice(n, k);
    OneMoreCall(n, k, mode);
    OneMoreThread(n, k);
    MoreUntouched(StarvedCalls(n, k), n + k);
    MoreUntouched(StarvedCalls(n, k) + {n + k}, k);
    assert StarvedCalls(n, k) + {n + k} + {k} == StarvedCalls(n, k + 1);
  }

  lemma OneMoreVoice(n: nat, k: nat)
    requires k < n
    ensures var voices := StarvedVoices(n, k);
      && n + k in voices && voices[n + k] == OPEN && k in voices && voices[k] == OPEN
      && voices[n + k := Join(OPEN)][k := Join(OPEN)][n + k := VoiceState(true, 1, Checking(k), None)]
         == StarvedVoices(n, k + 1)
  {
  }

  lemma OneMoreCall(n: nat, k: nat, mode: Mode)
    requires k < n
    ensures StarvedWorkers(n, k, mode)[n + k := NewCall(n + k, true, mode, true, 0, 0, Queued)][k := Speaking(k, k)]
      == StarvedWorkers(n, k + 1, mode)
  {
  }

  lemma OneMoreThread(n: nat, k: nat)
    requires k < n
    ensures StarvedThreads(n, k)[k := Busy(k, k)][k := Push(Busy(k, k), Unloading(n + k))] == StarvedThreads(n, k + 1)
  {
    assert Push(Busy(k, k), Unloading(n + k)) == StarvedThread(n, k);
  }

  lemma MoreUntouched(calls: set<Worker>, w: Worker)
    ensures Register(Untouched(calls), w) == Untouched(calls + {w})
  {
    assert Register(Untouched(calls), w).unpins == Untouched(calls + {w}).unpins;
  }

  // The unload of voice v on thread t never returns.
  ghost predicate IsStuck(r: seq<State>, t: Thread, v: Voice)
    requires r != []
  {
    IsWaiting(Last(r), t) && Top(Last(r).threads[t]) == Unloading(v) && !CanReturn(r, v)
  }

  // The pool threads a queued call needs at the same time.
  function Needed(mode: Mode): nat {
    if mode.Realtime? then 2 else 1
  }

  // Callbacks on k of the n threads of the pool, each unloading a voice of its own that has a call
  // in the queue: the unloads can return exactly if the threads left are enough for such a call,
  // one for its job and, if it is a realtime call, another one for its producer.
  lemma StarvedPoolDeadlocks(n: nat, k: nat, mode: Mode) returns (r: seq<State>)
    requires k <= n
    ensures r != [] && IsRun(r) && Pool(Last(r)) == Below(n)
    ensures forall t | t in Below(k) ::
      && IsWaiting(Last(r), t) && Top(Last(r).threads[t]) == Unloading(n + t)
      && (CanReturn(r, n + t) <==> n - k >= Needed(mode))
  {
    hide IsRun, Starved, CanReturn, Knotted;
    r := StarvedRun(n, k, mode);
    StarvedPool(n, k, mode);
    forall t | t in Below(k)
      ensures IsWaiting(Last(r), t) && Top(Last(r).threads[t]) == Unloading(n + t)
      ensures CanReturn(r, n + t) <==> n - k >= Needed(mode)
    {
      StarvedIsKnotted(n, k, mode, t);
      ReturnsIffNotKnotted(r, t);
    }
  }

  lemma {:induction false} StarvedPool(n: nat, k: nat, mode: Mode)
    requires k <= n
    ensures Pool(Starved(n, k, mode)) == Below(n) && Starved(n, k, mode).threads.Keys == Below(n)
    ensures forall t | t in Below(n) ::
      Starved(n, k, mode).threads[t] == if t < k then StarvedThread(n, t) else Idle(true)
  {
    PoolOfAll(Starved(n, k, mode), n);
  }

  // The numbers from k on below n.
  function Rest(n: nat, k: nat): (r: set<nat>)
    requires k <= n
    ensures forall i: nat :: i in r <==> k <= i < n
    ensures |r| == n - k
  {
    if n == k then {} else Rest(n - 1, k) + {n - 1}
  }

  function StarvedMarks(k: nat): Marks {
    map t | t in Below(k) :: 1
  }

  lemma StarvedIsKnotted(n: nat, k: nat, mode: Mode, t: Thread)
    requires t < k <= n
    ensures IsWaiting(Starved(n, k, mode), t) && Top(Starved(n, k, mode).threads[t]) == Unloading(n + t)
    ensures Knotted(Starved(n, k, mode), t) <==> n - k < Needed(mode)
  {
    hide Starved, Pool, Knot, Settled;
    var s := Starved(n, k, mode);
    StarvedPool(n, k, mode);
    assert t in Below(n);
    if n - k < Needed(mode) {
      StarvedKnot(n, k, mode);
      MarkedTop(s, StarvedMarks(k), t);
    } else {
      forall marks | t in marks && marks[t] == |s.threads[t].stack| - 1 ensures !Knot(s, marks) {
        EnoughThreads(n, k, mode, marks, t);
      }
    }
  }

  // The idle threads are free, whatever is marked, and with all waits marked no others are.
  lemma {:induction false} IdleIsFree(n: nat, k: nat, mode: Mode, marks: Marks)
    requires k <= n
    ensures Rest(n, k) <= Free(Starved(n, k, mode), marks)
    ensures marks == StarvedMarks(k) ==> Free(Starved(n, k, mode), marks) == Rest(n, k)
  {
    hide Starved, Pool, Settled;
    StarvedPool(n, k, mode);
    forall t | t in Below(n) ensures Settled(Starved(n, k, mode), marks, t) ==> t < k
      ensures Settled(Starved(n, k, mode), StarvedMarks(k), t) <==> t < k
    {
      SettledOrIdle(n, k, mode, marks, t);
      SettledOrIdle(n, k, mode, StarvedMarks(k), t);
    }
  }

  lemma SettledOrIdle(n: nat, k: nat, mode: Mode, marks: Marks, t: Thread)
    requires k <= n && t < n
    ensures Settled(Starved(n, k, mode), marks, t) <==> t < k && t in marks && marks[t] == 1
  {
    hide Starved, Pool, NeedsProducer;
    StarvedPool(n, k, mode);
    assert t in Below(n);
  }

  lemma StarvedKnot(n: nat, k: nat, mode: Mode)
    requires k <= n && n - k < Needed(mode)
    ensures Knot(Starved(n, k, mode), StarvedMarks(k))
  {
    hide Starved, Free, Tied;
    IdleIsFree(n, k, mode, StarvedMarks(k));
    forall t | t in StarvedMarks(k) ensures Tied(Starved(n, k, mode), StarvedMarks(k), t) {
      StarvedIsTied(n, k, mode, t);
    }
  }

  lemma StarvedIsTied(n: nat, k: nat, mode: Mode, t: Thread)
    requires t < k <= n && |Free(Starved(n, k, mode), StarvedMarks(k))| < Needed(mode)
    ensures Tied(Starved(n, k, mode), StarvedMarks(k), t)
  {
    hide Starved, Free, HeldInside, Demand, Pool;
    StarvedPool(n, k, mode);
    assert t in Below(n);
    StarvedCallIsQueued(n, k, mode, t);
    assert IsStarved(Starved(n, k, mode), StarvedMarks(k), n + t);
  }

  lemma EnoughThreads(n: nat, k: nat, mode: Mode, marks: Marks, t: Thread)
    requires t < k <= n && n - k >= Needed(mode) && t in marks && marks[t] == 1
    ensures !Knot(Starved(n, k, mode), marks)
  {
    hide Starved, Free, HeldInside, IsStarved, Pool;
    var s := Starved(n, k, mode);
    StarvedPool(n, k, mode);
    assert t in Below(n);
    NobodyHolds(n, k, mode, marks, t);
    NobodyStarves(n, k, mode, marks, t);
    assert !Tied(s, marks, t);
  }

  lemma NobodyStarves(n: nat, k: nat, mode: Mode, marks: Marks, t: Thread)
    requires k <= n && n - k >= Needed(mode)
    ensures !IsStarved(Starved(n, k, mode), marks, n + t)
  {
    hide Starved, Free, Demand;
    IdleIsFree(n, k, mode, marks);
    Subset(Rest(n, k), Free(Starved(n, k, mode), marks));
    forall w | IsQueued(Starved(n, k, mode), n + t, w)
      ensures |Free(Starved(n, k, mode), marks)| >= Demand(Starved(n, k, mode).workers[w])
    {
      QueuedIsStarved(n, k, mode, w);
    }
  }

  lemma NobodyHolds(n: nat, k: nat, mode: Mode, marks: Marks, t: Thread)
    requires k <= n
    ensures !HeldInside(Starved(n, k, mode), marks, n + t)
  {
    hide Starved, Pool;
    StarvedPool(n, k, mode);
    forall t2, i: nat | Inside(marks, t2, i) ensures !HoldsVoice(Starved(n, k, mode), n + t, t2, i) {
      assert t2 in Starved(n, k, mode).threads ==> t2 in Below(n);
    }
  }

  lemma QueuedIsStarved(n: nat, k: nat, mode: Mode, w: Worker)
    requires k <= n && w in Starved(n, k, mode).workers && Starved(n, k, mode).workers[w].phase.Queued?
    ensures Demand(Starved(n, k, mode).workers[w]) == Needed(mode)
  {
  }

  lemma StarvedCallIsQueued(n: nat, k: nat, mode: Mode, t: Thread)
    requires t < k <= n
    ensures IsQueued(Starved(n, k, mode), n + t, n + t)
    ensures Demand(Starved(n, k, mode).workers[n + t]) == Needed(mode)
  {
  }

  // ---------- Realtime calls that fill the pool ----------

  // A realtime call of voice 0 on thread t, blocked in its first receive.
  function Receiving(t: Thread, cancelled: bool): WorkerState {
    WorkerState(0, true, Realtime, true, t, 0, Pulling, Unserved, cancelled, [], [], Pending)
  }

  function UpTo(n: nat): (r: set<nat>)
    ensures forall i: nat :: i in r <==> i <= n
  {
    Below(n) + {n}
  }

  function FilledThreads(n: nat, k: nat): map<Thread, ThreadState> {
    map t | t in UpTo(n) :: if t < k then Busy(t, 0) else Idle(t < n)
  }

  function FilledWorkers(k: nat): map<Worker, WorkerState> {
    map w | w in Below(k) :: Receiving(w, false)
  }

  function FilledVoice(k: nat): VoiceState {
    VoiceState(false, k, Open, if k == 0 then None else Some(k - 1))
  }

  // k of the n pool threads are in the first receive of a call; thread n is an application thread.
  function Filled(n: nat, k: nat): State {
    State(map[0 := FilledVoice(k)], FilledWorkers(k), FilledThreads(n, k), Untouched(Below(k)))
  }

  lemma {:induction false} FilledRun(n: nat, k: nat) returns (r: seq<State>)
    requires k <= n
    ensures r != [] && IsRun(r) && Last(r) == Filled(n, k)
  {
    hide IsRun, Filled, Quiet, WithQueued, WithBuilding, WithPulling, CanTakeJob, OnTop;
    if k == 0 {
      r := Setup(1, n, n + 1);
      NoneFilled(n);
    } else {
      r := FilledRun(n, k - 1);
      OneMoreEnters(n, k - 1);
      r := Queue(r, k - 1, 0, Realtime);
      r := Begin(r, k - 1, k - 1);
      OneMoreBuilds(n, k - 1);
      r := Build(r, k - 1);
      OneMoreFilled(n, k - 1);
    }
  }

  lemma NoneFilled(n: nat)
    ensures Quiet(1, n, n + 1) == Filled(n, 0)
  {
    assert Quiet(1, n, n + 1).voices == map[0 := FilledVoice(0)] && Threads(n, n + 1) == FilledThreads(n, 0);
    assert FilledWorkers(0) == map[] && Untouched(Below(0)).unpins == map[];
  }

  lemma OneMoreEnters(n: nat, k: nat)
    requires k < n
    ensures var s := Filled(n, k);
      && k !in s.workers && 0 in s.voices && !s.voices[0].closing
      && var s1 := WithQueued(s, k, 0, Realtime);
      && k in s1.workers && s1.workers[k].phase.Queued? && s1.workers[k].voice == 0
      && 0 in s1.voices && CanTakeJob(s1, k)
  {
  }

  lemma OneMoreBuilds(n: nat, k: nat)
    requires k < n
    ensures 0 in Filled(n, k).voices && k in Filled(n, k).threads
    ensures var s := WithBuilding(WithQueued(Filled(n, k), k, 0, Realtime), k, k);
      && OnTop(s, k) && s.workers[k].voice == 0 && 0 in s.voices
      && var ws := s.workers[k];
      && ws.phase.Building? && ws.builds && !ws.cancelled && ws.mode.Realtime?
  {
    hide Untouched;
  }

  lemma OneMoreFilled(n: nat, k: nat)
    requires k < n
    ensures 0 in Filled(n, k).voices && k in Filled(n, k).threads
    ensures WithPulling(WithBuilding(WithQueued(Filled(n, k), k, 0, Realtime), k, k), k) == Filled(n, k + 1)
  {
    hide FilledWorkers, FilledThreads, Untouched;
    FilledThreadStep(n, k);
    FilledWorkerStep(k);
    MoreUntouched(Below(k), k);
    WithReceiving(Filled(n, k), k);
    assert map[0 := FilledVoice(k)][0 := Join(FilledVoice(k)).(slot := Some(k))] == map[0 := FilledVoice(k + 1)];
  }

  // The three steps together.
  lemma WithReceiving(s: State, k: nat)
    requires 0 in s.voices && k in s.threads && s.threads[k] == Idle(true)
    ensures WithPulling(WithBuilding(WithQueued(s, k, 0, Realtime), k, k), k)
      == State(s.voices[0 := Join(s.voices[0]).(slot := Some(k))], s.workers[k := Receiving(k, false)],
               s.threads[k := Busy(k, 0)], Register(s.tokens, k))
  {
    var s' := WithPulling(WithBuilding(WithQueued(s, k, 0, Realtime), k, k), k);
    assert [] + [Job(k, 0, true, None, false)] == [Job(k, 0, true, None, false)];
    assert s'.voices == s.voices[0 := Join(s.voices[0]).(slot := Some(k))];
    assert s'.workers == s.workers[k := Receiving(k, false)];
    assert s'.threads == s.threads[k := Busy(k, 0)];
  }

  lemma FilledThreadStep(n: nat, k: nat)
    requires k < n
    ensures k in FilledThreads(n, k) && FilledThreads(n, k)[k] == Idle(true)
    ensures Push(Idle(true), Job(k, 0, true, None, false)).(active := Some(0)) == Busy(k, 0)
    ensures FilledThreads(n, k)[k := Busy(k, 0)] == FilledThreads(n, k + 1)
  {
    assert [] + [Job(k, 0, true, None, false)] == [Job(k, 0, true, None, false)];
  }

  lemma FilledWorkerStep(k: nat)
    ensures FilledWorkers(k)[k := Receiving(k, false)] == FilledWorkers(k + 1)
  {
  }

  // As many realtime calls as the pool has threads, each started before a producer has got a
  // thread: no producer ever gets one, and an unload from an application thread, which cancels
  // first, never returns.
  lemma FilledPoolDeadlocks(n: nat) returns (r: seq<State>)
    requires n >= 1
    ensures r != [] && IsRun(r) && Pool(Last(r)) == Below(n) == RealtimeCalls(Last(r))
    ensures IsStuck(r, n, 0) && n !in Pool(Last(r))
    ensures forall w | w in RealtimeCalls(Last(r)) :: !CanBeServed(r, w)
  {
    hide IsRun, Filled, Cancelled, CanReturn, CanBeServed, Knotted, RunsCallerCode, Enabled, Apply;
    r := FilledRun(n, n);
    CancelledState(n);
    r := Step(r, CancelVoice(0, n - 1));
    FilledState(n);
    r := Unload(r, 0, n);
    FilledEnd(n);
    FilledIsKnotted(Last(r), n);
    NeverReturns(r, n);
    forall w | w in RealtimeCalls(Last(r)) ensures !CanBeServed(r, w) {
      ServedIffNotKnotted(r, w);
    }
  }

  // The last of the calls is cancelled, which is what an unload does first.
  function Cancelled(n: nat): State
    requires n >= 1
  {
    Filled(n, n).(workers := FilledWorkers(n)[n - 1 := Receiving(n - 1, true)])
  }

  lemma CancelledState(n: nat)
    requires n >= 1
    ensures Enabled(Filled(n, n), CancelVoice(0, n - 1))
    ensures Apply(Filled(n, n), CancelVoice(0, n - 1)) == Cancelled(n)
  {
    hide Untouched, FilledThreads;
  }

  lemma FilledState(n: nat)
    requires n >= 1
    ensures var s := Cancelled(n);
      && NoCallIsPending(s) && 0 in s.voices && s.voices[0].unload.Open?
      && RunsCallerCode(s, n) && s.threads[n].active != Some(0)
  {
    hide Untouched, FilledWorkers, FilledThreads;
    FilledWorkersAre(n);
    FilledThreadsAre(n);
  }

  lemma FilledEnd(n: nat)
    requires n >= 1
    ensures 0 in Cancelled(n).voices && n in Cancelled(n).threads && FilledUp(WithUnloading(Cancelled(n), 0, n), n)
  {
    hide Untouched, FilledWorkers, FilledThreads;
    FilledWorkersAre(n);
    FilledThreadsAre(n);
  }

  lemma {:induction false} FilledThreadsAre(n: nat)
    ensures FilledThreads(n, n).Keys == UpTo(n) && FilledThreads(n, n)[n] == Idle(false)
    ensures forall t | t in Below(n) :: FilledThreads(n, n)[t] == Busy(t, 0)
  {
  }

  lemma {:induction false} FilledWorkersAre(n: nat)
    ensures FilledWorkers(n).Keys == Below(n)
    ensures forall w | w in Below(n) :: FilledWorkers(n)[w] == Receiving(w, false)
  {
  }

  // Every pool thread is in a first receive, and an application thread unloads.
  ghost predicate FilledUp(s: State, n: nat) {
    && 0 in s.voices && s.workers.Keys == Below(n) && s.threads.Keys == UpTo(n)
    && (forall t | t in Below(n) :: s.workers[t] == Receiving(t, s.workers[t].cancelled) && s.threads[t] == Busy(t, 0))
    && s.threads[n] == Push(Idle(false), Unloading(0))
  }

  function FilledMarks(n: nat): Marks {
    map t | t in UpTo(n) :: 0
  }

  lemma {:induction false} FilledIsKnotted(s: State, n: nat)
    requires FilledUp(s, n) && n >= 1
    ensures Pool(s) == Below(n) == RealtimeCalls(s) && n !in Pool(s)
    ensures IsWaiting(s, n) && Top(s.threads[n]) == Unloading(0) && Knotted(s, n)
    ensures forall t | t in Below(n) :: IsReceiving(s, t) && Top(s.threads[t]).worker == t && Knotted(s, t)
  {
    hide Pool, RealtimeCalls, Knotted, Tied, Rests, NeedsProducer;
    FilledSets(s, n);
    FilledKnot(s, n);
    forall t | t in Below(n) ensures IsReceiving(s, t) && Top(s.threads[t]).worker == t && Knotted(s, t) {
      FilledReceives(s, n, t);
      MarkedTop(s, FilledMarks(n), t);
    }
    MarkedTop(s, FilledMarks(n), n);
  }

  lemma {:induction false} FilledSets(s: State, n: nat)
    requires FilledUp(s, n)
    ensures Pool(s) == Below(n) == RealtimeCalls(s)
  {
    PoolOfAll(s, n);
    assert RealtimeCalls(s) == Below(n);
  }

  lemma FilledReceives(s: State, n: nat, t: Thread)
    requires FilledUp(s, n) && t < n
    ensures IsReceiving(s, t) && Top(s.threads[t]).worker == t && Settled(s, FilledMarks(n), t)
    ensures NeedsProducer(s, t) && !IsSplit(s, t, 0)
  {
  }

  lemma FilledKnot(s: State, n: nat)
    requires FilledUp(s, n) && n >= 1
    ensures Knot(s, FilledMarks(n))
  {
    hide Settled, Pool, Receiving, IsReceiving, NeedsProducer, IsSplit;
    var marks := FilledMarks(n);
    FilledSets(s, n);
    forall t | t in Below(n) ensures Settled(s, marks, t) {
      FilledReceives(s, n, t);
    }
    assert Free(s, marks) == {};
    assert Inside(marks, 0, 0) && HoldsVoice(s, 0, 0, 0);
    forall t | t in marks ensures Tied(s, marks, t) {
      if t < n {
        FilledReceives(s, n, t);
      }
    }
  }

  lemma MarkedTop(s: State, marks: Marks, t: Thread)
    requires Knot(s, marks) && t in marks && t in s.threads && marks[t] == |s.threads[t].stack| - 1
    ensures Knotted(s, t)
  {
  }

  // ---------- Unloading the voice of an outer job ----------

  // A call at work on what it splits: building a parallel stream, or pulling a batched one.
  function Splitting(mode: Mode): WorkerState {
    NewCall(0, true, mode, true, 0, 0, if mode.Parallel? then Building else Pulling)
  }

  // A parallel or batched call of voice 0 is at work on thread 0, and thread 1 has taken a piece of it.
  function Halved(n: nat, mode: Mode): State
    requires n >= 2 && (mode.Parallel? || mode.Batched?)
  {
    State(map[0 := Join(OPEN), 1 := OPEN], map[0 := Splitting(mode)],
          Threads(n, n)[0 := Busy(0, 0)][1 := ThreadState(true, None, [Piece(0, 0)])], Untouched({0}))
  }

  lemma HalvedRun(n: nat, mode: Mode) returns (r: seq<State>)
    requires n >= 2 && (mode.Parallel? || mode.Batched?)
    ensures r != [] && IsRun(r) && Last(r) == Halved(n, mode)
  {
    hide IsRun, Quiet, WithQueued, WithBuilding, WithPulling, Halved, CanTakeJob, OnTop, Enabled, Apply;
    r := Setup(2, n, n);
    QuietToHalve(n, mode);
    BegunToHalve(n, mode);
    BuiltToHalve(n, mode);
    r := Queue(r, 0, 0, mode);
    r := Begin(r, 0, 0);
    if mode.Batched? {
      r := Build(r, 0);
    }
    StealHalf(n, mode);
    r := Step(r, Steal(1, 0));
  }

  function ToHalve(n: nat, mode: Mode): State
    requires n >= 2 && (mode.Parallel? || mode.Batched?)
  {
    State(map[0 := Join(OPEN), 1 := OPEN], map[0 := Splitting(mode)], Threads(n, n)[0 := Busy(0, 0)], Untouched({0}))
  }

  lemma QuietToHalve(n: nat, mode: Mode)
    requires n >= 2 && (mode.Parallel? || mode.Batched?)
    ensures var s := Quiet(2, n, n); 0 !in s.workers && 0 in s.voices && !s.voices[0].closing
    ensures var s := WithQueued(Quiet(2, n, n), 0, 0, mode);
      0 in s.workers && s.workers[0].phase.Queued? && s.workers[0].voice in s.voices && CanTakeJob(s, 0)
  {
    hide Threads;
    TwoIdle(n);
  }

  lemma BegunToHalve(n: nat, mode: Mode)
    requires n >= 2 && (mode.Parallel? || mode.Batched?)
    ensures var s := WithQueued(Quiet(2, n, n), 0, 0, mode);
      && 0 in s.workers && s.workers[0].voice in s.voices && 0 in s.threads
      && var s' := WithBuilding(s, 0, 0);
      && 0 in s'.workers && s'.workers[0] == NewCall(0, true, mode, true, 0, 0, Building)
      && OnTop(s', 0) && 0 in s'.voices
  {
    hide Threads;
    TwoIdle(n);
  }

  lemma BuiltToHalve(n: nat, mode: Mode)
    requires n >= 2 && (mode.Parallel? || mode.Batched?)
    ensures var s := WithQueued(Quiet(2, n, n), 0, 0, mode);
      && 0 in s.workers && s.workers[0].voice in s.voices && 0 in s.threads
      && var s' := WithBuilding(s, 0, 0);
      && 0 in s'.workers && (if mode.Parallel? then s' else WithPulling(s', 0)) == ToHalve(n, mode)
  {
    hide Threads;
    TwoIdle(n);
    var s := WithBuilding(WithQueued(Quiet(2, n, n), 0, 0, mode), 0, 0);
    assert [] + [Job(0, 0, true, None, false)] == [Job(0, 0, true, None, false)];
    assert s.voices == ToHalve(n, mode).voices && s.tokens.unpins == ToHalve(n, mode).tokens.unpins;
  }

  lemma StealHalf(n: nat, mode: Mode)
    requires n >= 2 && (mode.Parallel? || mode.Batched?)
    ensures Enabled(ToHalve(n, mode), Steal(1, 0)) && Apply(ToHalve(n, mode), Steal(1, 0)) == Halved(n, mode)
  {
    hide Threads;
    TwoIdle(n);
    assert [] + [Piece(0, 0)] == [Piece(0, 0)];
    assert Apply(ToHalve(n, mode), Steal(1, 0)).threads == Halved(n, mode).threads;
  }

  lemma TwoIdle(n: nat)
    requires n >= 2
    ensures 0 in Threads(n, n) && Threads(n, n)[0] == Idle(true) && 1 in Threads(n, n) && Threads(n, n)[1] == Idle(true)
  {
  }

  // A call of voice 1 is queued, builds on thread 0 while that waits for its piece, and speaks.
  function HalvedAndQueued(n: nat, mode: Mode): State
    requires n >= 2 && (mode.Parallel? || mode.Batched?)
  {
    WithQueued(Halved(n, mode), 1, 1, Lazy)
  }

  function NestedBuilds(n: nat, mode: Mode): State
    requires n >= 2 && (mode.Parallel? || mode.Batched?)
  {
    WithBuilding(HalvedAndQueued(n, mode), 1, 0)
  }

  function NestedSpeaks(n: nat, mode: Mode): State
    requires n >= 2 && (mode.Parallel? || mode.Batched?)
  {
    WithSpeech(WithPulling(NestedBuilds(n, mode), 1), 1)
  }

  lemma NestedRun(n: nat, mode: Mode) returns (r: seq<State>)
    requires n >= 2 && (mode.Parallel? || mode.Batched?)
    ensures r != [] && IsRun(r) && Last(r) == NestedSpeaks(n, mode)
  {
    hide IsRun, Halved, CanTakeJob, OnTop;
    r := HalvedRun(n, mode);
    HalvedTakesWork(n, mode);
    r := Queue(r, 1, 1, Lazy);
    r := Begin(r, 1, 0);
    NestedIsOnTop(n, mode);
    r := Build(r, 1);
    r := Speak(r, 1);
  }

  lemma HalvedTakesWork(n: nat, mode: Mode)
    requires n >= 2 && (mode.Parallel? || mode.Batched?)
    ensures 1 !in Halved(n, mode).workers && 1 in Halved(n, mode).voices && !Halved(n, mode).voices[1].closing
    ensures CanTakeJob(HalvedAndQueued(n, mode), 0)
  {
    TwoIdle(n);
    assert Piece(0, 0) in HalvedAndQueued(n, mode).threads[1].stack;
    assert HasPieces(HalvedAndQueued(n, mode), 0, 0);
  }

  lemma NestedIsOnTop(n: nat, mode: Mode)
    requires n >= 2 && (mode.Parallel? || mode.Batched?)
    ensures var s := NestedBuilds(n, mode); OnTop(s, 1) && 1 in s.voices && !s.voices[1].closing
    ensures OnTop(WithPulling(NestedBuilds(n, mode), 1), 1)
  {
    hide Threads;
    TwoIdle(n);
  }

  // A thread that waits for a piece of a parallel or batched call takes another call on top, whose
  // callback unloads the voice of the call below.
  lemma NestedUnloadDeadlocks(n: nat, mode: Mode) returns (r: seq<State>)
    requires n >= 2 && (mode.Parallel? || mode.Batched?)
    ensures r != [] && IsRun(r) && IsStuck(r, 0, 0)
  {
    hide IsRun, NestedSpeaks, CanReturn, Knotted, RunsCallerCode, HoldsVoice, Innermost;
    r := NestedRun(n, mode);
    var before := r;
    NestedMayUnload(n, mode);
    r := Unload(r, 0, 0);
    OuterJobUnloadDeadlocks(before, |before| - 1, 0, 0, 0);
    NeverReturns(r, 0);
  }

  lemma NestedMayUnload(n: nat, mode: Mode)
    requires n >= 2 && (mode.Parallel? || mode.Batched?)
    ensures var s := NestedSpeaks(n, mode);
      && NoCallIsPending(s) && 0 in s.voices && s.voices[0].unload.Open?
      && RunsCallerCode(s, 0) && s.threads[0].active == Some(1) == Innermost(s.threads[0].stack)
      && HoldsVoice(s, 0, 0, 0)
  {
    hide NestedSpeaks, NoCallIsPending, RunsCallerCode, Innermost, HoldsVoice;
    NestedCalls(n, mode);
    NestedThread(n, mode);
  }

  lemma NestedCalls(n: nat, mode: Mode)
    requires n >= 2 && (mode.Parallel? || mode.Batched?)
    ensures var s := NestedSpeaks(n, mode); NoCallIsPending(s) && 0 in s.voices && s.voices[0].unload.Open?
  {
    hide Threads;
    TwoIdle(n);
  }

  lemma NestedThread(n: nat, mode: Mode)
    requires n >= 2 && (mode.Parallel? || mode.Batched?)
    ensures var s := NestedSpeaks(n, mode);
      && 0 in s.voices && 0 in s.threads
      && RunsCallerCode(s, 0) && s.threads[0].active == Some(1) == Innermost(s.threads[0].stack)
      && HoldsVoice(s, 0, 0, 0)
  {
    hide Threads;
    TwoIdle(n);
    assert NestedSpeaks(n, mode).threads[0].stack == [Job(0, 0, true, None, false)] + [Job(1, 1, true, Some(0), false)];
  }

  // ---------- Unloading from the voice's own callback ----------

  // One call of one voice, on thread 0 of a pool of n.
  function Alone(n: nat, vs: VoiceState, ws: WorkerState, ts: ThreadState, tokens: Tokens): State {
    State(map[0 := vs], map[0 := ws], Threads(n, n)[0 := ts], tokens)
  }

  const LIVE: Tokens := Tokens({0}, map[0 := 0])
  const RELEASED: Tokens := Tokens({}, map[0 := 1])

  // That voice, unloaded from its own callback.
  function OwnUnloaded(running: nat): VoiceState {
    VoiceState(true, running, ReturnedFromOwnCallback, None)
  }

  function LazyCall(p: Phase, events: seq<Event>, late: seq<Event>, outcome: Outcome): WorkerState {
    WorkerState(0, true, Lazy, true, 0, 0, p, NotSpawned, false, events, late, outcome)
  }

  lemma AloneOnTop(n: nat, vs: VoiceState, ws: WorkerState, tokens: Tokens)
    requires ws.voice == 0 && ws.thread == 0 && OnStack(ws.phase)
    ensures OnTop(Alone(n, vs, ws, Busy(0, 0), tokens), 0)
  {
  }

  // A move after which the call still calls back, and one after which it does not.
  lemma AloneMoves(r: seq<State>, n: nat, vs: VoiceState, ws: WorkerState, m: Move, ws': WorkerState)
    returns (r': seq<State>)
    requires r != [] && IsRun(r) && Last(r) == Alone(n, vs, ws, Busy(0, 0), LIVE)
    requires ws.voice == 0 && ws.thread == 0 && OnStack(ws.phase) && !Splits(ws)
    requires NextPhase(ws, m, vs.closing).Some? && Advance(ws, m, vs.closing) == ws' && OnStack(ws'.phase)
    ensures r' != [] && IsRun(r')
    ensures Last(r') == Alone(n, vs, ws', Busy(0, 0), if ReleasesToken(ws, m) then RELEASED else LIVE)
  {
    hide IsRun, OnTop, NextPhase, Advance, HasPieces, ReleasesToken;
    AloneOnTop(n, vs, ws, LIVE);
    SplitsNothing(Last(r), 0);
    assert Release(LIVE, 0) == RELEASED;
    r' := Step(r, Run(0, m));
  }

  // A call that has made its last callback unwinds to its end.
  lemma AloneEnds(r: seq<State>, n: nat, ws: WorkerState) returns (r': seq<State>)
    requires r != [] && IsRun(r) && Last(r) == Alone(n, OwnUnloaded(1), ws, Busy(0, 0), RELEASED)
    requires ws.voice == 0 && ws.thread == 0 && ws.phase.Unwinding? && n >= 1
    ensures r' != [] && IsRun(r')
    ensures Last(r') == Alone(n, OwnUnloaded(0), ws.(phase := Ended), Idle(true), RELEASED)
  {
    hide IsRun, Enabled, Apply, Alone;
    AloneRestores(n, ws);
    r' := Step(r, RestoreActive(0));
    AloneDrops(n, ws.(phase := Releasing));
    r' := Step(r', DropGuard(0));
  }

  const RESTORED: ThreadState := ThreadState(true, None, [Job(0, 0, true, None, true)])

  lemma AloneRestores(n: nat, ws: WorkerState)
    requires ws.voice == 0 && ws.thread == 0 && ws.phase.Unwinding?
    ensures var s := Alone(n, OwnUnloaded(1), ws, Busy(0, 0), RELEASED);
      && Enabled(s, RestoreActive(0))
      && Apply(s, RestoreActive(0)) == Alone(n, OwnUnloaded(1), ws.(phase := Releasing), RESTORED, RELEASED)
  {
    hide Threads;
    assert Busy(0, 0).stack[..0] + [Job(0, 0, true, None, true)] == [Job(0, 0, true, None, true)];
  }

  lemma AloneDrops(n: nat, ws: WorkerState)
    requires ws.voice == 0 && ws.thread == 0 && ws.phase.Releasing?
    ensures var s := Alone(n, OwnUnloaded(1), ws, RESTORED, RELEASED);
      && Enabled(s, DropGuard(0))
      && Apply(s, DropGuard(0)) == Alone(n, OwnUnloaded(0), ws.(phase := Ended), Idle(true), RELEASED)
  {
    hide Threads;
  }

  // The callback of a call of one voice unloads that voice.
  lemma AloneUnloads(r: seq<State>, n: nat, ws: WorkerState) returns (r': seq<State>)
    requires r != [] && IsRun(r) && Last(r) == Alone(n, Join(OPEN), ws, Busy(0, 0), LIVE)
    requires ws.voice == 0 && ws.thread == 0 && ws.nonblocking && ws.phase.InCallback?
    ensures r' != [] && IsRun(r') && Last(r') == Alone(n, OwnUnloaded(1), ws, Busy(0, 0), LIVE)
  {
    hide IsRun, OnTop, Threads;
    AloneOnTop(n, Join(OPEN), ws, LIVE);
    r' := Step(r, BeginUnload(0, 0));
  }

  lemma OwnUnload(n: nat) returns (r: seq<State>)
    requires n >= 1
    ensures r != [] && IsRun(r)
    ensures Last(r) == Alone(n, OwnUnloaded(1), LazyCall(InCallback(Speech), [Speech], [], Pending), Busy(0, 0), LIVE)
  {
    hide IsRun, Alone, Quiet, WithCallback;
    r := Setup(1, n, n);
    OneCallback(n);
    r := Callback(r, 0, 0, 0);
    r := AloneUnloads(r, n, LazyCall(InCallback(Speech), [Speech], [], Pending));
  }

  lemma OneCallback(n: nat)
    requires n >= 1
    ensures var s := Quiet(1, n, n);
      && 0 !in s.workers && 0 in s.voices && !s.voices[0].closing && 0 in s.threads && s.threads[0] == Idle(true)
    ensures WithCallback(Quiet(1, n, n), 0, 0, 0)
      == Alone(n, Join(OPEN), LazyCall(InCallback(Speech), [Speech], [], Pending), Busy(0, 0), LIVE)
  {
    assert Quiet(1, n, n).voices[0 := Join(OPEN)] == map[0 := Join(OPEN)];
  }

  // A SPEECH callback that unloads its own voice and asks to stop: the call ends without a
  // terminal event.
  lemma StopAfterOwnUnload(n: nat) returns (r: seq<State>)
    requires n >= 1
    ensures r != [] && IsRun(r)
    ensures Last(r) == Alone(n, OwnUnloaded(0), LazyCall(Ended, [Speech], [], Stopped), Idle(true), RELEASED)
  {
    hide IsRun, Alone;
    r := OwnUnload(n);
    r := AloneMoves(r, n, OwnUnloaded(1), LazyCall(InCallback(Speech), [Speech], [], Pending), Returns(false),
                    LazyCall(Unwinding, [Speech], [], Stopped));
    r := AloneEnds(r, n, LazyCall(Unwinding, [Speech], [], Stopped));
  }

  // The same callback asking for more: the chunk in hand is dropped and FINISHED ends the call.
  lemma FinishAfterOwnUnload(n: nat) returns (r: seq<State>)
    requires n >= 1
    ensures r != [] && IsRun(r)
    ensures Last(r)
      == Alone(n, OwnUnloaded(0), LazyCall(Ended, [Speech, Finished], [Finished], Terminal), Idle(true), RELEASED)
  {
    hide IsRun, Alone;
    r := OwnUnload(n);
    r := ChunkDropped(r, n);
    assert [Speech] + [Finished] == [Speech, Finished] && [] + [Finished] == [Finished];
    r := AloneMoves(r, n, OwnUnloaded(1), LazyCall(Delivering(Finished), [Speech], [], Pending), Invokes,
                    LazyCall(InCallback(Finished), [Speech, Finished], [Finished], Pending));
    r := LastCallback(r, n, [Speech, Finished], [Finished]);
  }

  lemma ChunkDropped(r: seq<State>, n: nat) returns (r': seq<State>)
    requires r != [] && IsRun(r) && n >= 1
    requires Last(r) == Alone(n, OwnUnloaded(1), LazyCall(InCallback(Speech), [Speech], [], Pending), Busy(0, 0), LIVE)
    ensures r' != [] && IsRun(r')
    ensures Last(r')
      == Alone(n, OwnUnloaded(1), LazyCall(Delivering(Finished), [Speech], [], Pending), Busy(0, 0), LIVE)
  {
    hide IsRun, Alone;
    r' := AloneMoves(r, n, OwnUnloaded(1), LazyCall(InCallback(Speech), [Speech], [], Pending), Returns(true),
                     LazyCall(Pulling, [Speech], [], Pending));
    r' := AloneMoves(r', n, OwnUnloaded(1), LazyCall(Pulling, [Speech], [], Pending), PullsChunk,
                     LazyCall(Pulled(true), [Speech], [], Pending));
    r' := AloneMoves(r', n, OwnUnloaded(1), LazyCall(Pulled(true), [Speech], [], Pending), ReadsClosing,
                     LazyCall(Delivering(Finished), [Speech], [], Pending));
  }

  // A FINISHED callback that asks for more is the last.
  lemma LastCallback(r: seq<State>, n: nat, events: seq<Event>, late: seq<Event>) returns (r': seq<State>)
    requires r != [] && IsRun(r) && n >= 1
    requires Last(r)
      == Alone(n, OwnUnloaded(1), LazyCall(InCallback(Finished), events, late, Pending), Busy(0, 0), LIVE)
    ensures r' != [] && IsRun(r')
    ensures Last(r') == Alone(n, OwnUnloaded(0), LazyCall(Ended, events, late, Terminal), Idle(true), RELEASED)
  {
    hide IsRun, Alone;
    r' := AloneMoves(r, n, OwnUnloaded(1), LazyCall(InCallback(Finished), events, late, Pending), Returns(true),
                     LazyCall(Unwinding, events, late, Terminal));
    r' := AloneEnds(r', n, LazyCall(Unwinding, events, late, Terminal));
  }

  // A FINISHED callback that unloads its own voice and asks for more gets no further event.
  lemma UnloadFromFinished(n: nat) returns (r: seq<State>)
    requires n >= 1
    ensures r != [] && IsRun(r)
    ensures Last(r) == Alone(n, OwnUnloaded(0), LazyCall(Ended, [Finished], [], Terminal), Idle(true), RELEASED)
  {
    hide IsRun, Alone;
    r := AlonePulls(n);
    r := AloneMoves(r, n, Join(OPEN), LazyCall(Pulling, [], [], Pending), StreamEnds,
                    LazyCall(Delivering(Finished), [], [], Pending));
    assert [] + [Finished] == [Finished];
    r := AloneMoves(r, n, Join(OPEN), LazyCall(Delivering(Finished), [], [], Pending), Invokes,
                    LazyCall(InCallback(Finished), [Finished], [], Pending));
    r := AloneUnloads(r, n, LazyCall(InCallback(Finished), [Finished], [], Pending));
    r := LastCallback(r, n, [Finished], []);
  }

  lemma AlonePulls(n: nat) returns (r: seq<State>)
    requires n >= 1
    ensures r != [] && IsRun(r)
    ensures Last(r) == Alone(n, Join(OPEN), LazyCall(Pulling, [], [], Pending), Busy(0, 0), LIVE)
  {
    hide IsRun, OnTop;
    r := Setup(1, n, n);
    r := Queue(r, 0, 0, Lazy);
    r := Begin(r, 0, 0);
    AloneBuilds(n);
    r := Build(r, 0);
  }

  lemma AloneBuilds(n: nat)
    requires n >= 1
    ensures 0 in Quiet(1, n, n).voices && 0 in Quiet(1, n, n).threads
    ensures var s := WithBuilding(WithQueued(Quiet(1, n, n), 0, 0, Lazy), 0, 0);
      OnTop(s, 0) && WithPulling(s, 0) == Alone(n, Join(OPEN), LazyCall(Pulling, [], [], Pending), Busy(0, 0), LIVE)
  {
    assert [] + [Job(0, 0, true, None, false)] == [Job(0, 0, true, None, false)];
    assert Quiet(1, n, n).voices[0 := Join(OPEN)] == map[0 := Join(OPEN)];
  }
}
