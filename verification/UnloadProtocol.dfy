/**
 The C library's synthesis calls and voice unloading, as a transition system.

 A speak call either runs on the calling thread or hands a job to a thread pool. A pool job holds
 a guard that keeps its voice's `running` counter up, and publishes its voice in a thread-local
 cell while it runs. Parallel and batched synthesis splits into pieces that other pool threads may
 take, and a pool thread that waits for a piece may start other work on top of its own, so a
 thread carries a stack of frames. A realtime call is fed by a producer, a second job on the same
 pool: until that job has got a thread, the call blocks in its first receive. Unloading sets
 `closing`, returns at once when the thread-local cell names the same voice, and otherwise waits
 for `running` to reach zero.
 */
module UnloadProtocol {
  import opened Wrappers
  import opened CallbackTokens

  type Voice = nat
  type Thread = nat

  datatype Event = Speech | Finished | Failed

  datatype Mode = Lazy | Parallel | Batched | Realtime

  datatype Phase =
    | Entered                    // guard taken inside the speak call, job not handed over yet
    | Queued                     // job owned by the pool
    | Building                   // choosing the mode, constructing the stream
    | Pulling                    // inside the stream's next()
    | Pulled(chunk: bool)        // an item is in hand, an audio chunk or an error
    | Delivering(event: Event)   // decided to call back
    | InCallback(event: Event)   // the caller's code runs
    | Unwinding                  // no callback left, thread-local cell still set
    | Releasing                  // thread-local cell restored, guard still held
    | FailedCall                 // the speak call is about to return an error
    | Ended

  // The producer of a realtime call: not spawned yet, owned by the pool, or run. It never waits
  // and never calls back, so its run is one step.
  datatype Producer = NotSpawned | Unserved | Served

  // How a call came to its end.
  datatype Outcome = Pending | Terminal | Stopped | Errored

  datatype WorkerState = WorkerState(
    voice: Voice,
    nonblocking: bool,
    mode: Mode,
    builds: bool,                // whether a stream can be built for its text at all
    thread: Thread,              // meaningful once the job is on a thread
    depth: nat,                  // index of its frame on that thread's stack
    phase: Phase,
    producer: Producer,
    cancelled: bool,             // the flag of a realtime call
    events: seq<Event>,          // every event delivered so far
    late: seq<Event>,            // those delivered while `closing` was set
    outcome: Outcome)

  datatype Unload = Open | Checking(waiter: Thread) | Asleep(waiter: Thread) | Returned | ReturnedFromOwnCallback

  // `slot` holds the realtime call a cancel reaches: the last to start, since the flag of a call
  // that is over has no reader.
  datatype VoiceState = VoiceState(closing: bool, running: nat, unload: Unload, slot: Option<Worker>)

  datatype Frame =
    | Job(worker: Worker, voice: Voice, nonblocking: bool, saved: Option<Voice>, restored: bool)
    | Piece(home: Thread, level: nat)    // part of the synthesis that frame `level` of `home` split
    | Unloading(voice: Voice)

  datatype ThreadState = ThreadState(pool: bool, active: Option<Voice>, stack: seq<Frame>)

  datatype State = State(
    voices: map<Voice, VoiceState>,
    workers: map<Worker, WorkerState>,
    threads: map<Thread, ThreadState>,
    tokens: Tokens)

  datatype Move =
    | BuildSucceeds | BuildFails
    | PullsChunk | PullsError | StreamEnds | PullPanics
    | ReadsClosing
    | Invokes
    | Returns(wantsMore: bool)

  datatype Action =
    | LoadVoice(voice: Voice)
    | NewThread(thread: Thread, pool: bool)
    | Enter(worker: Worker, voice: Voice, mode: Mode, builds: bool)
    | PoolUnavailable(worker: Worker)
    | Spawn(worker: Worker)
    | Start(worker: Worker, thread: Thread)
    | EnterBlocking(worker: Worker, voice: Voice, mode: Mode, builds: bool, thread: Thread)
    | Run(worker: Worker, move: Move)
    | Serve(worker: Worker, thread: Thread)
    | Steal(thread: Thread, home: Thread)
    | FinishPiece(thread: Thread)
    | RestoreActive(worker: Worker)
    | DropGuard(worker: Worker)
    | ReturnError(worker: Worker)
    | CancelVoice(voice: Voice, worker: Worker)
    | BeginUnload(voice: Voice, thread: Thread)
    | SleepUnload(voice: Voice)
    | FinishUnload(voice: Voice)

  // ---------- Reading a state ----------

  predicate OnStack(p: Phase) {
    p.Building? || p.Pulling? || p.Pulled? || p.Delivering? || p.InCallback? || p.Unwinding? || p.Releasing?
  }

  predicate HoldsGuard(ws: WorkerState) {
    ws.nonblocking && !ws.phase.FailedCall? && !ws.phase.Ended?
  }

  // The phases from which a call can still reach the caller's callback.
  predicate CanCallBack(ws: WorkerState) {
    !ws.phase.Unwinding? && !ws.phase.Releasing? && !ws.phase.FailedCall? && !ws.phase.Ended?
  }

  // The speak call itself has not returned to its caller.
  predicate CallInProgress(ws: WorkerState) {
    ws.phase.Entered? || ws.phase.FailedCall? || (!ws.nonblocking && !ws.phase.Ended?)
  }

  // A parallel stream synthesises in pieces while it is built, a batched one while it is pulled.
  predicate Splits(ws: WorkerState) {
    (ws.mode.Parallel? && ws.phase.Building?) || (ws.mode.Batched? && ws.phase.Pulling?)
  }

  function Top(ts: ThreadState): Frame
    requires ts.stack != []
  {
    ts.stack[|ts.stack| - 1]
  }

  predicate OnTop(s: State, w: Worker) {
    && w in s.workers
    && OnStack(s.workers[w].phase)
    && s.workers[w].thread in s.threads
    && var ts := s.threads[s.workers[w].thread];
    && ts.stack != [] && Top(ts).Job? && Top(ts).worker == w
  }

  // The work on top of a thread has pieces to give away.
  predicate CanSplit(s: State, t: Thread) {
    && t in s.threads && s.threads[t].stack != []
    && match Top(s.threads[t])
       case Job(w, _, _, _, _) => OnTop(s, w) && Splits(s.workers[w])
       case Piece(_, _) => true
       case Unloading(_) => false
  }

  // A piece of frame i of thread t is on some thread.
  predicate HasPieces(s: State, t: Thread, i: nat) {
    exists t2 | t2 in s.threads :: Piece(t, i) in s.threads[t2].stack
  }

  // The work on top of a thread waits for a piece that another thread has taken.
  predicate IsJoining(s: State, t: Thread) {
    CanSplit(s, t) && HasPieces(s, t, |s.threads[t].stack| - 1)
  }

  // A pool thread takes work when idle or while it waits for a piece. A pull that blocks in its
  // receive and an unload that waits take none.
  predicate CanTakeJob(s: State, t: Thread) {
    t in s.threads && s.threads[t].pool && (s.threads[t].stack == [] || IsJoining(s, t))
  }

  // The caller's own code runs on an application thread or inside a callback.
  predicate RunsCallerCode(s: State, t: Thread) {
    && t in s.threads
    && (if s.threads[t].stack == [] then !s.threads[t].pool
        else Top(s.threads[t]).Job? && OnTop(s, Top(s.threads[t]).worker)
             && s.workers[Top(s.threads[t]).worker].phase.InCallback?)
  }

  // ---------- Moves of a running call ----------

  // A realtime stream reads its flag before each receive; that read goes with the step before it.
  function NextPull(ws: WorkerState): Phase {
    if ws.mode.Realtime? && ws.cancelled then Delivering(Finished) else Pulling
  }

  // Where one move leads; None when the move is not possible there. A receive comes back only
  // once the producer has run.
  function NextPhase(ws: WorkerState, m: Move, closing: bool): Option<Phase> {
    match (ws.phase, m)
    case (Building, BuildSucceeds) => if ws.builds then Some(NextPull(ws)) else None
    case (Building, BuildFails) =>
      if ws.builds then None else Some(if ws.nonblocking then Delivering(Failed) else FailedCall)
    case (Pulling, PullsChunk) => if ws.producer.Unserved? then None else Some(Pulled(true))
    case (Pulling, PullsError) => if ws.producer.Unserved? then None else Some(Pulled(false))
    case (Pulling, StreamEnds) => if ws.producer.Unserved? then None else Some(Delivering(Finished))
    case (Pulling, PullPanics) =>
      if ws.producer.Unserved? then None else Some(if ws.nonblocking then Delivering(Failed) else FailedCall)
    case (Pulled(chunk), ReadsClosing) =>
      Some(Delivering(if closing then Finished else if chunk then Speech else Failed))
    case (Delivering(e), Invokes) => Some(InCallback(e))
    case (InCallback(e), Returns(wantsMore)) =>
      Some(if e.Speech? && wantsMore then NextPull(ws) else if ws.nonblocking then Unwinding else Ended)
    case _ => None
  }

  function Advance(ws: WorkerState, m: Move, closing: bool): WorkerState
    requires NextPhase(ws, m, closing).Some?
  {
    var next := NextPhase(ws, m, closing).value;
    var producer := if m.BuildSucceeds? && ws.mode.Realtime? then Unserved else ws.producer;
    match next
    case InCallback(e) =>
      ws.(phase := next, events := ws.events + [e], late := if closing then ws.late + [e] else ws.late)
    case FailedCall => ws.(phase := next, outcome := Errored)
    case Unwinding => ws.(phase := next, outcome := if ws.phase.event.Speech? then Stopped else Terminal)
    case Ended => ws.(phase := next, outcome := if ws.phase.event.Speech? then Stopped else Terminal)
    case _ => ws.(phase := next, producer := producer)
  }

  // The Go callback gives its token back on a terminal event or when the user callback stops.
  predicate ReleasesToken(ws: WorkerState, m: Move) {
    ws.phase.InCallback? && m.Returns? && !(ws.phase.event.Speech? && m.wantsMore)
  }

  // ---------- Transitions ----------

  predicate GuardedVoice(s: State, w: Worker)
    requires w in s.workers
  {
    s.workers[w].voice in s.voices && s.voices[s.workers[w].voice].running > 0
  }

  ghost predicate Enabled(s: State, a: Action) {
    match a
    case LoadVoice(v) => v !in s.voices
    // The pool has all its threads before the first call; an idle thread does nothing.
    case NewThread(t, pool) => t !in s.threads && (pool ==> s.workers == map[])
    case Enter(w, v, _, _) => w !in s.workers && v in s.voices && !s.voices[v].closing
    case PoolUnavailable(w) => w in s.workers && s.workers[w].phase.Entered? && GuardedVoice(s, w)
    case Spawn(w) => w in s.workers && s.workers[w].phase.Entered?
    case Start(w, t) =>
      && w in s.workers && s.workers[w].phase.Queued? && s.workers[w].voice in s.voices
      && CanTakeJob(s, t)
    case EnterBlocking(w, v, _, _, t) =>
      && w !in s.workers && v in s.voices && !s.voices[v].closing
      && RunsCallerCode(s, t)
    case Run(w, m) =>
      && OnTop(s, w) && s.workers[w].voice in s.voices
      && NextPhase(s.workers[w], m, s.voices[s.workers[w].voice].closing).Some?
      && !IsJoining(s, s.workers[w].thread)
    case Serve(w, t) => w in s.workers && s.workers[w].producer.Unserved? && CanTakeJob(s, t)
    case Steal(t, home) => CanTakeJob(s, t) && CanSplit(s, home) && home != t
    case FinishPiece(t) =>
      t in s.threads && s.threads[t].stack != [] && Top(s.threads[t]).Piece? && !IsJoining(s, t)
    case RestoreActive(w) => OnTop(s, w) && s.workers[w].phase.Unwinding?
    case DropGuard(w) => OnTop(s, w) && s.workers[w].phase.Releasing? && GuardedVoice(s, w)
    case ReturnError(w) => w in s.workers && s.workers[w].phase.FailedCall?
    // Also the first thing an unload does; by contract no cancel comes during or after an unload.
    case CancelVoice(v, w) =>
      && v in s.voices && s.voices[v].unload.Open?
      && s.voices[v].slot == Some(w) && w in s.workers && s.workers[w].voice == v
    case BeginUnload(v, t) =>
      // The documented contract: no other call uses the voice at the same time or afterwards.
      && v in s.voices && s.voices[v].unload.Open?
      && (forall w | w in s.workers && s.workers[w].voice == v :: !CallInProgress(s.workers[w]))
      && RunsCallerCode(s, t)
    case SleepUnload(v) =>
      v in s.voices && s.voices[v].unload.Checking? && s.voices[v].running > 0
    case FinishUnload(v) =>
      && v in s.voices && s.voices[v].unload.Checking? && s.voices[v].running == 0
      && s.voices[v].unload.waiter in s.threads
      && s.threads[s.voices[v].unload.waiter].stack != []
  }

  // The call an action is a step of.
  function Acting(a: Action): Option<Worker> {
    match a
    case Enter(w, _, _, _) => Some(w)
    case PoolUnavailable(w) => Some(w)
    case Spawn(w) => Some(w)
    case Start(w, _) => Some(w)
    case EnterBlocking(w, _, _, _, _) => Some(w)
    case Run(w, _) => Some(w)
    case Serve(w, _) => Some(w)
    case RestoreActive(w) => Some(w)
    case DropGuard(w) => Some(w)
    case ReturnError(w) => Some(w)
    case CancelVoice(_, w) => Some(w)
    case _ => None
  }

  function NewCall(v: Voice, nonblocking: bool, mode: Mode, builds: bool,
                   t: Thread, depth: nat, p: Phase): WorkerState {
    WorkerState(v, nonblocking, mode, builds, t, depth, p, NotSpawned, false, [], [], Pending)
  }

  ghost function CallAfter(s: State, a: Action): WorkerState
    requires Enabled(s, a) && Acting(a).Some?
  {
    match a
    case Enter(_, v, mode, builds) => NewCall(v, true, mode, builds, 0, 0, Entered)
    case PoolUnavailable(w) => s.workers[w].(phase := FailedCall, outcome := Errored)
    case Spawn(w) => s.workers[w].(phase := Queued)
    case Start(w, t) => s.workers[w].(phase := Building, thread := t, depth := |s.threads[t].stack|)
    case EnterBlocking(_, v, mode, builds, t) => NewCall(v, false, mode, builds, t, |s.threads[t].stack|, Building)
    case Run(w, m) => Advance(s.workers[w], m, s.voices[s.workers[w].voice].closing)
    case Serve(w, _) => s.workers[w].(producer := Served)
    case RestoreActive(w) => s.workers[w].(phase := Releasing)
    case DropGuard(w) => s.workers[w].(phase := Ended)
    case ReturnError(w) => s.workers[w].(phase := Ended)
    case CancelVoice(_, w) => s.workers[w].(cancelled := true)
  }

  ghost function WorkersAfter(s: State, a: Action): map<Worker, WorkerState>
    requires Enabled(s, a)
  {
    match Acting(a)
    case None => s.workers
    case Some(w) => s.workers[w := CallAfter(s, a)]
  }

  // Taking a guard, and dropping one: at zero the sleeping unload is notified.
  function Join(vs: VoiceState): VoiceState {
    vs.(running := vs.running + 1)
  }

  function Leave(vs: VoiceState): VoiceState
    requires vs.running > 0
  {
    vs.(running := vs.running - 1,
        unload := if vs.running == 1 && vs.unload.Asleep? then Checking(vs.unload.waiter) else vs.unload)
  }

  // A realtime call puts itself into its voice's slot as it starts.
  function Occupy(vs: VoiceState, w: Worker, mode: Mode): VoiceState {
    if mode.Realtime? then vs.(slot := Some(w)) else vs
  }

  ghost function VoicesAfter(s: State, a: Action): map<Voice, VoiceState>
    requires Enabled(s, a)
  {
    match a
    case LoadVoice(v) => s.voices[v := VoiceState(false, 0, Open, None)]
    case Enter(_, v, _, _) => s.voices[v := Join(s.voices[v])]
    case PoolUnavailable(w) => var v := s.workers[w].voice; s.voices[v := Leave(s.voices[v])]
    case Start(w, _) => var v := s.workers[w].voice; s.voices[v := Occupy(s.voices[v], w, s.workers[w].mode)]
    case EnterBlocking(w, v, mode, _, _) => s.voices[v := Occupy(s.voices[v], w, mode)]
    case DropGuard(w) => var v := s.workers[w].voice; s.voices[v := Leave(s.voices[v])]
    case BeginUnload(v, t) =>
      s.voices[v := s.voices[v].(closing := true,
        unload := if s.threads[t].active == Some(v) then ReturnedFromOwnCallback else Checking(t))]
    case SleepUnload(v) => s.voices[v := s.voices[v].(unload := Asleep(s.voices[v].unload.waiter))]
    case FinishUnload(v) => s.voices[v := s.voices[v].(unload := Returned)]
    case _ => s.voices
  }

  function Push(ts: ThreadState, f: Frame): ThreadState {
    ts.(stack := ts.stack + [f])
  }

  function Pop(ts: ThreadState): ThreadState
    requires ts.stack != []
  {
    ts.(stack := ts.stack[..|ts.stack| - 1])
  }

  ghost function ThreadsAfter(s: State, a: Action): map<Thread, ThreadState>
    requires Enabled(s, a)
  {
    match a
    case NewThread(t, pool) => s.threads[t := ThreadState(pool, None, [])]
    case Start(w, t) =>
      var ts, v := s.threads[t], s.workers[w].voice;
      s.threads[t := Push(ts, Job(w, v, true, ts.active, false)).(active := Some(v))]
    case EnterBlocking(w, v, _, _, t) => s.threads[t := Push(s.threads[t], Job(w, v, false, None, false))]
    case Run(w, m) =>
      var t := s.workers[w].thread;
      if OnStack(CallAfter(s, a).phase) then s.threads else s.threads[t := Pop(s.threads[t])]
    case Steal(t, home) => s.threads[t := Push(s.threads[t], Piece(home, |s.threads[home].stack| - 1))]
    case FinishPiece(t) => s.threads[t := Pop(s.threads[t])]
    case RestoreActive(w) =>
      var ts := s.threads[s.workers[w].thread];
      s.threads[s.workers[w].thread := Push(Pop(ts), Top(ts).(restored := true)).(active := Top(ts).saved)]
    case DropGuard(w) => var t := s.workers[w].thread; s.threads[t := Pop(s.threads[t])]
    case BeginUnload(v, t) =>
      if s.threads[t].active == Some(v) then s.threads else s.threads[t := Push(s.threads[t], Unloading(v))]
    case FinishUnload(v) => var t := s.voices[v].unload.waiter; s.threads[t := Pop(s.threads[t])]
    case _ => s.threads
  }

  ghost function TokensAfter(s: State, a: Action): Tokens
    requires Enabled(s, a)
  {
    match a
    case Enter(w, _, _, _) => Register(s.tokens, w)
    case EnterBlocking(w, _, _, _, _) => Register(s.tokens, w)
    case Run(w, m) => if ReleasesToken(s.workers[w], m) then Release(s.tokens, w) else s.tokens
    case ReturnError(w) => Release(s.tokens, w)
    case _ => s.tokens
  }

  ghost function Apply(s: State, a: Action): State
    requires Enabled(s, a)
  {
    State(VoicesAfter(s, a), WorkersAfter(s, a), ThreadsAfter(s, a), TokensAfter(s, a))
  }

  ghost predicate Next(s: State, s': State) {
    exists a :: Enabled(s, a) && s' == Apply(s, a)
  }

  predicate Init(s: State) {
    s == State(map[], map[], map[], Tokens({}, map[]))
  }

  ghost predicate StepAt(r: seq<State>, i: nat)
    requires i < |r| - 1
  {
    Next(r[i], r[i + 1])
  }

  // A run: any interleaving of the actions above, from the empty state.
  ghost predicate IsRun(r: seq<State>) {
    && |r| > 0 && Init(r[0])
    && forall i | 0 <= i < |r| - 1 :: StepAt(r, i)
  }

  // A run together with the actions that produced it.
  ghost predicate IsTrace(r: seq<State>, acts: seq<Action>) {
    && IsRun(r) && |acts| == |r| - 1
    && forall i | 0 <= i < |acts| :: Enabled(r[i], acts[i]) && r[i + 1] == Apply(r[i], acts[i])
  }

  function Last(r: seq<State>): State
    requires r != []
  {
    r[|r| - 1]
  }

  // A run goes on with any enabled action.
  lemma RunGoesOn(r: seq<State>, a: Action)
    requires IsRun(r) && Enabled(Last(r), a)
    ensures IsRun(r + [Apply(Last(r), a)])
  {
    hide Apply, Enabled;
    var r' := r + [Apply(Last(r), a)];
    forall i | 0 <= i < |r'| - 1 ensures StepAt(r', i) {
      if i < |r| - 1 {
        assert StepAt(r, i);
      }
    }
  }
}
