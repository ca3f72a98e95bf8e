/**
 When a wait can end: exactly when its thread is not knotted. Otherwise the jobs it waits for can
 be brought to their ends by the library's own steps, returning callbacks and cancel calls alone.
 Once a voice is closing, each of its calls takes only a few more steps in any case.
 */
module UnloadProgress {
  import opened Wrappers
  import opened CallbackTokens
  import opened UnloadProtocol
  import opened UnloadSafety
  import opened UnloadStacks
  import opened UnloadKnots

  // ---------- Steps that bring calls to their ends ----------

  // The move that ends a call soonest: its stream ends, and a SPEECH callback asks to stop.
  function EndingMove(ws: WorkerState): Move {
    match ws.phase
    case Building => if ws.builds then BuildSucceeds else BuildFails
    case Pulling => StreamEnds
    case Pulled(_) => ReadsClosing
    case Delivering(_) => Invokes
    case _ => Returns(false)
  }

  predicate IsBuildingRealtime(ws: WorkerState) {
    ws.mode.Realtime? && ws.phase.Building?
  }

  // A realtime call that a cancel can still keep from its first receive.
  predicate IsCancellable(s: State, w: Worker) {
    && w in s.workers
    && var ws := s.workers[w];
    && IsBuildingRealtime(ws) && ws.builds && !ws.cancelled
    && ws.voice in s.voices && s.voices[ws.voice].unload.Open? && s.voices[ws.voice].slot == Some(w)
  }

  // Starting call w on thread t takes no thread that another call needs.
  ghost predicate IsHarmlessStart(s: State, w: Worker, t: Thread) {
    && w in s.workers && s.workers[w].voice in s.voices
    && (s.workers[w].mode.Realtime? ==> forall w2 | w2 in s.workers :: !IsBuildingRealtime(s.workers[w2]))
    && (Demand(s.workers[w]) == 2 && s.voices[s.workers[w].voice].closing ==> exists t2 :: t2 != t && CanTakeJob(s, t2))
  }

  // A queued job gets a thread, work on a thread moves to its end, a cancel spares a call its
  // receive, or an unload finishes. Nothing is loaded, called, unloaded or split.
  ghost predicate EndsCalls(s: State, a: Action) {
    match a
    case Start(w, t) => IsHarmlessStart(s, w, t)
    case Run(w, m) => w in s.workers && m == EndingMove(s.workers[w]) && !IsCancellable(s, w)
    case Serve(_, _) => true
    case CancelVoice(_, w) => IsCancellable(s, w)
    case FinishPiece(_) => true
    case RestoreActive(_) => true
    case DropGuard(_) => true
    case FinishUnload(_) => true
    case _ => false
  }

  function PhaseEffort(p: Phase): nat {
    match p
    case Entered => 10
    case Queued => 9
    case Building => 8
    case Pulling => 6
    case Pulled(_) => 5
    case Delivering(_) => 4
    case InCallback(_) => 3
    case Unwinding => 2
    case Releasing => 1
    case FailedCall => 0
    case Ended => 0
  }

  // How many such steps a call can still have, its producer and its cancellation included.
  function Effort(ws: WorkerState): nat {
    PhaseEffort(ws.phase)
    + (if ws.producer.Unserved? then 1 else 0)
    + (if !ws.cancelled && (ws.phase.Entered? || ws.phase.Queued? || ws.phase.Building?) then 1 else 0)
  }

  // The steps still before all calls together, the pieces on threads, and the unloads that wait.
  ghost function StepsToCome(s: State): set<(Worker, nat)> {
    set w, k | w in s.workers && 0 <= k < 12 && k < Effort(s.workers[w]) :: (w, k)
  }

  ghost function PiecesToCome(s: State): set<(Thread, nat)> {
    set t, i | t in s.threads && 0 <= i < |s.threads[t].stack| && s.threads[t].stack[i].Piece? :: (t, i)
  }

  ghost function UnloadsToCome(s: State): set<Voice> {
    set v | v in s.voices && (s.voices[v].unload.Checking? || s.voices[v].unload.Asleep?)
  }

  lemma EndingMoveHelps(ws: WorkerState, closing: bool)
    requires NextPhase(ws, EndingMove(ws), closing).Some? && PhaseOk(ws)
    ensures Effort(Advance(ws, EndingMove(ws), closing)) < Effort(ws)
  {
  }

  lemma EffortDrops(s: State, a: Action)
    requires Safe(s) && Enabled(s, a) && EndsCalls(s, a) && !a.FinishPiece? && !a.FinishUnload?
    ensures Acting(a).Some? && Acting(a).value in s.workers
    ensures Effort(CallAfter(s, a)) < Effort(s.workers[Acting(a).value])
  {
    hide NextPhase, Advance, CanTakeJob, RunsCallerCode, Safe, IsHarmlessStart, EndingMove, IsJoining;
    CallIsConsistent(s, a.worker);
    match a
    case Run(w, m) =>
      RunAdvances(s, w, m);
      EndingMoveHelps(s.workers[w], s.voices[s.workers[w].voice].closing);
    case _ =>
  }

  lemma StepsShrink(s: State, a: Action)
    requires Safe(s) && Enabled(s, a) && EndsCalls(s, a) && !a.FinishPiece? && !a.FinishUnload?
    ensures StepsToCome(Apply(s, a)) < StepsToCome(s)
  {
    hide Apply, Enabled, EndsCalls, CallAfter, Safe;
    var s' := Apply(s, a);
    OnlyActingWorker(s, a);
    EffortDrops(s, a);
    var w := Acting(a).value;
    var k := Effort(s'.workers[w]);
    assert (w, k) in StepsToCome(s) && (w, k) !in StepsToCome(s');
  }

  lemma PiecesShrink(s: State, t: Thread)
    requires Enabled(s, FinishPiece(t))
    ensures StepsToCome(Apply(s, FinishPiece(t))) == StepsToCome(s)
    ensures PiecesToCome(Apply(s, FinishPiece(t))) < PiecesToCome(s)
  {
    assert (t, |s.threads[t].stack| - 1) in PiecesToCome(s);
  }

  lemma UnloadsShrink(s: State, v: Voice)
    requires Linked(s) && Enabled(s, FinishUnload(v))
    ensures StepsToCome(Apply(s, FinishUnload(v))) == StepsToCome(s)
    ensures PiecesToCome(Apply(s, FinishUnload(v))) <= PiecesToCome(s)
    ensures UnloadsToCome(Apply(s, FinishUnload(v))) < UnloadsToCome(s)
    ensures Drained(Apply(s, FinishUnload(v)), v)
  {
    hide ThreadOk, WorkerLinked;
    assert v in UnloadsToCome(s);
  }

  // ---------- They make no knots ----------

  // Such a step begins no unload and gives the slot only to a call that starts while no other
  // realtime call is being built.
  lemma EndsChangeNoVoice(s: State, a: Action, v: Voice)
    requires Enabled(s, a) && EndsCalls(s, a) && v in s.voices
    ensures v in Apply(s, a).voices && Apply(s, a).voices[v].closing == s.voices[v].closing
    ensures Apply(s, a).voices[v].slot != s.voices[v].slot ==>
      forall w | w in s.workers :: !IsBuildingRealtime(s.workers[w])
  {
    hide Apply, Enabled, CanTakeJob, Demand;
    ClosingOnlyBegins(s, a, v);
    SlotMoves(s, a, v);
    if a.Start? && !s.workers[a.worker].mode.Realtime? {
      OnlyRealtimeOccupies(s, a, v);
    }
  }

  lemma OnlyRealtimeOccupies(s: State, a: Action, v: Voice)
    requires Enabled(s, a) && a.Start? && v in s.voices && !s.workers[a.worker].mode.Realtime?
    ensures v in Apply(s, a).voices && Apply(s, a).voices[v].slot == s.voices[v].slot
  {
    hide CanTakeJob;
  }

  // The only step that leads a call towards its receive.
  lemma EndingCall(s: State, a: Action)
    requires Safe(s) && Enabled(s, a) && EndsCalls(s, a) && Acting(a).Some? && !a.Start?
    requires var ws' := CallAfter(s, a);
      (ws'.phase.Pulling? && ws'.producer.Unserved?) || (IsBuildingRealtime(ws') && !ws'.cancelled)
    ensures var w := Acting(a).value;
      && a == Run(w, BuildSucceeds) && w in s.workers && !IsCancellable(s, w)
      && IsBuildingRealtime(s.workers[w]) && s.workers[w].builds && !s.workers[w].cancelled
  {
    hide CanTakeJob, Safe, NextPhase, Advance, IsJoining, OnTop;
    CallIsConsistent(s, a.worker);
    match a
    case Run(w, m) =>
      RunAdvances(s, w, m);
      EndingMoveToReceive(s.workers[w], s.voices[s.workers[w].voice].closing);
    case _ =>
  }

  lemma CallIsConsistent(s: State, w: Worker)
    requires Safe(s)
    ensures w in s.workers ==> PhaseOk(s.workers[w])
  {
  }

  lemma EndingMoveToReceive(ws: WorkerState, closing: bool)
    requires PhaseOk(ws) && NextPhase(ws, EndingMove(ws), closing).Some?
    ensures var ws' := Advance(ws, EndingMove(ws), closing);
      && !ws'.phase.Building?
      && (ws'.phase.Pulling? && ws'.producer.Unserved? ==>
            EndingMove(ws).BuildSucceeds? && IsBuildingRealtime(ws) && ws.builds && !ws.cancelled)
  {
  }

  // A call that needs its producer afterwards needed it before, unless it has just started.
  lemma NeededBefore(s: State, a: Action, w: Worker)
    requires Safe(s) && Enabled(s, a) && EndsCalls(s, a) && NeedsProducer(Apply(s, a), w)
    requires !(a.Start? && a.worker == w)
    ensures NeedsProducer(s, w)
  {
    hide Apply, Enabled, CallAfter, EndsCalls, CountOk, Demand;
    OnlyActingWorker(s, a);
    if Acting(a) == Some(w) {
      EndingCall(s, a);
      CallHasVoice(s, w);
      assert VoiceOk(s.voices[s.workers[w].voice]);
    } else {
      CallHasVoice(s, w);
      EndsChangeNoVoice(s, a, s.workers[w].voice);
    }
  }

  lemma CallHasVoice(s: State, w: Worker)
    requires Safe(s) && w in s.workers
    ensures s.workers[w].voice in s.voices
  {
  }

  // Another thread stays able to take work when a realtime call starts.
  lemma OtherTakerStays(s: State, a: Action, t2: Thread)
    requires Safe(s) && Linked(s) && Enabled(s, a) && a.Start? && CanTakeJob(s, t2) && t2 != a.thread
    ensures CanTakeJob(Apply(s, a), t2)
  {
    hide Apply, Enabled, ChangeOf, Safe, StackOk, IsPaused, WorkerLinked, VoiceLinked;
    ChangeApplies(s, a, t2);
    StartChanges(s, a, t2);
    if s.threads[t2].stack != [] {
      var i := |s.threads[t2].stack| - 1;
      assert ThreadOk(s, t2) && FrameOk(s, t2, i);
      if s.threads[t2].stack[i].Job? {
        OnlyActingWorker(s, a);
        StarterIsQueued(s, a);
      }
      var t3 :| t3 in s.threads && Piece(t2, i) in s.threads[t3].stack;
      ChangeApplies(s, a, t3);
      StartChanges(s, a, t3);
    }
  }

  lemma StartChanges(s: State, a: Action, t: Thread)
    requires Enabled(s, a) && a.Start? && t in s.threads
    ensures if t == a.thread then ChangeOf(s, a, t).Pushed? && ChangeOf(s, a, t).frame.Job?
      else ChangeOf(s, a, t).Untouched?
  {
    hide Enabled;
  }

  lemma StarterIsQueued(s: State, a: Action)
    requires Enabled(s, a) && a.Start?
    ensures a.worker in s.workers && s.workers[a.worker].phase.Queued?
  {
    hide CanTakeJob;
  }

  // The frame of a call that has just started is not stuck.
  lemma NewFrameIsNotTied(s: State, a: Action, marks: Marks)
    requires Safe(s) && Linked(s) && Enabled(s, a) && EndsCalls(s, a) && a.Start?
    ensures a.thread in s.threads
    ensures a.thread in marks && marks[a.thread] == |s.threads[a.thread].stack| ==> !Tied(Apply(s, a), marks, a.thread)
  {
    hide Apply, Enabled, Safe, HeldInside, IsStarved, PieceInside, Free, HasPieces;
    var s', t := Apply(s, a), a.thread;
    StarterIsFree(s, a, marks);
    if t in marks && marks[t] == |s.threads[t].stack| && Tied(s', marks, t) {
      ChangeApplies(s, a, t);
      StartChanges(s, a, t);
      LinkedStep(s, a);
      if IsSplit(s', t, marks[t]) {
        NoPieceYet(s, a, marks);
      } else {
        StartedNeeds(s, a);
        var t2 :| t2 != a.thread && CanTakeJob(s, t2);
        OtherTakerStays(s, a, t2);
        TakerIsFree(s', marks, t2);
      }
      assert false;
    }
  }

  lemma NoPieceYet(s: State, a: Action, marks: Marks)
    requires Linked(s) && Enabled(s, a) && a.Start? && a.thread in s.threads
    ensures !PieceInside(Apply(s, a), marks, a.thread, |s.threads[a.thread].stack|)
  {
    hide Apply, Enabled, ChangeOf, StackOk, IsPaused, WorkerLinked, VoiceLinked;
    var s', t, level := Apply(s, a), a.thread, |s.threads[a.thread].stack|;
    forall t2, i: nat ensures !IsPieceOf(s', t, level, t2, i) {
      if t2 in s.threads {
        ChangeApplies(s, a, t2);
        StartChanges(s, a, t2);
        assert ThreadOk(s, t2) && (i < |s.threads[t2].stack| ==> FrameOk(s, t2, i));
      } else if t2 in s'.threads {
        NewThreadIsIdle(s, a, t2);
      }
    }
  }

  lemma StartedNeeds(s: State, a: Action)
    requires Enabled(s, a) && EndsCalls(s, a) && a.Start? && NeedsProducer(Apply(s, a), a.worker)
    ensures exists t2 :: t2 != a.thread && CanTakeJob(s, t2)
  {
    hide Apply, CanTakeJob;
    OnlyActingWorker(s, a);
    ClosingOnlyBegins(s, a, s.workers[a.worker].voice);
    StartTakesSlot(s, a);
  }

  lemma StartTakesSlot(s: State, a: Action)
    requires Enabled(s, a) && a.Start? && s.workers[a.worker].mode.Realtime?
    ensures var v := s.workers[a.worker].voice;
      v in Apply(s, a).voices && Apply(s, a).voices[v].slot == Some(a.worker)
  {
    hide CanTakeJob;
  }

  // The marks of a knot afterwards lie on frames that were there before.
  lemma MarkedBefore(s: State, a: Action, marks: Marks, t: Thread, i: nat)
    requires Safe(s) && Linked(s) && Enabled(s, a) && EndsCalls(s, a)
    requires Knot(Apply(s, a), marks) && Inside(marks, t, i)
    ensures SameFrame(s, Apply(s, a), t, i)
  {
    hide Apply, Enabled, EndsCalls, ChangeOf, Safe, HeldInside, IsStarved, PieceInside, Free, StackOk;
    hide WorkerLinked, VoiceLinked;
    var s' := Apply(s, a);
    assert Tied(s', marks, t);
    if t in s.threads {
      ChangeApplies(s, a, t);
      match ChangeOf(s, a, t)
      case Pushed(_, _) =>
        EndsPushOnlyStarts(s, a, t);
        NewFrameIsNotTied(s, a, marks);
      case Restored =>
        if marks[t] == |s.threads[t].stack| - 1 {
          RestoredIsNotTied(s, a, t, marks);
        }
      case _ =>
    } else {
      NewThreadIsIdle(s, a, t);
    }
  }

  lemma EndsPushOnlyStarts(s: State, a: Action, t: Thread)
    requires Enabled(s, a) && EndsCalls(s, a) && t in s.threads && ChangeOf(s, a, t).Pushed?
    ensures a.Start? && a.thread == t
  {
    hide Enabled, IsHarmlessStart, CallAfter;
  }

  lemma RestoredIsNotTied(s: State, a: Action, t: Thread, marks: Marks)
    requires Linked(s) && Enabled(s, a) && t in s.threads && ChangeOf(s, a, t).Restored?
    requires t in marks && marks[t] == |s.threads[t].stack| - 1
    ensures !Tied(Apply(s, a), marks, t)
  {
    hide Apply, CallAfter, HeldInside, IsStarved, PieceInside, Free, StackOk, IsPaused;
    ChangeApplies(s, a, t);
    RestoredFrame(s, a.worker, t);
  }

  // ---------- A knot afterwards was one before ----------

  lemma HeldBefore(s: State, a: Action, marks: Marks, v: Voice)
    requires Safe(s) && Linked(s) && Enabled(s, a) && EndsCalls(s, a) && Knot(Apply(s, a), marks)
    requires HeldInside(Apply(s, a), marks, v)
    ensures HeldInside(s, marks, v)
  {
    hide Apply, Enabled, EndsCalls, Safe, Linked, Knot;
    var t, i: nat :| Inside(marks, t, i) && HoldsVoice(Apply(s, a), v, t, i);
    MarkedBefore(s, a, marks, t, i);
    assert Inside(marks, t, i) && HoldsVoice(s, v, t, i);
  }

  lemma PieceBefore(s: State, a: Action, marks: Marks, home: Thread, level: nat)
    requires Safe(s) && Linked(s) && Enabled(s, a) && EndsCalls(s, a) && Knot(Apply(s, a), marks)
    requires PieceInside(Apply(s, a), marks, home, level)
    ensures PieceInside(s, marks, home, level) && IsSplit(s, home, level)
  {
    hide Apply, Enabled, EndsCalls, Safe, Knot, StackOk, IsPaused, WorkerLinked, VoiceLinked;
    var t, i: nat :| Inside(marks, t, i) && IsPieceOf(Apply(s, a), home, level, t, i);
    MarkedBefore(s, a, marks, t, i);
    assert Inside(marks, t, i) && IsPieceOf(s, home, level, t, i);
    assert ThreadOk(s, t) && FrameOk(s, t, i);
  }

  lemma SamePool(s: State, a: Action)
    requires Enabled(s, a) && EndsCalls(s, a)
    ensures Pool(Apply(s, a)) == Pool(s)
  {
    hide Apply, Enabled, ChangeOf, IsHarmlessStart;
    forall t ensures t in Pool(Apply(s, a)) <==> t in Pool(s) {
      if t in s.threads {
        ChangeApplies(s, a, t);
      } else if t in Apply(s, a).threads {
        NewThreadIsIdle(s, a, t);
      }
    }
  }

  // A thread that rests afterwards rested before.
  lemma SettledBefore(s: State, a: Action, marks: Marks, t: Thread)
    requires Safe(s) && Linked(s) && Enabled(s, a) && EndsCalls(s, a)
    requires Knot(Apply(s, a), marks) && Settled(Apply(s, a), marks, t)
    ensures Settled(s, marks, t)
  {
    hide Apply, Enabled, EndsCalls, ChangeOf, Safe, Knot, Tied, NeedsProducer, StackOk, WorkerLinked, VoiceLinked;
    var s', i := Apply(s, a), marks[t];
    MarkedBefore(s, a, marks, t, i);
    ChangeApplies(s, a, t);
    assert ThreadOk(s, t) && FrameOk(s, t, i);
    if s.threads[t].stack[i].Job? {
      NotTheStarter(s, a, s.threads[t].stack[i].worker);
      NeededBefore(s, a, s.threads[t].stack[i].worker);
    }
    if i < |s.threads[t].stack| - 1 {
      PausedDoesNotRest(s, t, i);
    }
  }

  lemma NotTheStarter(s: State, a: Action, w: Worker)
    requires Enabled(s, a) && w in s.workers && OnStack(s.workers[w].phase)
    ensures !(a.Start? && a.worker == w)
  {
    hide CanTakeJob;
  }

  lemma PausedDoesNotRest(s: State, t: Thread, i: nat)
    requires t in s.threads && i < |s.threads[t].stack| && IsPaused(s, t, i)
    ensures !s.threads[t].stack[i].Unloading?
    ensures s.threads[t].stack[i].Job? ==> !NeedsProducer(s, s.threads[t].stack[i].worker)
  {
  }

  lemma FreeBefore(s: State, a: Action, marks: Marks)
    requires Safe(s) && Linked(s) && Enabled(s, a) && EndsCalls(s, a) && Knot(Apply(s, a), marks)
    ensures Free(s, marks) <= Free(Apply(s, a), marks)
  {
    hide Apply, Enabled, EndsCalls, Safe, Linked, Knot, Settled, Pool;
    SamePool(s, a);
    forall t | t in Free(s, marks) ensures t in Free(Apply(s, a), marks) {
      if Settled(Apply(s, a), marks, t) {
        SettledBefore(s, a, marks, t);
      }
    }
  }

  lemma QueuedBefore(s: State, a: Action, v: Voice, w: Worker)
    requires Enabled(s, a) && EndsCalls(s, a) && IsQueued(Apply(s, a), v, w)
    ensures IsQueued(s, v, w) && Demand(s.workers[w]) == Demand(Apply(s, a).workers[w])
  {
    hide Apply, Enabled, EndsCalls, CallAfter;
    OnlyActingWorker(s, a);
    if Acting(a) == Some(w) {
      OnlyItsProducer(s, a);
    }
  }

  // A call that ends up in the queue was there, and at most its producer has changed.
  lemma OnlyItsProducer(s: State, a: Action)
    requires Enabled(s, a) && EndsCalls(s, a) && Acting(a).Some? && CallAfter(s, a).phase.Queued?
    ensures Acting(a).value in s.workers
    ensures CallAfter(s, a) == s.workers[Acting(a).value].(producer := Served)
  {
    hide IsHarmlessStart, CanTakeJob, IsJoining, NextPhase, Advance, OnTop;
    if a.Run? {
      RunAdvances(s, a.worker, a.move);
      MovesDoNotQueue(s.workers[a.worker], a.move, s.voices[s.workers[a.worker].voice].closing);
    }
  }

  lemma MovesDoNotQueue(ws: WorkerState, m: Move, closing: bool)
    requires NextPhase(ws, m, closing).Some?
    ensures !Advance(ws, m, closing).phase.Queued?
  {
  }

  lemma StarvedBefore(s: State, a: Action, marks: Marks, v: Voice)
    requires Safe(s) && Linked(s) && Enabled(s, a) && EndsCalls(s, a) && Knot(Apply(s, a), marks)
    requires IsStarved(Apply(s, a), marks, v)
    ensures IsStarved(s, marks, v)
  {
    hide Apply, Enabled, EndsCalls, Safe, Linked, Knot, Free, Demand;
    var s' := Apply(s, a);
    var w :| IsQueued(s', v, w) && |Free(s', marks)| < Demand(s'.workers[w]);
    QueuedBefore(s, a, v, w);
    FreeBefore(s, a, marks);
    Subset(Free(s, marks), Free(s', marks));
  }

  lemma TiedBefore(s: State, a: Action, marks: Marks, t: Thread)
    requires Safe(s) && Linked(s) && Enabled(s, a) && EndsCalls(s, a) && Knot(Apply(s, a), marks) && t in marks
    ensures Tied(s, marks, t)
  {
    hide Apply, Enabled, EndsCalls, Safe, Free, NeedsProducer, HeldInside, PieceInside, IsStarved, StackOk;
    hide WorkerLinked, VoiceLinked;
    var s', i := Apply(s, a), marks[t];
    assert Tied(s', marks, t);
    MarkedBefore(s, a, marks, t, i);
    match s.threads[t].stack[i]
    case Unloading(v) =>
      if HeldInside(s', marks, v) { HeldBefore(s, a, marks, v); } else { StarvedBefore(s, a, marks, v); }
    case Piece(_, _) => PieceBefore(s, a, marks, t, i);
    case Job(w, _, _, _, _) =>
      if IsSplit(s', t, i) {
        PieceBefore(s, a, marks, t, i);
      } else {
        assert ThreadOk(s, t) && FrameOk(s, t, i);
        NotTheStarter(s, a, w);
        NeededBefore(s, a, w);
        FreeBefore(s, a, marks);
        NeedyIsNotSplitAt(s, t, i);
      }
  }

  lemma NeedyIsNotSplitAt(s: State, t: Thread, i: nat)
    requires t in s.threads && i < |s.threads[t].stack| && s.threads[t].stack[i].Job?
    requires NeedsProducer(s, s.threads[t].stack[i].worker)
    ensures !IsSplit(s, t, i)
  {
  }

  lemma KnotBefore(s: State, a: Action, marks: Marks)
    requires Safe(s) && Linked(s) && Enabled(s, a) && EndsCalls(s, a) && Knot(Apply(s, a), marks)
    ensures Knot(s, marks)
  {
    hide Apply, Enabled, EndsCalls, Safe, Linked, Tied;
    forall t | t in marks ensures Tied(s, marks, t) {
      TiedBefore(s, a, marks, t);
    }
  }

  lemma NotKnottedAfter(s: State, a: Action, t: Thread)
    requires Safe(s) && Linked(s) && Enabled(s, a) && EndsCalls(s, a) && SameThread(s, Apply(s, a), t)
    ensures Knotted(Apply(s, a), t) ==> Knotted(s, t)
  {
    hide Apply, Enabled, EndsCalls, Safe, Linked, Knot;
    if Knotted(Apply(s, a), t) {
      var marks :| t in marks && marks[t] == |Apply(s, a).threads[t].stack| - 1 && Knot(Apply(s, a), marks);
      KnotBefore(s, a, marks);
    }
  }

  // ---------- There is always one to take ----------

  // The top of a thread waits: for a guard, for a piece, or for its producer.
  predicate IsBlocked(s: State, t: Thread) {
    && t in s.threads && s.threads[t].stack != []
    && match Top(s.threads[t])
       case Unloading(_) => true
       case Piece(_, _) => IsJoining(s, t)
       case Job(w, _, _, _, _) =>
         || IsJoining(s, t)
         || (w in s.workers && s.workers[w].phase.Pulling? && s.workers[w].producer.Unserved?)
  }

  // Anything else on top of a thread has a next step.
  lemma TopMoves(s: State, t: Thread) returns (a: Action)
    requires Safe(s) && Linked(s) && t in s.threads && s.threads[t].stack != [] && !IsBlocked(s, t)
    ensures Enabled(s, a) && EndsCalls(s, a)
  {
    hide HasPieces, StackOk, IsPaused, IsJoining, Guards;
    assert ThreadOk(s, t) && FrameOk(s, t, |s.threads[t].stack| - 1);
    if Top(s.threads[t]).Piece? {
      a := FinishPiece(t);
      return;
    }
    TopJob(s, t);
    a := CallMoves(s, Top(s.threads[t]).worker);
  }

  lemma CallMoves(s: State, w: Worker) returns (a: Action)
    requires Safe(s) && OnTop(s, w) && !IsJoining(s, s.workers[w].thread)
    requires !(s.workers[w].phase.Pulling? && s.workers[w].producer.Unserved?)
    ensures Enabled(s, a) && EndsCalls(s, a)
  {
    hide Enabled, EndsCalls, Safe, IsJoining, OnTop;
    IsOnStack(s, w);
    if s.workers[w].phase.Unwinding? {
      a := RestoreActive(w);
      RestoreGoes(s, w);
    } else if s.workers[w].phase.Releasing? {
      a := DropGuard(w);
      DropGoes(s, w);
    } else if IsCancellable(s, w) {
      a := CancelVoice(s.workers[w].voice, w);
      CancelGoes(s, w);
    } else {
      a := Run(w, EndingMove(s.workers[w]));
      RunGoes(s, w);
    }
  }

  lemma RestoreGoes(s: State, w: Worker)
    requires OnTop(s, w) && s.workers[w].phase.Unwinding?
    ensures Enabled(s, RestoreActive(w)) && EndsCalls(s, RestoreActive(w))
  {
  }

  lemma DropGoes(s: State, w: Worker)
    requires Safe(s) && OnTop(s, w) && s.workers[w].phase.Releasing?
    ensures Enabled(s, DropGuard(w)) && EndsCalls(s, DropGuard(w))
  {
    hide OnTop;
    IsOnStack(s, w);
    CallHasVoice(s, w);
    assert PhaseOk(s.workers[w]);
    assert w in Guards(s, s.workers[w].voice);
  }

  lemma CancelGoes(s: State, w: Worker)
    requires IsCancellable(s, w)
    ensures Enabled(s, CancelVoice(s.workers[w].voice, w)) && EndsCalls(s, CancelVoice(s.workers[w].voice, w))
  {
  }

  lemma RunGoes(s: State, w: Worker)
    requires Safe(s) && OnTop(s, w) && !IsJoining(s, s.workers[w].thread) && !IsCancellable(s, w)
    requires !s.workers[w].phase.Unwinding? && !s.workers[w].phase.Releasing?
    requires !(s.workers[w].phase.Pulling? && s.workers[w].producer.Unserved?)
    ensures Enabled(s, Run(w, EndingMove(s.workers[w]))) && EndsCalls(s, Run(w, EndingMove(s.workers[w])))
  {
    hide Safe, OnTop, IsJoining, NextPhase, EndingMove;
    IsOnStack(s, w);
    CallHasVoice(s, w);
    EndingMoveGoes(s.workers[w], s.voices[s.workers[w].voice].closing);
  }

  lemma IsOnStack(s: State, w: Worker)
    requires OnTop(s, w)
    ensures w in s.workers && OnStack(s.workers[w].phase)
  {
  }

  lemma EndingMoveGoes(ws: WorkerState, closing: bool)
    requires OnStack(ws.phase) && !ws.phase.Unwinding? && !ws.phase.Releasing?
    requires !(ws.phase.Pulling? && ws.producer.Unserved?)
    ensures NextPhase(ws, EndingMove(ws), closing).Some?
  {
  }

  // Every thread that has work waits.
  ghost predicate AllBlocked(s: State) {
    forall t | t in s.threads && s.threads[t].stack != [] :: IsBlocked(s, t)
  }

  // Marks on the top of every stack.
  ghost function Tops(s: State): Marks {
    map t | t in s.threads && s.threads[t].stack != [] :: |s.threads[t].stack| - 1
  }

  lemma FreeTakesWork(s: State, p: Thread)
    requires Safe(s) && Linked(s) && AllBlocked(s) && p in Free(s, Tops(s))
    ensures CanTakeJob(s, p)
  {
    hide HasPieces, IsPaused, StackOk, ClosingOk;
    if s.threads[p].stack != [] {
      assert IsBlocked(s, p);
      if Top(s.threads[p]).Job? {
        assert ThreadOk(s, p) && FrameOk(s, p, |s.threads[p].stack| - 1);
        assert PhaseOk(s.workers[Top(s.threads[p]).worker]);
      }
    }
  }

  lemma NoneIsBuilding(s: State, w: Worker)
    requires Safe(s) && Linked(s) && AllBlocked(s) && w in s.workers
    ensures !IsBuildingRealtime(s.workers[w])
  {
    hide HasPieces, StackOk, ClosingOk, Guards;
    if OnStack(s.workers[w].phase) {
      var t, d := s.workers[w].thread, s.workers[w].depth;
      assert WorkerLinked(s, w);
      assert ThreadOk(s, t) && FrameOk(s, t, d);
      assert IsBlocked(s, t);
    }
  }

  // With threads enough, a queued call of a closing voice can start without harm.
  lemma QueuedStarts(s: State, w: Worker) returns (a: Action)
    requires Safe(s) && Linked(s) && AllBlocked(s) && w in s.workers && s.workers[w].phase.Queued?
    requires |Free(s, Tops(s))| >= Demand(s.workers[w])
    ensures Enabled(s, a) && EndsCalls(s, a)
  {
    hide Safe, Linked, AllBlocked, Free, CanTakeJob;
    DemandAtMostTwo(s.workers[w]);
    CallHasVoice(s, w);
    var p :| p in Free(s, Tops(s));
    FreeTakesWork(s, p);
    forall w2 | w2 in s.workers ensures !IsBuildingRealtime(s.workers[w2]) {
      NoneIsBuilding(s, w2);
    }
    if Demand(s.workers[w]) == 2 {
      assert Free(s, Tops(s)) == (Free(s, Tops(s)) - {p}) + {p};
      assert Free(s, Tops(s)) - {p} != {};
      var q :| q in Free(s, Tops(s)) - {p};
      FreeTakesWork(s, q);
    }
    a := Start(w, p);
  }

  // The frame that holds a guard lies on some thread.
  lemma GuardFrame(s: State, w: Worker, v: Voice)
    requires Linked(s) && w in Guards(s, v) && OnStack(s.workers[w].phase)
    ensures HeldInside(s, Tops(s), v)
  {
    hide StackOk, IsPaused, HasPieces;
    assert WorkerLinked(s, w);
    var t, d := s.workers[w].thread, s.workers[w].depth;
    assert ThreadOk(s, t) && FrameOk(s, t, d);
    assert Inside(Tops(s), t, d) && HoldsVoice(s, v, t, d);
  }

  // A waiting unload that is not stuck can finish, or a queued call it waits for can start.
  lemma UnloadMoves(s: State, t: Thread) returns (a: Action)
    requires Safe(s) && Linked(s) && AllBlocked(s) && IsWaiting(s, t) && !Tied(s, Tops(s), t)
    ensures Enabled(s, a) && EndsCalls(s, a)
  {
    hide Linked, AllBlocked, Free, HeldInside, Demand;
    WaitingUnload(s, t);
    var v := Top(s.threads[t]).voice;
    assert VoiceOk(s.voices[v]);
    if s.voices[v].running == 0 {
      a := FinishUnload(v);
      return;
    }
    assert Guards(s, v) != {};
    var w :| w in Guards(s, v);
    assert CallReturned(s, w);
    if s.workers[w].phase.Queued? {
      assert IsQueued(s, v, w);
      a := QueuedStarts(s, w);
    } else {
      GuardFrame(s, w, v);
    }
  }

  // Split work that is blocked is stuck at once: the piece it waits for lies under a mark.
  lemma JoiningIsTied(s: State, t: Thread)
    requires Linked(s) && IsJoining(s, t)
    ensures Tied(s, Tops(s), t)
  {
    hide StackOk, IsPaused, Free, HeldInside, IsStarved;
    var i := |s.threads[t].stack| - 1;
    assert ThreadOk(s, t) && FrameOk(s, t, i);
    var t2 :| t2 in s.threads && Piece(t, i) in s.threads[t2].stack;
    var j: nat :| j < |s.threads[t2].stack| && s.threads[t2].stack[j] == Piece(t, i);
    assert Inside(Tops(s), t2, j) && IsPieceOf(s, t, i, t2, j);
  }

  lemma UntiedMoves(s: State, t: Thread) returns (a: Action)
    requires Safe(s) && Linked(s) && AllBlocked(s) && t in Tops(s) && !Tied(s, Tops(s), t)
    ensures Enabled(s, a) && EndsCalls(s, a)
  {
    hide Safe, Linked, Free, IsJoining, CanTakeJob, HeldInside, IsStarved, PieceInside;
    assert IsBlocked(s, t);
    if IsWaiting(s, t) {
      a := UnloadMoves(s, t);
    } else if IsJoining(s, t) {
      JoiningIsTied(s, t);
      assert false;
    } else {
      var w := Top(s.threads[t]).worker;
      UnservedNeeds(s, w);
      NeedyIsNotSplitAt(s, t, Tops(s)[t]);
      var p :| p in Free(s, Tops(s));
      FreeTakesWork(s, p);
      a := Serve(w, p);
    }
  }

  lemma UnservedNeeds(s: State, w: Worker)
    requires Safe(s) && w in s.workers && s.workers[w].phase.Pulling? && s.workers[w].producer.Unserved?
    ensures NeedsProducer(s, w)
  {
    assert PhaseOk(s.workers[w]);
  }

  // While a thread rests outside every knot, some call can be brought closer to its end, some piece
  // finished or some unload.
  lemma NextEndingStep(s: State, t: Thread) returns (a: Action)
    requires Safe(s) && Linked(s) && Rests(s, t) && !Knotted(s, t)
    ensures Enabled(s, a) && EndsCalls(s, a)
  {
    hide Enabled, EndsCalls, Safe, Linked, Tied, IsBlocked, NeedsProducer;
    if t1 :| t1 in s.threads && s.threads[t1].stack != [] && !IsBlocked(s, t1) {
      a := TopMoves(s, t1);
    } else {
      assert t in Tops(s) && !Knot(s, Tops(s));
      var t1 :| t1 in Tops(s) && !Tied(s, Tops(s), t1);
      a := UntiedMoves(s, t1);
    }
  }

  // ---------- Waiting comes to an end ----------

  // What the rest of a thread is for: its unload has returned, or its call has its producer.
  ghost predicate MovesOn(s: State, s': State, t: Thread) {
    && (IsWaiting(s, t) ==> Drained(s', Top(s.threads[t]).voice))
    && (IsReceiving(s, t) ==> IsServed(s', Top(s.threads[t]).worker))
  }

  predicate IsServed(s: State, w: Worker) {
    w in s.workers && s.workers[w].producer.Served?
  }

  // A step after which a resting thread rests on, or the step it waited for.
  lemma RestsOrMovesOn(s: State, a: Action, t: Thread)
    requires Safe(s) && Linked(s) && Enabled(s, a) && Rests(s, t)
    ensures MovesOn(s, Apply(s, a), t) || (SameThread(s, Apply(s, a), t) && Rests(Apply(s, a), t))
  {
    hide Apply, Enabled, Safe, NeedsProducer, ThreadOk, WorkerLinked, StepsToCome, PiecesToCome, UnloadsToCome;
    if IsWaiting(s, t) {
      if a == FinishUnload(Top(s.threads[t]).voice) {
        UnloadsShrink(s, a.voice);
      } else {
        WaitingStays(s, a, t);
      }
    } else if a.Serve? && a.worker == Top(s.threads[t]).worker {
      ServedNow(s, a);
    } else {
      ReceivingStays(s, a, t);
    }
  }

  lemma ServedNow(s: State, a: Action)
    requires Enabled(s, a) && a.Serve?
    ensures IsServed(Apply(s, a), a.worker)
  {
    hide CanTakeJob;
  }

  ghost predicate EndingStepAt(r: seq<State>, i: int)
    requires 0 <= i < |r| - 1
  {
    exists a :: Enabled(r[i], a) && EndsCalls(r[i], a) && r[i + 1] == Apply(r[i], a)
  }

  lemma ReachedState(r: seq<State>)
    requires IsRun(r)
    ensures Safe(Last(r)) && Linked(Last(r))
  {
    SafeRun(r, |r| - 1);
    LinkedRun(r, |r| - 1);
  }

  // Outside every knot the run has a continuation, of steps that bring calls to their ends, in
  // which a resting thread moves on.
  lemma {:induction false} CanMoveOn(r: seq<State>, t: Thread) returns (r': seq<State>)
    requires r != [] && IsRun(r) && Rests(Last(r), t) && !Knotted(Last(r), t)
    ensures r < r' && IsRun(r') && MovesOn(Last(r), Last(r'), t)
    ensures forall k | |r| - 1 <= k < |r'| - 1 :: EndingStepAt(r', k)
    decreases StepsToCome(Last(r)), PiecesToCome(Last(r)), UnloadsToCome(Last(r))
  {
    hide IsRun, Knotted, MovesOn, Rests, SameThread, EndingStepAt, StepsToCome, PiecesToCome, UnloadsToCome;
    var r1 := FirstStep(r, t);
    if MovesOn(Last(r), Last(r1), t) {
      r' := r1;
    } else {
      r' := CanMoveOn(r1, t);
      SameRest(Last(r), Last(r1), Last(r'), t);
      FirstStepStays(r, r1, r');
    }
  }

  // One ending step, after which less is to come.
  lemma FirstStep(r: seq<State>, t: Thread) returns (r1: seq<State>)
    requires r != [] && IsRun(r) && Rests(Last(r), t) && !Knotted(Last(r), t)
    ensures r < r1 && |r1| == |r| + 1 && IsRun(r1) && EndingStepAt(r1, |r| - 1) && LessToCome(Last(r), Last(r1))
    ensures MovesOn(Last(r), Last(r1), t)
      || (SameThread(Last(r), Last(r1), t) && Rests(Last(r1), t) && !Knotted(Last(r1), t))
  {
    hide Apply, Enabled, EndsCalls, Safe, Linked, Knotted, LessToCome, IsRun, MovesOn, Rests, SameThread;
    ReachedState(r);
    var a := NextEndingStep(Last(r), t);
    RunGoesOn(r, a);
    r1 := r + [Apply(Last(r), a)];
    assert r1[|r| - 1] == Last(r);
    EndingShrinks(Last(r), a);
    RestsOrMovesOn(Last(r), a, t);
    if !MovesOn(Last(r), Last(r1), t) {
      NotKnottedAfter(Last(r), a, t);
    }
  }

  lemma FirstStepStays(r: seq<State>, r1: seq<State>, r': seq<State>)
    requires r != [] && |r1| == |r| + 1 && r1 <= r' && EndingStepAt(r1, |r| - 1)
    requires forall k | |r1| - 1 <= k < |r'| - 1 :: EndingStepAt(r', k)
    ensures forall k | |r| - 1 <= k < |r'| - 1 :: EndingStepAt(r', k)
  {
    hide Apply, Enabled, EndsCalls;
    var k := |r| - 1;
    assert r'[k] == r1[k] && r'[k + 1] == r1[k + 1];
    assert EndingStepAt(r', k);
  }

  ghost predicate LessToCome(s: State, s': State) {
    || StepsToCome(s') < StepsToCome(s)
    || (StepsToCome(s') == StepsToCome(s) && PiecesToCome(s') < PiecesToCome(s))
    || (&& StepsToCome(s') == StepsToCome(s) && PiecesToCome(s') == PiecesToCome(s)
        && UnloadsToCome(s') < UnloadsToCome(s))
  }

  // Every ending step leaves less to come.
  lemma EndingShrinks(s: State, a: Action)
    requires Safe(s) && Linked(s) && Enabled(s, a) && EndsCalls(s, a)
    ensures LessToCome(s, Apply(s, a))
  {
    hide Apply, Enabled, EndsCalls, Safe, Linked, StepsToCome, PiecesToCome, UnloadsToCome;
    match a
    case FinishPiece(t) => PiecesShrink(s, t);
    case FinishUnload(v) => UnloadsShrink(s, v);
    case _ => StepsShrink(s, a);
  }

  lemma SameRest(s: State, s1: State, s2: State, t: Thread)
    requires SameThread(s, s1, t) && Rests(s1, t) && Rests(s, t) && MovesOn(s1, s2, t)
    ensures MovesOn(s, s2, t)
  {
  }

  // ---------- Exactly outside the knots ----------

  ghost predicate CanReturn(r: seq<State>, v: Voice) {
    exists r' :: r' != [] && IsRun(r') && r <= r' && Drained(Last(r'), v)
  }

  ghost predicate CanBeServed(r: seq<State>, w: Worker) {
    exists r' :: r' != [] && IsRun(r') && r <= r' && IsServed(Last(r'), w)
  }

  // Outside every knot an unload has a continuation in which it returns.
  lemma UnloadCanReturn(r: seq<State>, t: Thread) returns (r': seq<State>)
    requires r != [] && IsRun(r) && IsWaiting(Last(r), t) && !Knotted(Last(r), t)
    ensures r < r' && IsRun(r') && Drained(Last(r'), Top(Last(r).threads[t]).voice)
    ensures forall k | |r| - 1 <= k < |r'| - 1 :: EndingStepAt(r', k)
  {
    hide IsRun, Knotted, Drained, EndingStepAt;
    r' := CanMoveOn(r, t);
  }

  // A knotted thread is where it was in every continuation.
  lemma KnottedRests(r: seq<State>, r': seq<State>, t: Thread)
    requires r != [] && IsRun(r) && IsRun(r') && r <= r' && Rests(Last(r), t) && Knotted(Last(r), t)
    ensures SameThread(Last(r), Last(r'), t) && Rests(Last(r'), t)
  {
    hide IsRun, Knot, NeedsProducer, KeepsFrames, Extends;
    var marks :| t in marks && marks[t] == |Last(r).threads[t].stack| - 1 && Knot(Last(r), marks);
    assert r'[|r| - 1] == Last(r);
    var marks' := KnotIsForever(r', |r| - 1, |r'| - 1, marks);
    assert Settled(Last(r), marks, t);
    assert SameThread(Last(r), Last(r'), t);
  }

  // In every run, a waiting unload has a continuation in which it returns if and only if its
  // thread is not knotted.
  lemma ReturnsIffNotKnotted(r: seq<State>, t: Thread)
    requires r != [] && IsRun(r) && IsWaiting(Last(r), t)
    ensures CanReturn(r, Top(Last(r).threads[t]).voice) <==> !Knotted(Last(r), t)
  {
    hide IsRun, Knotted, Drained, EndingStepAt, NeedsProducer;
    if Knotted(Last(r), t) {
      forall r' | r' != [] && IsRun(r') && r <= r' ensures !Drained(Last(r'), Top(Last(r).threads[t]).voice) {
        KnottedRests(r, r', t);
        ReachedState(r');
        WaitingIsNotDrained(Last(r'), t);
      }
    } else {
      var r' := UnloadCanReturn(r, t);
    }
  }

  lemma WaitingIsNotDrained(s: State, t: Thread)
    requires Linked(s) && IsWaiting(s, t)
    ensures !Drained(s, Top(s.threads[t]).voice)
  {
    WaitingUnload(s, t);
  }

  // In every run, a realtime call bound for its first receive has a continuation in which its
  // producer gets a thread if and only if its thread is not knotted.
  lemma ServedIffNotKnotted(r: seq<State>, t: Thread)
    requires r != [] && IsRun(r) && IsReceiving(Last(r), t)
    ensures CanBeServed(r, Top(Last(r).threads[t]).worker) <==> !Knotted(Last(r), t)
  {
    hide IsRun, Knotted, Drained, EndingStepAt, NeedsProducer, IsServed;
    var w := Top(Last(r).threads[t]).worker;
    if Knotted(Last(r), t) {
      forall r' | r' != [] && IsRun(r') && r <= r' ensures !IsServed(Last(r'), w) {
        KnottedRests(r, r', t);
        ReachedState(r');
        ReceivingIsNotServed(Last(r'), w);
      }
    } else {
      var r' := CanMoveOn(r, t);
    }
  }

  lemma ReceivingIsNotServed(s: State, w: Worker)
    requires Safe(s) && NeedsProducer(s, w)
    ensures !IsServed(s, w)
  {
    assert PhaseOk(s.workers[w]);
  }

  // ---------- A condition on the waits ----------

  // Thread p takes work, now or once its top frame is done, or its top frame ranks below t's.
  ghost predicate IsBelow(s: State, rank: (Thread, nat) -> nat, p: Thread, t: Thread)
    requires t in s.threads && s.threads[t].stack != []
  {
    && p in Pool(s)
    && (Rests(s, p) ==> rank(p, |s.threads[p].stack| - 1) < rank(t, |s.threads[t].stack| - 1))
  }

  // The waits go down in some ranking of the frames: from an unload to every frame from a job it
  // waits for upwards, from split work to every frame from one of its pieces upwards, and from a
  // wait for pool threads to as many of them as it needs.
  ghost predicate Acyclic(s: State, rank: (Thread, nat) -> nat) {
    && (forall t, t2, i: nat, j: nat |
          IsWaiting(s, t) && HoldsVoice(s, Top(s.threads[t]).voice, t2, i) && i <= j < |s.threads[t2].stack| ::
          rank(t2, j) < rank(t, |s.threads[t].stack| - 1))
    && (forall home, level: nat, t2, i: nat, j: nat |
          IsPieceOf(s, home, level, t2, i) && i <= j < |s.threads[t2].stack| :: rank(t2, j) < rank(home, level))
    && (forall t | IsReceiving(s, t) :: exists p :: IsBelow(s, rank, p, t))
    && (forall t, w | IsWaiting(s, t) && IsQueued(s, Top(s.threads[t]).voice, w) :: HasThreads(s, rank, t, w))
  }

  ghost predicate HasThreads(s: State, rank: (Thread, nat) -> nat, t: Thread, w: Worker)
    requires IsWaiting(s, t) && w in s.workers
  {
    exists p, q :: IsBelow(s, rank, p, t) && IsBelow(s, rank, q, t) && (p == q ==> Demand(s.workers[w]) == 1)
  }

  // Acyclic waits leave no room for a knot: from any marked frame the ranks would go down for ever.
  lemma {:induction false} AcyclicHasNoKnot(s: State, rank: (Thread, nat) -> nat, marks: Marks, t: Thread)
    requires Linked(s) && Acyclic(s, rank) && t in marks
    ensures !Knot(s, marks)
    decreases rank(t, marks[t])
  {
    hide Linked, Acyclic, Knot;
    if Knot(s, marks) {
      var t2 := LowerMark(s, rank, marks, t);
      AcyclicHasNoKnot(s, rank, marks, t2);
    }
  }

  // Below every marked frame of a knot another one is marked.
  lemma LowerMark(s: State, rank: (Thread, nat) -> nat, marks: Marks, t: Thread) returns (t2: Thread)
    requires Linked(s) && Acyclic(s, rank) && Knot(s, marks) && t in marks
    ensures t2 in marks && rank(t2, marks[t2]) < rank(t, marks[t])
  {
    hide Linked, Free, Demand, NeedsProducer, Acyclic;
    assert Tied(s, marks, t);
    var i := marks[t];
    MarkedKind(s, marks, t);
    match s.threads[t].stack[i]
    case Unloading(v) =>
      if HeldInside(s, marks, v) {
        t2 := LowerHolder(s, rank, marks, t);
      } else {
        var w :| IsQueued(s, v, w) && |Free(s, marks)| < Demand(s.workers[w]);
        t2 := LowerThread(s, rank, marks, t, w);
      }
    case _ =>
      if PieceInside(s, marks, t, i) {
        t2 := LowerPiece(s, rank, marks, t);
      } else {
        t2 := LowerServer(s, rank, marks, t);
      }
  }

  // Marked unloads and receives are on top of their threads.
  lemma MarkedKind(s: State, marks: Marks, t: Thread)
    requires Linked(s) && Tied(s, marks, t)
    ensures s.threads[t].stack[marks[t]].Unloading? || !PieceInside(s, marks, t, marks[t])
            ==> Rests(s, t) && marks[t] == |s.threads[t].stack| - 1
  {
    hide StackOk, HeldInside, IsStarved, PieceInside, Free;
    assert ThreadOk(s, t) && FrameOk(s, t, marks[t]);
    if marks[t] < |s.threads[t].stack| - 1 {
      PausedDoesNotRest(s, t, marks[t]);
    }
  }

  lemma LowerHolder(s: State, rank: (Thread, nat) -> nat, marks: Marks, t: Thread) returns (t2: Thread)
    requires Acyclic(s, rank) && Knot(s, marks) && IsWaiting(s, t) && HeldInside(s, marks, Top(s.threads[t]).voice)
    ensures t2 in marks && rank(t2, marks[t2]) < rank(t, |s.threads[t].stack| - 1)
  {
    hide PieceInside, IsStarved, Free, NeedsProducer;
    var t1, i: nat :| Inside(marks, t1, i) && HoldsVoice(s, Top(s.threads[t]).voice, t1, i);
    t2 := t1;
    assert Tied(s, marks, t2);
    assert i <= marks[t2] < |s.threads[t2].stack|;
  }

  lemma LowerPiece(s: State, rank: (Thread, nat) -> nat, marks: Marks, t: Thread) returns (t2: Thread)
    requires Acyclic(s, rank) && Knot(s, marks) && t in marks && PieceInside(s, marks, t, marks[t])
    ensures t2 in marks && rank(t2, marks[t2]) < rank(t, marks[t])
  {
    hide HeldInside, IsStarved, Free, NeedsProducer;
    var t1, i: nat :| Inside(marks, t1, i) && IsPieceOf(s, t, marks[t], t1, i);
    t2 := t1;
    assert Tied(s, marks, t2);
    assert i <= marks[t2] < |s.threads[t2].stack|;
  }

  lemma LowerServer(s: State, rank: (Thread, nat) -> nat, marks: Marks, t: Thread) returns (p: Thread)
    requires Acyclic(s, rank) && IsReceiving(s, t) && Free(s, marks) == {}
    ensures p in marks && rank(p, marks[p]) < rank(t, |s.threads[t].stack| - 1)
  {
    hide HoldsVoice, IsPieceOf, HasThreads;
    p :| IsBelow(s, rank, p, t);
    assert p !in Free(s, marks);
  }

  lemma LowerThread(s: State, rank: (Thread, nat) -> nat, marks: Marks, t: Thread, w: Worker) returns (p: Thread)
    requires Acyclic(s, rank) && IsWaiting(s, t) && IsQueued(s, Top(s.threads[t]).voice, w)
    requires |Free(s, marks)| < Demand(s.workers[w])
    ensures p in marks && rank(p, marks[p]) < rank(t, |s.threads[t].stack| - 1)
  {
    hide HoldsVoice, IsPieceOf;
    DemandAtMostTwo(s.workers[w]);
    assert HasThreads(s, rank, t, w);
    var p1, p2 :| IsBelow(s, rank, p1, t) && IsBelow(s, rank, p2, t) && (p1 == p2 ==> Demand(s.workers[w]) == 1);
    if {p1, p2} <= Free(s, marks) {
      Subset({p1, p2}, Free(s, marks));
      assert false;
    }
    p := if p1 in Free(s, marks) then p2 else p1;
  }

  // With acyclic waits every waiting unload can return.
  lemma AcyclicWaitsCanReturn(r: seq<State>, rank: (Thread, nat) -> nat, t: Thread)
    requires r != [] && IsRun(r) && IsWaiting(Last(r), t) && Acyclic(Last(r), rank)
    ensures CanReturn(r, Top(Last(r).threads[t]).voice)
  {
    hide IsRun, Acyclic, CanReturn, Knot;
    ReachedState(r);
    forall marks | t in marks ensures !Knot(Last(r), marks) {
      AcyclicHasNoKnot(Last(r), rank, marks, t);
    }
    ReturnsIffNotKnotted(r, t);
  }

  // ---------- The drain is short ----------

  // An upper bound on the steps a call can still take once its voice is closing, its producer's
  // one step included.
  function StepsLeft(ws: WorkerState): nat {
    (if ws.producer.Unserved? then 1 else 0) +
    match ws.phase
    case Entered => 11
    case Queued => 10
    case Building => 9
    case Delivering(e) => if e.Speech? then 8 else 4
    case InCallback(e) => if e.Speech? then 7 else 3
    case Pulling => 6
    case Pulled(_) => 5
    case Unwinding => 2
    case Releasing => 1
    case FailedCall => 1
    case Ended => 0
  }

  lemma ClosingMoveShortens(ws: WorkerState, m: Move)
    requires NextPhase(ws, m, true).Some? && PhaseOk(ws)
    ensures StepsLeft(Advance(ws, m, true)) < StepsLeft(ws)
  {
  }

  // A call of a closing voice is not cancelled any more, and none enters.
  lemma ClosingCallShortens(s: State, a: Action)
    requires Safe(s) && Enabled(s, a) && Acting(a).Some? && Acting(a).value in s.workers
    requires s.voices[s.workers[Acting(a).value].voice].closing
    ensures StepsLeft(CallAfter(s, a)) < StepsLeft(s.workers[Acting(a).value])
  {
    hide Enabled, CallAfter, NextPhase, Advance, StepsLeft, Safe;
    var w := Acting(a).value;
    CallIsConsistent(s, w);
    CallHasVoice(s, w);
    ClosingIsNotOpen(s, s.workers[w].voice);
    if a.Run? {
      RunAdvances(s, w, a.move);
      ClosingMoveShortens(s.workers[w], a.move);
    } else {
      QuietStepShortens(s, a);
    }
  }

  lemma QuietStepShortens(s: State, a: Action)
    requires Enabled(s, a) && Acting(a).Some? && Acting(a).value in s.workers && !a.Run?
    requires var ws := s.workers[Acting(a).value]; ws.voice in s.voices && !s.voices[ws.voice].unload.Open?
    ensures StepsLeft(CallAfter(s, a)) < StepsLeft(s.workers[Acting(a).value])
  {
    hide CanTakeJob, RunsCallerCode, OnTop;
  }

  lemma ClosingIsNotOpen(s: State, v: Voice)
    requires Safe(s) && v in s.voices && s.voices[v].closing
    ensures !s.voices[v].unload.Open?
  {
    assert VoiceOk(s.voices[v]);
  }

  lemma ClosingStepShortens(s: State, a: Action, w: Worker)
    requires Safe(s) && Enabled(s, a) && w in s.workers && s.voices[s.workers[w].voice].closing
    ensures w in Apply(s, a).workers && Apply(s, a).workers[w].voice == s.workers[w].voice
    ensures StepsLeft(Apply(s, a).workers[w]) + (if Acting(a) == Some(w) then 1 else 0) <= StepsLeft(s.workers[w])
  {
    hide Apply, Enabled, CallAfter, StepsLeft, Safe;
    OnlyActingWorker(s, a);
    if Acting(a) == Some(w) {
      CallKeepsRequest(s, a);
      ClosingCallShortens(s, a);
    }
  }

  lemma AtMostElevenLeft(s: State, w: Worker)
    requires Safe(s) && w in s.workers
    ensures StepsLeft(s.workers[w]) <= 11
  {
    assert PhaseOk(s.workers[w]);
  }

  function StepsOf(acts: seq<Action>, w: Worker): nat {
    if acts == [] then 0
    else StepsOf(acts[..|acts| - 1], w) + (if Acting(acts[|acts| - 1]) == Some(w) then 1 else 0)
  }

  // From the moment a voice is closing, each of its calls takes at most eleven more steps in any
  // run, whatever its mode and whatever its stream still holds.
  lemma {:induction false} ClosingCallsEndSoon(r: seq<State>, acts: seq<Action>, i: nat, j: nat, w: Worker)
    requires IsTrace(r, acts) && i <= j < |r| && w in r[i].workers
    requires r[i].workers[w].voice in r[i].voices && r[i].voices[r[i].workers[w].voice].closing
    ensures w in r[j].workers && r[j].workers[w].voice == r[i].workers[w].voice
    ensures r[i].workers[w].voice in r[j].voices && r[j].voices[r[i].workers[w].voice].closing
    ensures StepsOf(acts[i..j], w) + StepsLeft(r[j].workers[w]) <= StepsLeft(r[i].workers[w]) <= 11
    decreases j - i
  {
    hide Apply, Enabled, Safe, StepsLeft;
    if i == j {
      SafeRun(r, i);
      AtMostElevenLeft(r[i], w);
    } else {
      ClosingCallsEndSoon(r, acts, i, j - 1, w);
      SafeRun(r, j - 1);
      assert acts[i..j][..|acts[i..j]| - 1] == acts[i..j - 1];
      assert r[j - 1 + 1] == Apply(r[j - 1], acts[j - 1]);
      ClosingStepShortens(r[j - 1], acts[j - 1], w);
      ClosingOnlyBegins(r[j - 1], acts[j - 1], r[i].workers[w].voice);
    }
  }
}
