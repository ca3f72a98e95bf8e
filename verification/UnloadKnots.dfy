/**
 Waits that can never end. A knot marks frames, at most one per thread: everything at or below a
 marked frame is stuck. A waiting unload is stuck when a job it waits for lies at or below a marked
 frame, or when a queued call it waits for needs more pool threads than are free. A realtime call
 whose producer has no thread is stuck when no pool thread is free. Split work is stuck when a
 piece of it lies at or below a marked frame. A pool thread is free unless its top frame is marked
 and takes no work on top, as a piece or a split job would. No run ever loosens a knot.
 */
module UnloadKnots {
  import opened Wrappers
  import opened CallbackTokens
  import opened UnloadProtocol
  import opened UnloadSafety
  import opened UnloadStacks

  predicate IsWaiting(s: State, t: Thread) {
    t in s.threads && s.threads[t].stack != [] && Top(s.threads[t]).Unloading?
  }

  // A realtime call on a thread that will not end before its producer has run: it is in its first
  // receive, or will get there because its text can be spoken and no cancel reaches it any more.
  predicate NeedsProducer(s: State, w: Worker) {
    && w in s.workers
    && var ws := s.workers[w];
    && ws.mode.Realtime? && ws.voice in s.voices
    && (|| (ws.phase.Pulling? && ws.producer.Unserved?)
        || (&& ws.phase.Building? && ws.builds && !ws.cancelled
            && (s.voices[ws.voice].closing || s.voices[ws.voice].slot != Some(w))))
  }

  predicate IsReceiving(s: State, t: Thread) {
    && t in s.threads && s.threads[t].stack != []
    && Top(s.threads[t]).Job? && NeedsProducer(s, Top(s.threads[t]).worker)
  }

  // A thread that takes no work while it waits.
  predicate Rests(s: State, t: Thread) {
    IsWaiting(s, t) || IsReceiving(s, t)
  }

  // ---------- Knots ----------

  // The marked frame of each marked thread.
  type Marks = map<Thread, nat>

  predicate Inside(marks: Marks, t: Thread, i: nat) {
    t in marks && i <= marks[t]
  }

  // The pool job of frame i on thread t holds a guard of voice v.
  predicate HoldsVoice(s: State, v: Voice, t: Thread, i: nat) {
    && t in s.threads && i < |s.threads[t].stack|
    && s.threads[t].stack[i].Job? && s.threads[t].stack[i].nonblocking && s.threads[t].stack[i].voice == v
  }

  // Frame i of thread t is a piece of frame `level` of thread `home`.
  predicate IsPieceOf(s: State, home: Thread, level: nat, t: Thread, i: nat) {
    t in s.threads && i < |s.threads[t].stack| && s.threads[t].stack[i] == Piece(home, level)
  }

  ghost predicate HeldInside(s: State, marks: Marks, v: Voice) {
    exists t, i: nat :: Inside(marks, t, i) && HoldsVoice(s, v, t, i)
  }

  ghost predicate PieceInside(s: State, marks: Marks, home: Thread, level: nat) {
    exists t, i: nat :: Inside(marks, t, i) && IsPieceOf(s, home, level, t, i)
  }

  function Pool(s: State): set<Thread> {
    set t | t in s.threads && s.threads[t].pool
  }

  // Marked on top, and taking no work there.
  predicate Settled(s: State, marks: Marks, t: Thread) {
    Rests(s, t) && t in marks && marks[t] == |s.threads[t].stack| - 1
  }

  function Free(s: State, marks: Marks): set<Thread> {
    set t | t in Pool(s) && !Settled(s, marks, t)
  }

  predicate IsQueued(s: State, v: Voice, w: Worker) {
    w in s.workers && s.workers[w].phase.Queued? && s.workers[w].voice == v
  }

  // The pool threads a queued call of a closing voice needs at the same time.
  function Demand(ws: WorkerState): nat {
    if ws.mode.Realtime? && ws.builds && !ws.cancelled then 2 else 1
  }

  ghost predicate IsStarved(s: State, marks: Marks, v: Voice) {
    exists w :: IsQueued(s, v, w) && |Free(s, marks)| < Demand(s.workers[w])
  }

  ghost predicate Tied(s: State, marks: Marks, t: Thread) {
    && t in s.threads && t in marks && marks[t] < |s.threads[t].stack|
    && match s.threads[t].stack[marks[t]]
       case Unloading(v) => HeldInside(s, marks, v) || IsStarved(s, marks, v)
       case Job(w, _, _, _, _) =>
         if IsSplit(s, t, marks[t]) then PieceInside(s, marks, t, marks[t])
         else NeedsProducer(s, w) && Free(s, marks) == {}
       case Piece(_, _) => PieceInside(s, marks, t, marks[t])
  }

  ghost predicate Knot(s: State, marks: Marks) {
    forall t {:trigger Tied(s, marks, t)} | t in marks :: Tied(s, marks, t)
  }

  // A thread whose top frame is stuck.
  ghost predicate Knotted(s: State, t: Thread) {
    && t in s.threads
    && exists marks {:trigger Knot(s, marks)} :: t in marks && marks[t] == |s.threads[t].stack| - 1 && Knot(s, marks)
  }

  // ---------- Threads that rest ----------

  predicate SameThread(s: State, s': State, t: Thread) {
    t in s.threads && t in s'.threads && s'.threads[t] == s.threads[t]
  }

  // The unload on top of a thread is the one its voice has.
  lemma WaitingUnload(s: State, t: Thread)
    requires Linked(s) && IsWaiting(s, t)
    ensures var v := Top(s.threads[t]).voice;
      v in s.voices && WaitsOn(s.voices[v].unload, t) && s.voices[v].unload.waiter == t
  {
    hide StackOk, IsPaused;
    assert ThreadOk(s, t) && FrameOk(s, t, |s.threads[t].stack| - 1);
  }

  lemma WaitingStays(s: State, a: Action, t: Thread)
    requires Safe(s) && Linked(s) && Enabled(s, a) && IsWaiting(s, t)
    requires a != FinishUnload(Top(s.threads[t]).voice)
    ensures SameThread(s, Apply(s, a), t) && IsWaiting(Apply(s, a), t)
  {
    hide Apply, Enabled, Safe, Linked;
    WaitingUnload(s, t);
    WaitingThreadRests(s, a, Top(s.threads[t]).voice);
  }

  // A call that needs its producer can only get further into its receive.
  lemma ReceivingMove(s: State, a: Action, w: Worker)
    requires Enabled(s, a) && NeedsProducer(s, w) && MovesCall(a, w)
    ensures a == Run(w, BuildSucceeds) && CallAfter(s, a) == s.workers[w].(phase := Pulling, producer := Unserved)
  {
    hide IsJoining;
  }

  // Only a realtime call that starts takes the slot.
  lemma SlotMoves(s: State, a: Action, v: Voice)
    requires Enabled(s, a) && v in s.voices
    ensures v in Apply(s, a).voices
    ensures var slot := Apply(s, a).voices[v].slot;
      slot == s.voices[v].slot || ((a.Start? || a.EnterBlocking?) && slot == Some(a.worker))
  {
    hide Apply, NextPhase, CanTakeJob, RunsCallerCode, OnTop;
    PartsOfApply(s, a);
  }

  // What can happen to such a call besides.
  lemma ReceivingActs(s: State, a: Action, w: Worker)
    requires Enabled(s, a) && NeedsProducer(s, w) && Acting(a) == Some(w) && !MovesCall(a, w) && !a.Serve?
    ensures a.CancelVoice? && CallAfter(s, a) == s.workers[w].(cancelled := true)
    ensures a.voice == s.workers[w].voice && s.voices[a.voice].unload.Open? && s.voices[a.voice].slot == Some(w)
  {
    hide NextPhase, Advance, CanTakeJob, RunsCallerCode;
  }

  lemma ReceivingCall(s: State, a: Action, w: Worker)
    requires Safe(s) && Enabled(s, a) && NeedsProducer(s, w) && !(a.Serve? && a.worker == w)
    ensures NeedsProducer(Apply(s, a), w)
  {
    hide Apply, Enabled, CallAfter, CountOk;
    var v := s.workers[w].voice;
    OnlyActingWorker(s, a);
    SlotMoves(s, a, v);
    ClosingOnlyBegins(s, a, v);
    assert VoiceOk(s.voices[v]);
    if MovesCall(a, w) {
      ReceivingMove(s, a, w);
    } else if Acting(a) == Some(w) {
      ReceivingActs(s, a, w);
    }
  }

  lemma ReceivingStays(s: State, a: Action, t: Thread)
    requires Safe(s) && Linked(s) && Enabled(s, a) && IsReceiving(s, t)
    requires !(a.Serve? && a.worker == Top(s.threads[t]).worker)
    ensures SameThread(s, Apply(s, a), t) && IsReceiving(Apply(s, a), t)
  {
    hide Apply, Enabled, ChangeOf, Safe, Linked, CallAfter, HasPieces;
    ChangeApplies(s, a, t);
    TopJob(s, t);
    var w := Top(s.threads[t]).worker;
    if ChangeOf(s, a, t).Pushed? {
      PushedOnPaused(s, a, t);
    } else if !ChangeOf(s, a, t).Untouched? {
      ChangedOnTop(s, a, t);
      ReceivingMove(s, a, w);
      MoveOnStack(s, a, t);
    }
    ReceivingCall(s, a, w);
  }

  lemma MoveOnStack(s: State, a: Action, t: Thread)
    requires Enabled(s, a) && a.Run? && OnStack(CallAfter(s, a).phase) && t in s.threads
    ensures ChangeOf(s, a, t).Untouched?
  {
    hide Enabled, CallAfter;
  }

  // ---------- A knot never loosens ----------

  // What a stuck unload waits for keeps a guard, so its voice's counter stays up.
  lemma TiedGuard(s: State, marks: Marks, t: Thread)
    requires Safe(s) && Linked(s) && Tied(s, marks, t) && IsWaiting(s, t) && marks[t] == |s.threads[t].stack| - 1
    ensures var v := Top(s.threads[t]).voice;
      v in s.voices && s.voices[v].running > 0 && s.voices[v].closing && s.workers != map[]
  {
    hide StackOk, IsPaused, Free;
    var v := Top(s.threads[t]).voice;
    WaitingUnload(s, t);
    if HeldInside(s, marks, v) {
      var t2, i: nat :| Inside(marks, t2, i) && HoldsVoice(s, v, t2, i);
      assert ThreadOk(s, t2) && FrameOk(s, t2, i);
      assert s.threads[t2].stack[i].worker in Guards(s, v);
    } else {
      var w :| IsQueued(s, v, w) && |Free(s, marks)| < Demand(s.workers[w]);
      assert w in Guards(s, v);
    }
    assert VoiceOk(s.voices[v]);
  }

  lemma CannotFinish(s: State, a: Action, v: Voice)
    requires Enabled(s, a) && v in s.voices && s.voices[v].running > 0
    ensures a != FinishUnload(v)
  {
  }

  lemma TakerIsFree(s: State, marks: Marks, t: Thread)
    requires Linked(s) && CanTakeJob(s, t)
    ensures t in Free(s, marks)
  {
    if s.threads[t].stack != [] && Top(s.threads[t]).Job? {
      TopJob(s, t);
    }
  }

  lemma ServerTakesWork(s: State, w: Worker, t: Thread)
    requires Enabled(s, Serve(w, t))
    ensures CanTakeJob(s, t)
  {
  }

  // A settled thread is left alone by every action.
  lemma SettledStays(s: State, a: Action, marks: Marks, t: Thread)
    requires Safe(s) && Linked(s) && Enabled(s, a) && Settled(s, marks, t) && Tied(s, marks, t)
    ensures SameThread(s, Apply(s, a), t) && Settled(Apply(s, a), marks, t)
  {
    hide Apply, Enabled, Safe, Linked, NeedsProducer, Free, HeldInside, IsStarved, PieceInside;
    if IsWaiting(s, t) {
      TiedGuard(s, marks, t);
      CannotFinish(s, a, Top(s.threads[t]).voice);
      WaitingStays(s, a, t);
    } else {
      assert !IsSplit(s, t, marks[t]) by { NeedyIsNotSplit(s, t); }
      if a.Serve? {
        ServerTakesWork(s, a.worker, a.thread);
        TakerIsFree(s, marks, a.thread);
      }
      ReceivingStays(s, a, t);
    }
  }

  lemma NeedyIsNotSplit(s: State, t: Thread)
    requires IsReceiving(s, t)
    ensures !IsSplit(s, t, |s.threads[t].stack| - 1)
  {
  }

  // The pool has its threads before the first call.
  lemma PoolIsFixed(s: State, a: Action)
    requires Enabled(s, a) && s.workers != map[]
    ensures Pool(Apply(s, a)) == Pool(s)
  {
    hide Apply, Enabled, ChangeOf;
    forall t ensures t in Pool(Apply(s, a)) <==> t in Pool(s) {
      if t in s.threads {
        ChangeApplies(s, a, t);
      } else if t in Apply(s, a).threads {
        NewThreadIsIdle(s, a, t);


      }
    }
  }

  // The frame a tied thread is marked at stays where it is.
  lemma MarkStays(s: State, a: Action, marks: Marks, t: Thread)
    requires Safe(s) && Linked(s) && Enabled(s, a) && Tied(s, marks, t)
    ensures SameFrame(s, Apply(s, a), t, marks[t])
  {
    hide Apply, Enabled, Safe, ChangeOf, StackOk, Free, HeldInside, IsStarved, WorkerLinked, VoiceLinked;
    var i := marks[t];
    assert ThreadOk(s, t) && FrameOk(s, t, i);
    if i < |s.threads[t].stack| - 1 {
      BelowTopStays(s, a, t, i);
    } else if IsSplit(s, t, i) {
      assert HasPieces(s, t, i) by { PieceSomewhere(s, marks, t, i); }
      SplitStays(s, a, t, i);
    } else {
      SettledStays(s, a, marks, t);
    }
  }

  lemma PieceSomewhere(s: State, marks: Marks, t: Thread, i: nat)
    requires PieceInside(s, marks, t, i)
    ensures HasPieces(s, t, i)
  {
    var t2, j: nat :| Inside(marks, t2, j) && IsPieceOf(s, t, i, t2, j);
    assert Piece(t, i) in s.threads[t2].stack;
  }

  // So does everything below it.
  lemma InsideStays(s: State, a: Action, marks: Marks, t: Thread, i: nat)
    requires Safe(s) && Linked(s) && Enabled(s, a) && Knot(s, marks) && Inside(marks, t, i)
    ensures SameFrame(s, Apply(s, a), t, i)
  {
    hide Apply, Enabled, Safe, Linked, HeldInside, IsStarved, PieceInside;
    assert Tied(s, marks, t);
    if i == marks[t] {
      MarkStays(s, a, marks, t);
    } else {
      BelowTopStays(s, a, t, i);
    }
  }

  // ---------- One step of a knot ----------

  predicate Extends(marks: Marks, marks': Marks) {
    forall t | t in marks :: t in marks' && marks[t] <= marks'[t]
  }

  ghost predicate KeepsSettled(s: State, marks: Marks, s': State, marks': Marks) {
    forall t {:trigger SameThread(s, s', t)} | Settled(s, marks, t) :: SameThread(s, s', t) && Settled(s', marks', t)
  }

  // A realtime call that starts on the last free thread gets stuck there.
  ghost function MarksAfter(s: State, a: Action, marks: Marks): Marks
    requires Enabled(s, a)
  {
    if a.Start? && Demand(s.workers[a.worker]) == 2 && s.voices[s.workers[a.worker].voice].closing
       && |Free(s, marks)| < 2
    then marks[a.thread := |s.threads[a.thread].stack|] else marks
  }

  lemma Subset<T>(a: set<T>, b: set<T>)
    requires a <= b
    ensures |a| <= |b| && (|a| == |b| ==> a == b)
  {
    assert b == a + (b - a);
  }

  lemma FreeShrinks(s: State, s': State, marks: Marks, marks': Marks)
    requires Pool(s') == Pool(s) && KeepsSettled(s, marks, s', marks')
    ensures Free(s', marks') <= Free(s, marks)
  {
    hide Pool, Settled;
    forall t | t in Free(s', marks') ensures t in Free(s, marks) {
      if Settled(s, marks, t) {
        assert SameThread(s, s', t);
      }
    }
  }

  lemma MarksGrow(s: State, a: Action, marks: Marks)
    requires Safe(s) && Linked(s) && Enabled(s, a) && Knot(s, marks)
    ensures Extends(marks, MarksAfter(s, a, marks))
    ensures KeepsSettled(s, marks, Apply(s, a), MarksAfter(s, a, marks))
  {
    hide Apply, Enabled, Safe, Linked, Free, HeldInside, IsStarved, PieceInside, Rests;
    var marks' := MarksAfter(s, a, marks);
    if marks' != marks {
      StarterIsFree(s, a, marks);
    }
    forall t | t in marks ensures t in marks' && marks[t] <= marks'[t] {
      assert Tied(s, marks, t);
    }
    forall t | Settled(s, marks, t) ensures SameThread(s, Apply(s, a), t) && Settled(Apply(s, a), marks', t) {
      assert Tied(s, marks, t);
      SettledStays(s, a, marks, t);
    }
  }

  lemma StarterIsFree(s: State, a: Action, marks: Marks)
    requires Linked(s) && Enabled(s, a) && a.Start?
    ensures CanTakeJob(s, a.thread) && !Settled(s, marks, a.thread) && a.thread in Free(s, marks)
  {
    hide IsJoining, Linked;
    TakerIsFree(s, marks, a.thread);
  }

  // Frames inside the marks stay inside.
  lemma StaysHeld(s: State, a: Action, marks: Marks, marks': Marks, v: Voice)
    requires Safe(s) && Linked(s) && Enabled(s, a) && Knot(s, marks)
      && Extends(marks, marks') && HeldInside(s, marks, v)
    ensures HeldInside(Apply(s, a), marks', v)
  {
    hide Apply, Enabled, Safe, Linked, Knot;
    var t, i: nat :| Inside(marks, t, i) && HoldsVoice(s, v, t, i);
    InsideStays(s, a, marks, t, i);
    assert Inside(marks', t, i) && HoldsVoice(Apply(s, a), v, t, i);
  }

  lemma StaysPiece(s: State, a: Action, marks: Marks, marks': Marks, home: Thread, level: nat)
    requires Safe(s) && Linked(s) && Enabled(s, a) && Knot(s, marks) && Extends(marks, marks')
    requires PieceInside(s, marks, home, level)
    ensures PieceInside(Apply(s, a), marks', home, level)
  {
    hide Apply, Enabled, Safe, Linked, Knot;
    var t, i: nat :| Inside(marks, t, i) && IsPieceOf(s, home, level, t, i);
    InsideStays(s, a, marks, t, i);
    assert Inside(marks', t, i) && IsPieceOf(Apply(s, a), home, level, t, i);
  }

  // A queued call of a closing voice leaves the queue only by starting.
  lemma QueuedStays(s: State, a: Action, v: Voice, w: Worker)
    requires Safe(s) && Enabled(s, a) && IsQueued(s, v, w) && v in s.voices && s.voices[v].closing
    requires !(a.Start? && a.worker == w)
    ensures IsQueued(Apply(s, a), v, w) && Demand(Apply(s, a).workers[w]) == Demand(s.workers[w])
  {
    hide Apply, CountOk, NextPhase, Advance, CanTakeJob, RunsCallerCode;
    OnlyActingWorker(s, a);
    assert VoiceOk(s.voices[v]);
  }

  // The call that was queued has started on the last free thread and needs another one.
  lemma StartedOnTheLast(s: State, a: Action, marks: Marks)
    requires Safe(s) && Linked(s) && Enabled(s, a) && Knot(s, marks) && s.workers != map[]
    requires a.Start? && MarksAfter(s, a, marks) != marks
    ensures Tied(Apply(s, a), MarksAfter(s, a, marks), a.thread)
    ensures Free(Apply(s, a), MarksAfter(s, a, marks)) == {}
    ensures HoldsVoice(Apply(s, a), s.workers[a.worker].voice, a.thread, |s.threads[a.thread].stack|)
    ensures MarksAfter(s, a, marks) == marks[a.thread := |s.threads[a.thread].stack|]
  {
    hide Apply, Enabled, Safe, Linked, Free, Pool, Rests, IsSplit, NeedsProducer, Knot;
    var s', marks' := Apply(s, a), MarksAfter(s, a, marks);
    StarterIsFree(s, a, marks);
    MarksGrow(s, a, marks);
    PoolIsFixed(s, a);
    FreeShrinks(s, s', marks, marks');
    StartedCall(s, a);
    assert Settled(s', marks', a.thread);
    NotFree(s', marks', a.thread);
    Subset(Free(s', marks'), Free(s, marks));
    Subset(Free(s', marks'), Free(s, marks) - {a.thread});
  }

  lemma NotFree(s: State, marks: Marks, t: Thread)
    requires Settled(s, marks, t)
    ensures t !in Free(s, marks)
  {
  }

  lemma StartedCall(s: State, a: Action)
    requires Safe(s) && Enabled(s, a) && a.Start? && Demand(s.workers[a.worker]) == 2
    requires s.voices[s.workers[a.worker].voice].closing
    ensures var s', t, w := Apply(s, a), a.thread, a.worker;
      && Rests(s', t) && NeedsProducer(s', w) && !IsSplit(s', t, |s.threads[t].stack|)
      && |s'.threads[t].stack| == |s.threads[t].stack| + 1
      && s'.threads[t].stack[|s.threads[t].stack|].Job? && s'.threads[t].stack[|s.threads[t].stack|].worker == w
      && HoldsVoice(s', s.workers[w].voice, t, |s.threads[t].stack|)
  {
    hide Apply, IsJoining, CountOk;
    OnlyActingWorker(s, a);
    PartsOfApply(s, a);
  }

  // A starved queue stays starved, or its call starts on the last free thread and is held there.
  lemma StaysStarved(s: State, a: Action, marks: Marks, v: Voice)
    requires Safe(s) && Linked(s) && Enabled(s, a) && Knot(s, marks) && IsStarved(s, marks, v)
    requires v in s.voices && s.voices[v].closing
    ensures var marks' := MarksAfter(s, a, marks);
      HeldInside(Apply(s, a), marks', v) || IsStarved(Apply(s, a), marks', v)
  {
    hide Apply, Enabled, Safe, Linked, Free, Knot, Demand;
    var s', marks' := Apply(s, a), MarksAfter(s, a, marks);
    var w :| IsQueued(s, v, w) && |Free(s, marks)| < Demand(s.workers[w]);
    if a.Start? && a.worker == w {
      StarterIsFree(s, a, marks);
      Subset({a.thread}, Free(s, marks));
      assert Demand(s.workers[w]) <= 2 by { DemandAtMostTwo(s.workers[w]); }
      assert MarksAfter(s, a, marks) == marks[a.thread := |s.threads[a.thread].stack|];
      if marks' == marks {
        StarterMarkIsNew(s, a, marks);
      }
      StartedOnTheLast(s, a, marks);
      assert Inside(marks', a.thread, |s.threads[a.thread].stack|);
    } else {
      QueuedStays(s, a, v, w);
      MarksGrow(s, a, marks);
      PoolIsFixed(s, a);
      FreeShrinks(s, s', marks, marks');
      Subset(Free(s', marks'), Free(s, marks));
    }
  }

  lemma DemandAtMostTwo(ws: WorkerState)
    ensures 1 <= Demand(ws) <= 2
  {
  }

  // No frame is marked above the top of its stack.
  lemma StarterMarkIsNew(s: State, a: Action, marks: Marks)
    requires Enabled(s, a) && a.Start? && Knot(s, marks)
    ensures CanTakeJob(s, a.thread) && marks[a.thread := |s.threads[a.thread].stack|] != marks
  {
    hide IsJoining, HeldInside, PieceInside, IsStarved, Free;
    if a.thread in marks {
      assert Tied(s, marks, a.thread);
    }
  }

  lemma TiedStep(s: State, a: Action, marks: Marks, t: Thread)
    requires Safe(s) && Linked(s) && Enabled(s, a) && Knot(s, marks) && t in marks
    requires MarksAfter(s, a, marks) != marks ==> t != a.thread
    ensures Tied(Apply(s, a), MarksAfter(s, a, marks), t)
  {
    hide Apply, Enabled, Safe, MarksAfter, Free, HeldInside, IsStarved, PieceInside, StackOk, WorkerLinked, VoiceLinked;
    hide NeedsProducer;
    var s', marks', i := Apply(s, a), MarksAfter(s, a, marks), marks[t];
    assert Tied(s, marks, t);
    MarksGrow(s, a, marks);
    MarkStays(s, a, marks, t);
    MarkIsSame(s, a, marks, t);
    assert ThreadOk(s, t) && FrameOk(s, t, i);
    match s.threads[t].stack[i]
    case Unloading(v) =>
      TiedGuard(s, marks, t);
      if HeldInside(s, marks, v) { StaysHeld(s, a, marks, marks', v); } else { StaysStarved(s, a, marks, v); }
    case Piece(_, _) => StaysPiece(s, a, marks, marks', t, i);
    case Job(w, _, _, _, _) =>
      if IsSplit(s, t, i) {
        assert HasPieces(s, t, i) by { PieceSomewhere(s, marks, t, i); }
        SplitStays(s, a, t, i);
        StaysPiece(s, a, marks, marks', t, i);
      } else {
        ReceivingStep(s, a, marks, t);
      }
  }

  lemma MarkIsSame(s: State, a: Action, marks: Marks, t: Thread)
    requires Enabled(s, a) && t in marks && (MarksAfter(s, a, marks) != marks ==> t != a.thread)
    ensures t in MarksAfter(s, a, marks) && MarksAfter(s, a, marks)[t] == marks[t]
  {
    hide Enabled, Free;
  }

  lemma ReceivingStep(s: State, a: Action, marks: Marks, t: Thread)
    requires Safe(s) && Linked(s) && Enabled(s, a) && Knot(s, marks) && Tied(s, marks, t)
    requires s.threads[t].stack[marks[t]].Job? && !IsSplit(s, t, marks[t])
    requires KeepsSettled(s, marks, Apply(s, a), MarksAfter(s, a, marks))
    ensures var s', w := Apply(s, a), s.threads[t].stack[marks[t]].worker;
      NeedsProducer(s', w) && Free(s', MarksAfter(s, a, marks)) == {} && SameThread(s, s', t)
      && !IsSplit(s', t, marks[t])
  {
    hide Apply, Enabled, Safe, MarksAfter, Free, HeldInside, IsStarved, PieceInside, StackOk, WorkerLinked, VoiceLinked;
    assert ThreadOk(s, t) && FrameOk(s, t, marks[t]);
    assert Settled(s, marks, t);
    SettledStays(s, a, marks, t);
    NeedyIsNotSplit(Apply(s, a), t);
    PoolIsFixed(s, a);
    FreeShrinks(s, Apply(s, a), marks, MarksAfter(s, a, marks));
  }

  lemma KnotStep(s: State, a: Action, marks: Marks)
    requires Safe(s) && Linked(s) && Enabled(s, a) && Knot(s, marks)
    ensures Knot(Apply(s, a), MarksAfter(s, a, marks))
  {
    hide Apply, Enabled, Safe, Linked, Tied;
    var marks' := MarksAfter(s, a, marks);
    forall t | t in marks' ensures Tied(Apply(s, a), marks', t) {
      if marks' != marks && t == a.thread {
        StartHasCalls(s, a);
        StartedOnTheLast(s, a, marks);
      } else {
        TiedStep(s, a, marks, t);
      }
    }
  }

  lemma StartHasCalls(s: State, a: Action)
    requires Enabled(s, a) && a.Start?
    ensures s.workers != map[]
  {
  }

  // ---------- For ever ----------

  // Everything at or below the marks of a knot is still there.
  ghost predicate KeepsFrames(s: State, marks: Marks, s': State) {
    forall t, i: nat | Inside(marks, t, i) :: SameFrame(s, s', t, i)
  }

  lemma FramesStep(s: State, a: Action, marks: Marks)
    requires Safe(s) && Linked(s) && Enabled(s, a) && Knot(s, marks)
    ensures KeepsFrames(s, marks, Apply(s, a))
  {
    hide Apply, Enabled, Safe, Linked, Knot;
    forall t, i: nat | Inside(marks, t, i) ensures SameFrame(s, Apply(s, a), t, i) {
      InsideStays(s, a, marks, t, i);
    }
  }

  // A knot never loosens: whatever the run does next, every marked frame and all below it stay in
  // place, and the unloads and receives on top of marked threads wait on unchanged stacks.
  lemma {:induction false} KnotIsForever(r: seq<State>, i: nat, j: nat, marks: Marks) returns (marks': Marks)
    requires IsRun(r) && i <= j < |r| && Knot(r[i], marks)
    ensures Knot(r[j], marks') && Extends(marks, marks')
    ensures KeepsFrames(r[i], marks, r[j]) && KeepsSettled(r[i], marks, r[j], marks')
    decreases j - i
  {
    hide Apply, Enabled, Safe, Linked, Settled;
    if i == j {
      marks' := marks;
      NothingMoves(r[i], marks);
    } else {
      var before := KnotIsForever(r, i, j - 1, marks);
      SafeRun(r, j - 1);
      LinkedRun(r, j - 1);
      assert StepAt(r, j - 1);
      var a :| Enabled(r[j - 1], a) && r[j] == Apply(r[j - 1], a);
      marks' := MarksAfter(r[j - 1], a, before);
      KnotStep(r[j - 1], a, before);
      MarksGrow(r[j - 1], a, before);
      FramesStep(r[j - 1], a, before);
      FramesAgain(r[i], r[j - 1], r[j], marks, before);
      SettledAgain(r[i], r[j - 1], r[j], marks, before, marks');
    }
  }

  lemma NothingMoves(s: State, marks: Marks)
    requires Knot(s, marks)
    ensures KeepsFrames(s, marks, s) && KeepsSettled(s, marks, s, marks)
  {
    hide HeldInside, IsStarved, PieceInside, Free;
    forall t, i: nat | Inside(marks, t, i) ensures SameFrame(s, s, t, i) {
      assert Tied(s, marks, t);
    }
  }

  lemma FramesAgain(s: State, s1: State, s2: State, marks: Marks, marks1: Marks)
    requires KeepsFrames(s, marks, s1) && KeepsFrames(s1, marks1, s2) && Extends(marks, marks1)
    ensures KeepsFrames(s, marks, s2)
  {
    forall t, i: nat | Inside(marks, t, i) ensures SameFrame(s, s2, t, i) {
      assert SameFrame(s, s1, t, i);
      assert Inside(marks1, t, i) && SameFrame(s1, s2, t, i);
    }
  }

  lemma SettledAgain(s: State, s1: State, s2: State, marks: Marks, marks1: Marks, marks2: Marks)
    requires KeepsSettled(s, marks, s1, marks1) && KeepsSettled(s1, marks1, s2, marks2)
    ensures KeepsSettled(s, marks, s2, marks2)
  {
    hide Settled;
    forall t | Settled(s, marks, t) ensures SameThread(s, s2, t) && Settled(s2, marks2, t) {
      assert SameThread(s, s1, t) && Settled(s1, marks1, t);
      assert SameThread(s1, s2, t);
    }
  }

  // ---------- How knots arise ----------

  // The cell records only the innermost job: unloading a voice that owns an outer job of the same
  // thread is not recognised as the voice's own callback, and the thread waits for itself.
  lemma OuterJobUnloadDeadlocks(r: seq<State>, i: nat, v: Voice, t: Thread, k: nat)
    requires IsRun(r) && i < |r| && Enabled(r[i], BeginUnload(v, t))
    requires HoldsVoice(r[i], v, t, k) && Innermost(r[i].threads[t].stack) != Some(v)
    ensures var s' := Apply(r[i], BeginUnload(v, t));
      IsWaiting(s', t) && Knot(s', map[t := |r[i].threads[t].stack|]) && Knotted(s', t)
  {
    hide RunsCallerCode;
    var s', marks: Marks := Apply(r[i], BeginUnload(v, t)), map[t := |r[i].threads[t].stack|];
    ActiveIsInnermost(r, i, t);
    assert Inside(marks, t, k) && HoldsVoice(s', v, t, k);
    assert Tied(s', marks, t);
  }

  // Two unloads that wait for jobs under each other are a knot.
  lemma MutualWaitsAreAKnot(s: State, t1: Thread, t2: Thread, k1: nat, k2: nat)
    requires IsWaiting(s, t1) && IsWaiting(s, t2)
    requires HoldsVoice(s, Top(s.threads[t1]).voice, t2, k2) && HoldsVoice(s, Top(s.threads[t2]).voice, t1, k1)
    ensures Knotted(s, t1) && Knotted(s, t2)
  {
    var marks: Marks := map[t1 := |s.threads[t1].stack| - 1, t2 := |s.threads[t2].stack| - 1];
    assert Inside(marks, t1, k1) && Inside(marks, t2, k2);
    assert Tied(s, marks, t1) && Tied(s, marks, t2);
    assert Knot(s, marks);
  }
}
