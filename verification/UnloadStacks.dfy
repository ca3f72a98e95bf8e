/**
 Thread stacks in the unload protocol. The thread-local cell always names the voice of the
 innermost pool job on its thread, and every running call owns exactly one stack frame.
 */
module UnloadStacks {
  import opened Wrappers
  import opened CallbackTokens
  import opened UnloadProtocol
  import opened UnloadSafety

  // The voice of the innermost pool job that has not put the cell back yet.
  function Innermost(stack: seq<Frame>): Option<Voice> {
    if stack == [] then None
    else
      var top := stack[|stack| - 1];
      if top.Job? && top.nonblocking && !top.restored then Some(top.voice) else Innermost(stack[..|stack| - 1])
  }

  // The value a job found in the cell is the innermost voice below its own frame.
  predicate SavedOk(stack: seq<Frame>, i: nat)
    requires i < |stack|
  {
    stack[i].Job? && stack[i].nonblocking ==> stack[i].saved == Innermost(stack[..i])
  }

  // A frame that another one may lie on.
  predicate Carries(f: Frame) {
    !f.Unloading? && !(f.Job? && f.restored)
  }

  ghost predicate StackOk(ts: ThreadState) {
    && ts.active == Innermost(ts.stack)
    && (forall i | 0 <= i < |ts.stack| :: SavedOk(ts.stack, i))
    && (forall i | 0 <= i < |ts.stack| - 1 :: Carries(ts.stack[i]))
  }

  lemma SavedOfPrefix(long: seq<Frame>, short: seq<Frame>, i: nat)
    requires i < |short| <= |long| && short == long[..|short|]
    ensures SavedOk(long, i) <==> SavedOk(short, i)
  {
    assert long[..i] == short[..i];
  }

  lemma PushKeepsStack(ts: ThreadState, f: Frame, active: Option<Voice>)
    requires StackOk(ts)
    requires ts.stack != [] ==> Carries(Top(ts))
    requires f.Job? && f.nonblocking ==> f.saved == ts.active
    requires active == if f.Job? && f.nonblocking && !f.restored then Some(f.voice) else ts.active
    ensures StackOk(Push(ts, f).(active := active))
  {
    var stack' := ts.stack + [f];
    assert stack'[..|ts.stack|] == ts.stack;
    forall i | 0 <= i < |stack'| ensures SavedOk(stack', i) {
      if i < |ts.stack| {
        SavedOfPrefix(stack', ts.stack, i);
      }
    }
  }

  lemma PopKeepsStack(ts: ThreadState)
    requires StackOk(ts) && ts.stack != []
    ensures StackOk(Pop(ts).(active := Innermost(Pop(ts).stack)))
  {
    forall i | 0 <= i < |ts.stack| - 1 ensures SavedOk(Pop(ts).stack, i) {
      SavedOfPrefix(ts.stack, Pop(ts).stack, i);
    }
  }

  // ---------- Frames and calls ----------

  // Frame i of thread t is work that has pieces to give away.
  predicate IsSplit(s: State, t: Thread, i: nat) {
    && t in s.threads && i < |s.threads[t].stack|
    && match s.threads[t].stack[i]
       case Job(w, _, _, _, _) => w in s.workers && Splits(s.workers[w])
       case Piece(_, _) => true
       case Unloading(_) => false
  }

  // Below the top of a stack there is only work that is split or inside a callback.
  predicate IsPaused(s: State, t: Thread, i: nat)
    requires t in s.threads && i < |s.threads[t].stack|
  {
    || IsSplit(s, t, i)
    || (var f := s.threads[t].stack[i]; f.Job? && f.worker in s.workers && s.workers[f.worker].phase.InCallback?)
  }

  predicate FrameOk(s: State, t: Thread, i: nat)
    requires t in s.threads && i < |s.threads[t].stack|
  {
    && (i < |s.threads[t].stack| - 1 ==> IsPaused(s, t, i))
    && match s.threads[t].stack[i]
       case Job(w, v, nonblocking, _, restored) =>
         && w in s.workers && OnStack(s.workers[w].phase)
         && s.workers[w].thread == t && s.workers[w].depth == i
         && s.workers[w].voice == v && s.workers[w].nonblocking == nonblocking
         && (restored <==> s.workers[w].phase.Releasing?)
         && (nonblocking ==> s.threads[t].pool)
       case Piece(home, level) => s.threads[t].pool && IsSplit(s, home, level)
       case Unloading(v) => v in s.voices && WaitsOn(s.voices[v].unload, t)
  }

  predicate WaitsOn(u: Unload, t: Thread) {
    u == Checking(t) || u == Asleep(t)
  }

  ghost predicate ThreadOk(s: State, t: Thread)
    requires t in s.threads
  {
    StackOk(s.threads[t]) && forall i | 0 <= i < |s.threads[t].stack| :: FrameOk(s, t, i)
  }

  predicate WorkerLinked(s: State, w: Worker)
    requires w in s.workers
  {
    OnStack(s.workers[w].phase) ==>
      && s.workers[w].thread in s.threads
      && s.workers[w].depth < |s.threads[s.workers[w].thread].stack|
      && var f := s.threads[s.workers[w].thread].stack[s.workers[w].depth]; f.Job? && f.worker == w
  }

  predicate VoiceLinked(s: State, v: Voice)
    requires v in s.voices
  {
    s.voices[v].unload.Checking? || s.voices[v].unload.Asleep? ==>
      var t := s.voices[v].unload.waiter;
      t in s.threads && s.threads[t].stack != [] && Top(s.threads[t]) == Unloading(v)
  }

  ghost predicate Linked(s: State) {
    && (forall t | t in s.threads :: ThreadOk(s, t))
    && (forall w | w in s.workers :: WorkerLinked(s, w))
    && (forall v | v in s.voices :: VoiceLinked(s, v))
  }

  predicate MovesCall(a: Action, w: Worker) {
    (a.Run? || a.RestoreActive? || a.DropGuard?) && a.worker == w
  }

  // The same call, up to its producer and its flag.
  predicate Alike(ws: WorkerState, ws': WorkerState) {
    ws' == ws.(producer := ws'.producer, cancelled := ws'.cancelled)
  }

  // A call that is on a stack moves only by its own step, made from the top of its thread.
  lemma OnStackMoves(s: State, a: Action, w: Worker)
    requires Enabled(s, a) && w in s.workers && OnStack(s.workers[w].phase) && !MovesCall(a, w)
    ensures w in Apply(s, a).workers && Alike(s.workers[w], Apply(s, a).workers[w])
  {
    hide Apply, NextPhase, Advance, CanTakeJob, RunsCallerCode;
    OnlyActingWorker(s, a);
  }

  // A waiting unload keeps waiting on its thread until it finishes.
  lemma WaitKept(s: State, a: Action, v: Voice, t: Thread)
    requires Enabled(s, a) && v in s.voices && WaitsOn(s.voices[v].unload, t) && a != FinishUnload(v)
    ensures v in Apply(s, a).voices && WaitsOn(Apply(s, a).voices[v].unload, t)
  {
    hide Apply, WorkersAfter, ThreadsAfter, NextPhase, CanTakeJob, RunsCallerCode, OnTop;
    PartsOfApply(s, a);
  }

  // What an action can do to the stack it touches.
  datatype StackChange = Untouched | Pushed(frame: Frame, active: Option<Voice>) | Popped | Restored

  ghost function ChangeOf(s: State, a: Action, t: Thread): StackChange
    requires Enabled(s, a) && t in s.threads
  {
    match a
    case Start(w, t') =>
      if t' == t then Pushed(Job(w, s.workers[w].voice, true, s.threads[t].active, false), Some(s.workers[w].voice))
      else Untouched
    case EnterBlocking(w, v, _, _, t') =>
      if t' == t then Pushed(Job(w, v, false, None, false), s.threads[t].active) else Untouched
    case Run(w, m) => if s.workers[w].thread == t && !OnStack(CallAfter(s, a).phase) then Popped else Untouched
    case Steal(t', home) =>
      if t' == t then Pushed(Piece(home, |s.threads[home].stack| - 1), s.threads[t].active) else Untouched
    case FinishPiece(t') => if t' == t then Popped else Untouched
    case RestoreActive(w) => if s.workers[w].thread == t then Restored else Untouched
    case DropGuard(w) => if s.workers[w].thread == t then Popped else Untouched
    case BeginUnload(v, t') =>
      if t' == t && s.threads[t].active != Some(v) then Pushed(Unloading(v), s.threads[t].active) else Untouched
    case FinishUnload(v) => if s.voices[v].unload.waiter == t then Popped else Untouched
    case _ => Untouched
  }

  lemma ChangeApplies(s: State, a: Action, t: Thread)
    requires Enabled(s, a) && t in s.threads
    ensures t in Apply(s, a).threads
    ensures var ts, ts' := s.threads[t], Apply(s, a).threads[t];
      && ts'.pool == ts.pool
      && match ChangeOf(s, a, t)
         case Untouched => ts' == ts
         case Pushed(f, active) => ts' == Push(ts, f).(active := active)
         case Popped => ts.stack != [] && ts' == Pop(ts)
         case Restored =>
           && ts.stack != [] && Top(ts).Job?
           && ts' == Push(Pop(ts), Top(ts).(restored := true)).(active := Top(ts).saved)
  {
    hide Apply, NextPhase, CanTakeJob, RunsCallerCode, IsJoining, CanSplit, CallAfter;
    PartsOfApply(s, a);
  }

  lemma NewThreadIsIdle(s: State, a: Action, t: Thread)
    requires Enabled(s, a) && t in Apply(s, a).threads && t !in s.threads
    ensures a.NewThread? && Apply(s, a).threads[t] == ThreadState(a.pool, None, []) && (a.pool ==> s.workers == map[])
  {
    hide Apply, NextPhase, IsJoining, CallAfter, HasPieces;
    PartsOfApply(s, a);
  }

  // The call of a job frame on top of its thread is on top.
  lemma TopJob(s: State, t: Thread)
    requires Linked(s) && t in s.threads && s.threads[t].stack != [] && Top(s.threads[t]).Job?
    ensures OnTop(s, Top(s.threads[t]).worker) && s.workers[Top(s.threads[t]).worker].thread == t
    ensures IsSplit(s, t, |s.threads[t].stack| - 1) <==> CanSplit(s, t)
  {
    assert ThreadOk(s, t) && FrameOk(s, t, |s.threads[t].stack| - 1);
  }

  // A frame is pushed only on work that is paused.
  lemma PushedOnPaused(s: State, a: Action, t: Thread)
    requires Linked(s) && Enabled(s, a) && t in s.threads && ChangeOf(s, a, t).Pushed? && s.threads[t].stack != []
    ensures IsPaused(s, t, |s.threads[t].stack| - 1) && Carries(Top(s.threads[t]))
    ensures Acting(a).Some? && Top(s.threads[t]).Job? ==> Acting(a).value != Top(s.threads[t]).worker
  {
    hide NextPhase, Advance, CallAfter, HasPieces;
    assert ThreadOk(s, t) && FrameOk(s, t, |s.threads[t].stack| - 1);
  }

  // A call steps, and a piece or an unload ends, only on top of its thread; none of them while it
  // waits for a piece.
  lemma ChangedOnTop(s: State, a: Action, t: Thread)
    requires Safe(s) && Linked(s) && Enabled(s, a) && t in s.threads
    requires ChangeOf(s, a, t).Popped? || ChangeOf(s, a, t).Restored?
    ensures s.threads[t].stack != []
    ensures !(IsSplit(s, t, |s.threads[t].stack| - 1) && HasPieces(s, t, |s.threads[t].stack| - 1))
    ensures var top := Top(s.threads[t]);
      if ChangeOf(s, a, t).Restored? then top.Job? && top.nonblocking && !top.restored && MovesCall(a, top.worker)
      else match top
           case Job(w, _, nonblocking, _, restored) => MovesCall(a, w) && (nonblocking ==> restored)
           case Piece(_, _) => a.FinishPiece?
           case Unloading(v) => a == FinishUnload(v)
  {
    if a.FinishUnload? {
      hide HasPieces, StackOk, ThreadOk;
      assert VoiceLinked(s, a.voice);
    } else if a.Run? {
      hide Safe, Enabled, StackOk, ChangeOf;
      RunPops(s, a, t);
    } else {
      hide HasPieces, StackOk, CanTakeJob, RunsCallerCode, CallAfter;
      assert s.threads[t].stack != [];
      assert ThreadOk(s, t) && FrameOk(s, t, |s.threads[t].stack| - 1);
      assert a.RestoreActive? ==> PhaseOk(s.workers[a.worker]);
    }
  }

  // A move pops the frame of a blocking call that is not waiting for a piece.
  lemma RunPops(s: State, a: Action, t: Thread)
    requires Linked(s) && Enabled(s, a) && a.Run? && t in s.threads && !ChangeOf(s, a, t).Untouched?
    ensures ChangeOf(s, a, t).Popped? && s.threads[t].stack != []
    ensures !(IsSplit(s, t, |s.threads[t].stack| - 1) && HasPieces(s, t, |s.threads[t].stack| - 1))
    ensures var top := Top(s.threads[t]); top.Job? && top.worker == a.worker && !top.nonblocking
  {
    hide HasPieces, StackOk, NextPhase, Advance;
    RunAdvances(s, a.worker, a.move);
    AdvanceKeepsGuard(s.workers[a.worker], a.move, s.voices[s.workers[a.worker].voice].closing);
    assert ThreadOk(s, t) && FrameOk(s, t, |s.threads[t].stack| - 1);
  }

  lemma StackStep(s: State, a: Action, t: Thread)
    requires Safe(s) && Linked(s) && Enabled(s, a) && t in Apply(s, a).threads
    ensures StackOk(Apply(s, a).threads[t])
  {
    hide Apply, Enabled, ChangeOf, Safe, FrameOk, HasPieces;
    if t !in s.threads {
      NewThreadIsIdle(s, a, t);
      return;
    }
    var ts := s.threads[t];
    assert ThreadOk(s, t);
    ChangeApplies(s, a, t);
    match ChangeOf(s, a, t)
    case Pushed(f, active) =>
      if ts.stack != [] {
        PushedOnPaused(s, a, t);
      }
      PushedFrame(s, a, t);
      PushKeepsStack(ts, f, active);
    case Popped =>
      ChangedOnTop(s, a, t);
      PopKeepsStack(ts);
    case Restored =>
      ChangedOnTop(s, a, t);
      PopKeepsStack(ts);
      assert SavedOk(ts.stack, |ts.stack| - 1);
      var below := Pop(ts).(active := Top(ts).saved);
      assert StackOk(below);
      if below.stack != [] {
        assert Top(below) == ts.stack[|ts.stack| - 2];
      }
      PushKeepsStack(below, Top(ts).(restored := true), below.active);
    case _ =>
  }

  lemma PushedFrame(s: State, a: Action, t: Thread)
    requires Enabled(s, a) && t in s.threads && ChangeOf(s, a, t).Pushed?
    ensures var f, active := ChangeOf(s, a, t).frame, s.threads[t].active;
      && (f.Job? && f.nonblocking ==> f.saved == active && !f.restored)
      && ChangeOf(s, a, t).active == if f.Job? && f.nonblocking then Some(f.voice) else active
  {
    hide NextPhase, CanTakeJob, RunsCallerCode, CallAfter;
  }

  // ---------- Frames that stay ----------

  // Frame i of thread t is still there after the action.
  predicate SameFrame(s: State, s': State, t: Thread, i: nat) {
    && t in s.threads && i < |s.threads[t].stack| && t in s'.threads && i < |s'.threads[t].stack|
    && s'.threads[t].stack[i] == s.threads[t].stack[i]
  }

  // Only the top of a stack is ever popped or changed.
  lemma BelowTopStays(s: State, a: Action, t: Thread, i: nat)
    requires Enabled(s, a) && t in s.threads && i < |s.threads[t].stack|
    requires i == |s.threads[t].stack| - 1 ==> !ChangeOf(s, a, t).Popped? && !ChangeOf(s, a, t).Restored?
    ensures SameFrame(s, Apply(s, a), t, i)
  {
    hide Apply, Enabled, ChangeOf;
    ChangeApplies(s, a, t);
  }

  // Split work with a piece elsewhere stays where it is, and stays split.
  lemma SplitStays(s: State, a: Action, t: Thread, i: nat)
    requires Safe(s) && Linked(s) && Enabled(s, a) && IsSplit(s, t, i) && HasPieces(s, t, i)
    ensures SameFrame(s, Apply(s, a), t, i) && IsSplit(Apply(s, a), t, i)
  {
    hide Apply, Enabled, ChangeOf, Safe, HasPieces, StackOk;
    assert ThreadOk(s, t) && FrameOk(s, t, i);
    if i == |s.threads[t].stack| - 1 && (ChangeOf(s, a, t).Popped? || ChangeOf(s, a, t).Restored?) {
      ChangedOnTop(s, a, t);
      assert false;
    }
    BelowTopStays(s, a, t, i);
    var f := s.threads[t].stack[i];
    if f.Job? {
      if MovesCall(a, f.worker) {
        SplitCallRests(s, a, t, i);
      } else {
        OnStackMoves(s, a, f.worker);
      }
    }
  }

  // A call that waits for a piece makes no step.
  lemma SplitCallRests(s: State, a: Action, t: Thread, i: nat)
    requires Linked(s) && Enabled(s, a) && IsSplit(s, t, i) && HasPieces(s, t, i) && s.threads[t].stack[i].Job?
    ensures !MovesCall(a, s.threads[t].stack[i].worker)
  {
    hide HasPieces, StackOk, NextPhase;
    assert ThreadOk(s, t) && FrameOk(s, t, i) && FrameOk(s, t, |s.threads[t].stack| - 1);
  }

  // A call moves from the top of its thread.
  lemma MoverIsTop(s: State, a: Action, w: Worker)
    requires Linked(s) && Enabled(s, a) && MovesCall(a, w)
    ensures OnTop(s, w) && s.workers[w].depth == |s.threads[s.workers[w].thread].stack| - 1
  {
    hide HasPieces, StackOk, NextPhase, IsJoining;
    assert OnTop(s, w);
    var t := s.workers[w].thread;
    assert ThreadOk(s, t) && FrameOk(s, t, |s.threads[t].stack| - 1);
  }

  lemma PausedStays(s: State, a: Action, t: Thread, i: nat)
    requires Safe(s) && Linked(s) && Enabled(s, a) && t in s.threads && i < |s.threads[t].stack|
    requires SameFrame(s, Apply(s, a), t, i) && i < |Apply(s, a).threads[t].stack| - 1
    ensures IsPaused(Apply(s, a), t, i)
  {
    hide Apply, Enabled, ChangeOf, Safe, HasPieces, StackOk, WorkerLinked, VoiceLinked;
    assert ThreadOk(s, t) && FrameOk(s, t, i);
    ChangeApplies(s, a, t);
    if i == |s.threads[t].stack| - 1 {
      PushedOnPaused(s, a, t);
    }
    assert IsPaused(s, t, i);
    var f := s.threads[t].stack[i];
    if f.Job? {
      if MovesCall(a, f.worker) {
        MoverIsTop(s, a, f.worker);
        MovesDoNotPush(s, a, t);
        assert false;
      } else {
        OnStackMoves(s, a, f.worker);
      }
    }
  }

  lemma MovesDoNotPush(s: State, a: Action, t: Thread)
    requires Enabled(s, a) && t in s.threads && (a.Run? || a.RestoreActive? || a.DropGuard?)
    ensures !ChangeOf(s, a, t).Pushed?
  {
    hide Enabled, CallAfter;
  }

  // A frame that stays in place stays correct.
  lemma OldFrameStep(s: State, a: Action, t: Thread, i: nat)
    requires Safe(s) && Linked(s) && Enabled(s, a)
    requires SameFrame(s, Apply(s, a), t, i)
    requires i == |s.threads[t].stack| - 1 ==> !ChangeOf(s, a, t).Popped? && !ChangeOf(s, a, t).Restored?
    ensures FrameOk(Apply(s, a), t, i)
  {
    hide Apply, Enabled, ChangeOf, Safe, StackOk, HasPieces, IsPaused, IsSplit;
    hide WorkerLinked, VoiceLinked;
    assert ThreadOk(s, t) && FrameOk(s, t, i);
    ChangeApplies(s, a, t);
    if i < |Apply(s, a).threads[t].stack| - 1 {
      PausedStays(s, a, t, i);
    }
    match s.threads[t].stack[i]
    case Unloading(v) => WaitingFrameStays(s, a, t, i);
    case Piece(home, level) =>
      assert HasPieces(s, home, level) by { PieceIsOf(s, t, i); }
      SplitStays(s, a, home, level);
    case Job(w, _, _, _, _) =>
      if MovesCall(a, w) {
        MoverIsTop(s, a, w);
        MovesDoNotPush(s, a, t);
        MovedFrame(s, a, t);
      } else {
        OnStackMoves(s, a, w);
      }
  }

  lemma PieceIsOf(s: State, t: Thread, i: nat)
    requires t in s.threads && i < |s.threads[t].stack| && s.threads[t].stack[i].Piece?
    ensures HasPieces(s, s.threads[t].stack[i].home, s.threads[t].stack[i].level)
  {
    assert Piece(s.threads[t].stack[i].home, s.threads[t].stack[i].level) in s.threads[t].stack;
  }

  lemma WaitingFrameStays(s: State, a: Action, t: Thread, i: nat)
    requires Linked(s) && Enabled(s, a) && SameFrame(s, Apply(s, a), t, i) && s.threads[t].stack[i].Unloading?
    requires i == |s.threads[t].stack| - 1 ==> !ChangeOf(s, a, t).Popped?
    ensures var v := s.threads[t].stack[i].voice;
      v in Apply(s, a).voices && WaitsOn(Apply(s, a).voices[v].unload, t)
  {
    hide Apply, StackOk, HasPieces, NextPhase, CanTakeJob, RunsCallerCode, CallAfter;
    assert ThreadOk(s, t) && FrameOk(s, t, i);
    WaitKept(s, a, s.threads[t].stack[i].voice, t);
  }

  // A move that leaves the call on its stack keeps its frame.
  lemma MovedFrame(s: State, a: Action, t: Thread)
    requires Safe(s) && Linked(s) && Enabled(s, a) && t in s.threads && ChangeOf(s, a, t).Untouched?
    requires s.threads[t].stack != [] && Top(s.threads[t]).Job? && MovesCall(a, Top(s.threads[t]).worker)
    ensures t in Apply(s, a).threads && Apply(s, a).threads[t].stack == s.threads[t].stack
    ensures FrameOk(Apply(s, a), t, |s.threads[t].stack| - 1)
  {
    hide Apply, Safe, StackOk, HasPieces, IsPaused, IsJoining, NextPhase, Advance;
    assert ThreadOk(s, t) && FrameOk(s, t, |s.threads[t].stack| - 1);
    ChangeApplies(s, a, t);
    OnlyActingWorker(s, a);
    assert a.Run?;
    var ws, closing := s.workers[a.worker], s.voices[s.workers[a.worker].voice].closing;
    RunAdvances(s, a.worker, a.move);
    AdvanceKeepsGuard(ws, a.move, closing);
    MoveNeverRestores(ws, a.move, closing);
  }

  lemma MoveNeverRestores(ws: WorkerState, m: Move, closing: bool)
    requires NextPhase(ws, m, closing).Some?
    ensures !ws.phase.Releasing? && !Advance(ws, m, closing).phase.Releasing?
  {
  }

  // A frame just pushed, or the frame of a job that has put the cell back.
  lemma NewFrameStep(s: State, a: Action, t: Thread)
    requires Safe(s) && Linked(s) && Enabled(s, a) && t in s.threads
    requires ChangeOf(s, a, t).Pushed? || ChangeOf(s, a, t).Restored?
    ensures t in Apply(s, a).threads && Apply(s, a).threads[t].stack != []
    ensures FrameOk(Apply(s, a), t, |Apply(s, a).threads[t].stack| - 1)
  {
    hide Apply, Enabled, Safe, Linked, FrameOk;
    ChangeApplies(s, a, t);
    match a
    case Steal(_, home) => StolenFrame(s, t, home);
    case BeginUnload(v, _) => WaitingFrame(s, v, t);
    case RestoreActive(w) => RestoredFrame(s, w, t);
    case Start(_, _) => StartedFrame(s, a, t);
    case EnterBlocking(_, _, _, _, _) => StartedFrame(s, a, t);
    case _ =>
  }

  lemma StartedFrame(s: State, a: Action, t: Thread)
    requires Safe(s) && Enabled(s, a) && (a.Start? || a.EnterBlocking?) && t == a.thread && t in s.threads
    ensures t in Apply(s, a).threads && |Apply(s, a).threads[t].stack| == |s.threads[t].stack| + 1
    ensures FrameOk(Apply(s, a), t, |s.threads[t].stack|)
  {
    hide Apply, IsJoining, RunsCallerCode, IsPaused, Guards;
    ChangeApplies(s, a, t);
    OnlyActingWorker(s, a);
    if a.Start? {
      assert PhaseOk(s.workers[a.worker]);
    }
  }

  lemma WaitingFrame(s: State, v: Voice, t: Thread)
    requires Enabled(s, BeginUnload(v, t)) && t in s.threads && s.threads[t].active != Some(v)
    ensures var s' := Apply(s, BeginUnload(v, t));
      && t in s'.threads && |s'.threads[t].stack| == |s.threads[t].stack| + 1
      && FrameOk(s', t, |s.threads[t].stack|)
  {
    hide RunsCallerCode, IsPaused;
  }

  lemma RestoredFrame(s: State, w: Worker, t: Thread)
    requires Linked(s) && Enabled(s, RestoreActive(w)) && t in s.threads && s.workers[w].thread == t
    ensures var s' := Apply(s, RestoreActive(w));
      && t in s'.threads && |s'.threads[t].stack| == |s.threads[t].stack|
      && FrameOk(s', t, |s.threads[t].stack| - 1)
  {
    hide Apply, StackOk, IsPaused;
    var a := RestoreActive(w);
    assert ThreadOk(s, t) && FrameOk(s, t, |s.threads[t].stack| - 1);
    ChangeApplies(s, a, t);
    OnlyActingWorker(s, a);
  }

  lemma StolenFrame(s: State, t: Thread, home: Thread)
    requires Linked(s) && Enabled(s, Steal(t, home)) && t in s.threads
    ensures var s' := Apply(s, Steal(t, home));
      && t in s'.threads && |s'.threads[t].stack| == |s.threads[t].stack| + 1
      && FrameOk(s', t, |s.threads[t].stack|)
  {
    hide Apply, HasPieces, StackOk, IsPaused;
    var a := Steal(t, home);
    ChangeApplies(s, a, t);
    ChangeApplies(s, a, home);
    OnlyActingWorker(s, a);
  }

  lemma FrameStep(s: State, a: Action, t: Thread, i: nat)
    requires Safe(s) && Linked(s) && Enabled(s, a)
    requires t in Apply(s, a).threads && i < |Apply(s, a).threads[t].stack|
    ensures FrameOk(Apply(s, a), t, i)
  {
    hide Apply, Enabled, Safe, Linked, FrameOk, ChangeOf;
    if t in s.threads {
      ChangeApplies(s, a, t);
      match ChangeOf(s, a, t)
      case Pushed(_, _) =>
        if i == |s.threads[t].stack| { NewFrameStep(s, a, t); } else { OldFrameStep(s, a, t, i); }
      case Restored =>
        if i == |s.threads[t].stack| - 1 { NewFrameStep(s, a, t); } else { OldFrameStep(s, a, t, i); }
      case _ => OldFrameStep(s, a, t, i);
    } else {
      NewThreadIsIdle(s, a, t);
    }
  }

  lemma WorkerStep(s: State, a: Action, w: Worker)
    requires Safe(s) && Linked(s) && Enabled(s, a) && w in Apply(s, a).workers
    ensures WorkerLinked(Apply(s, a), w)
  {
    hide Apply, Enabled, CallAfter, ChangeOf, Safe, ThreadOk;
    OnlyActingWorker(s, a);
    if w in s.workers && OnStack(s.workers[w].phase) {
      assert WorkerLinked(s, w);
      if MovesCall(a, w) {
        MoverStep(s, a);
      } else {
        OnStackMoves(s, a, w);
        OthersFrameStays(s, a, s.workers[w].thread, s.workers[w].depth);
      }
    } else if (a.Start? || a.EnterBlocking?) && a.worker == w {
      StarterStep(s, a);
    } else {
      StaysOffStack(s, a, w);
    }
  }

  lemma StaysOffStack(s: State, a: Action, w: Worker)
    requires Enabled(s, a) && w in Apply(s, a).workers
    requires w in s.workers ==> !OnStack(s.workers[w].phase)
    requires !((a.Start? || a.EnterBlocking?) && a.worker == w)
    ensures !OnStack(Apply(s, a).workers[w].phase)
  {
    hide Apply, NextPhase, Advance, CanTakeJob, RunsCallerCode;
    OnlyActingWorker(s, a);
  }

  lemma StarterStep(s: State, a: Action)
    requires Enabled(s, a) && (a.Start? || a.EnterBlocking?)
    ensures a.worker in Apply(s, a).workers && WorkerLinked(Apply(s, a), a.worker)
  {
    hide Apply, NextPhase, Advance, IsJoining;
    ChangeApplies(s, a, a.thread);
    OnlyActingWorker(s, a);
  }

  lemma MoverStep(s: State, a: Action)
    requires Safe(s) && Linked(s) && Enabled(s, a) && (a.Run? || a.RestoreActive? || a.DropGuard?)
    ensures a.worker in Apply(s, a).workers && WorkerLinked(Apply(s, a), a.worker)
  {
    hide Apply, Enabled, CallAfter, ChangeOf, Safe, StackOk, HasPieces;
    var w := a.worker;
    MoverIsTop(s, a, w);
    OnlyActingWorker(s, a);
    if OnStack(CallAfter(s, a).phase) {
      MoverStays(s, a);
      var t := s.workers[w].thread;
      ChangeApplies(s, a, t);
    }
  }

  lemma MoverStays(s: State, a: Action)
    requires Enabled(s, a) && (a.Run? || a.RestoreActive? || a.DropGuard?) && OnStack(CallAfter(s, a).phase)
    ensures OnTop(s, a.worker)
    ensures CallAfter(s, a).thread == s.workers[a.worker].thread && CallAfter(s, a).depth == s.workers[a.worker].depth
    ensures ChangeOf(s, a, s.workers[a.worker].thread).Untouched?
      || ChangeOf(s, a, s.workers[a.worker].thread).Restored?
  {
    hide IsJoining;
    if a.Run? {
      RunAdvances(s, a.worker, a.move);
      AdvanceKeepsGuard(s.workers[a.worker], a.move, s.voices[s.workers[a.worker].voice].closing);
    }
  }

  // The frame of a call that does not move stays.
  lemma OthersFrameStays(s: State, a: Action, t: Thread, i: nat)
    requires Safe(s) && Linked(s) && Enabled(s, a) && t in s.threads && i < |s.threads[t].stack|
    requires s.threads[t].stack[i].Job? && !MovesCall(a, s.threads[t].stack[i].worker)
    ensures SameFrame(s, Apply(s, a), t, i)
  {
    hide Apply, Enabled, ChangeOf, Safe, Linked, MovesCall, HasPieces;
    if i == |s.threads[t].stack| - 1 && (ChangeOf(s, a, t).Popped? || ChangeOf(s, a, t).Restored?) {
      ChangedOnTop(s, a, t);
    } else {
      BelowTopStays(s, a, t, i);
    }
  }

  lemma VoiceStep(s: State, a: Action, v: Voice)
    requires Safe(s) && Linked(s) && Enabled(s, a) && v in Apply(s, a).voices
    ensures VoiceLinked(Apply(s, a), v)
  {
    hide Apply, Enabled, Safe, ThreadOk;
    if v in s.voices && (s.voices[v].unload.Checking? || s.voices[v].unload.Asleep?) {
      assert VoiceLinked(s, v);
      var t := s.voices[v].unload.waiter;
      if a == FinishUnload(v) {
        WaitEnds(s, v);
      } else {
        WaitKept(s, a, v, t);
        WaitingThreadRests(s, a, v);
      }
    } else {
      WaitBegins(s, a, v);
      var u := Apply(s, a).voices[v].unload;
      if u.Checking? || u.Asleep? {
        ChangeApplies(s, a, a.thread);
      }
    }
  }

  lemma WaitEnds(s: State, v: Voice)
    requires Enabled(s, FinishUnload(v))
    ensures v in Apply(s, FinishUnload(v)).voices && Apply(s, FinishUnload(v)).voices[v].unload.Returned?
  {
  }

  // A voice gets a waiting unload only by beginning one that does not skip the wait.
  lemma WaitBegins(s: State, a: Action, v: Voice)
    requires Enabled(s, a) && v in Apply(s, a).voices
    requires v in s.voices ==> !s.voices[v].unload.Checking? && !s.voices[v].unload.Asleep?
    ensures var u := Apply(s, a).voices[v].unload;
      u.Checking? || u.Asleep? ==>
        && a.BeginUnload? && a.voice == v && u == Checking(a.thread)
        && a.thread in s.threads && s.threads[a.thread].active != Some(v)
  {
    hide Apply, NextPhase, CanTakeJob, OnTop;
    PartsOfApply(s, a);
  }

  // Nothing moves on a thread whose top frame is a waiting unload, except that unload.
  lemma WaitingThreadRests(s: State, a: Action, v: Voice)
    requires Safe(s) && Linked(s) && Enabled(s, a) && a != FinishUnload(v)
    requires v in s.voices && (s.voices[v].unload.Checking? || s.voices[v].unload.Asleep?)
    ensures var t := s.voices[v].unload.waiter;
      t in s.threads && t in Apply(s, a).threads && Apply(s, a).threads[t] == s.threads[t]
  {
    hide Apply, Enabled, ChangeOf, Safe, ThreadOk, HasPieces, IsPaused;
    assert VoiceLinked(s, v);
    var t := s.voices[v].unload.waiter;
    ChangeApplies(s, a, t);
    if ChangeOf(s, a, t).Pushed? {
      PushedOnPaused(s, a, t);
    } else if !ChangeOf(s, a, t).Untouched? {
      ChangedOnTop(s, a, t);
    }
  }

  lemma LinkedStep(s: State, a: Action)
    requires Safe(s) && Linked(s) && Enabled(s, a)
    ensures Linked(Apply(s, a))
  {
    hide Apply, Enabled, Safe, StackOk, FrameOk, WorkerLinked, VoiceLinked;
    forall t | t in Apply(s, a).threads ensures ThreadOk(Apply(s, a), t) {
      StackStep(s, a, t);
      forall i | 0 <= i < |Apply(s, a).threads[t].stack| ensures FrameOk(Apply(s, a), t, i) {
        FrameStep(s, a, t, i);
      }
    }
    forall w | w in Apply(s, a).workers ensures WorkerLinked(Apply(s, a), w) {
      WorkerStep(s, a, w);
    }
    forall v | v in Apply(s, a).voices ensures VoiceLinked(Apply(s, a), v) {
      VoiceStep(s, a, v);
    }
  }

  lemma {:induction false} LinkedRun(r: seq<State>, i: nat)
    requires IsRun(r) && i < |r|
    ensures Linked(r[i])
  {
    hide Apply, Enabled, Safe;
    if i > 0 {
      LinkedRun(r, i - 1);
      SafeRun(r, i - 1);
      assert StepAt(r, i - 1);
      var a :| Enabled(r[i - 1], a) && r[i] == Apply(r[i - 1], a);
      LinkedStep(r[i - 1], a);
    }
  }

  // Saving the cell when a job starts and restoring it when the job ends keeps it naming the
  // innermost pool job of the thread, through any nesting.
  lemma ActiveIsInnermost(r: seq<State>, i: nat, t: Thread)
    requires IsRun(r) && i < |r| && t in r[i].threads
    ensures r[i].threads[t].active == Innermost(r[i].threads[t].stack)
  {
    LinkedRun(r, i);
    assert ThreadOk(r[i], t);
  }

  // An unload skips the wait exactly when the innermost pool job of its thread is one of its own.
  lemma UnloadSkipsWaitIffOwnCallback(r: seq<State>, i: nat, v: Voice, t: Thread)
    requires IsRun(r) && i < |r| && Enabled(r[i], BeginUnload(v, t))
    ensures Apply(r[i], BeginUnload(v, t)).voices[v].unload.ReturnedFromOwnCallback?
            <==> Innermost(r[i].threads[t].stack) == Some(v)
  {
    ActiveIsInnermost(r, i, t);
  }
}
