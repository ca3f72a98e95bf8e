/**
 A condition a caller can keep: as long as no callback waits in an unload, and fewer realtime calls
 are under way than the pool has threads, no thread is knotted. Pieces alone never deadlock,
 because a piece is always younger than the work it was taken from.
 */
module UnloadPool {
  import opened Wrappers
  import opened CallbackTokens
  import opened UnloadProtocol
  import opened UnloadSafety
  import opened UnloadStacks
  import opened UnloadKnots
  import opened UnloadProgress

  // ---------- The age of a frame ----------

  predicate HasFrame(s: State, t: Thread, i: nat) {
    t in s.threads && i < |s.threads[t].stack|
  }

  // The state of the run in which the frame that now has this place was pushed.
  function Birth(r: seq<State>, n: nat, t: Thread, i: nat): (b: nat)
    requires n < |r|
    ensures b <= n
  {
    if n > 0 && HasFrame(r[n - 1], t, i) then Birth(r, n - 1, t, i) else n
  }

  lemma {:induction false} HigherIsYounger(r: seq<State>, n: nat, t: Thread, i: nat, j: nat)
    requires n < |r| && i <= j && HasFrame(r[n], t, j)
    ensures Birth(r, n, t, i) <= Birth(r, n, t, j)
  {
    if n > 0 && HasFrame(r[n - 1], t, j) {
      HigherIsYounger(r, n - 1, t, i, j);
    }
  }

  // A piece that has kept its place was the same piece before.
  lemma PieceStep(s: State, a: Action, home: Thread, level: nat, t: Thread, i: nat)
    requires Safe(s) && Linked(s) && Enabled(s, a) && IsPieceOf(Apply(s, a), home, level, t, i)
    ensures HasFrame(s, home, level)
    ensures HasFrame(s, t, i) ==> IsPieceOf(s, home, level, t, i)
  {
    hide Apply, Enabled, ChangeOf, Safe, StackOk, IsPaused, WorkerLinked, VoiceLinked;
    if t in s.threads {
      ChangeApplies(s, a, t);
      if i < |s.threads[t].stack| {
        assert ThreadOk(s, t) && FrameOk(s, t, i);
      } else {
        StolenFromTop(s, a, t);
      }
    } else {
      NewThreadIsIdle(s, a, t);
    }
  }

  lemma StolenFromTop(s: State, a: Action, t: Thread)
    requires Enabled(s, a) && t in s.threads && ChangeOf(s, a, t).Pushed? && ChangeOf(s, a, t).frame.Piece?
    ensures HasFrame(s, ChangeOf(s, a, t).frame.home, ChangeOf(s, a, t).frame.level)
  {
    hide CanTakeJob, RunsCallerCode;
  }

  // A piece is younger than the work it was taken from.
  lemma {:induction false} PieceIsYounger(r: seq<State>, n: nat, home: Thread, level: nat, t: Thread, i: nat)
    requires IsRun(r) && n < |r| && IsPieceOf(r[n], home, level, t, i)
    ensures Birth(r, n, home, level) < Birth(r, n, t, i)
  {
    hide Apply, Enabled, Safe, Linked;
    if n > 0 {
      SafeRun(r, n - 1);
      LinkedRun(r, n - 1);
      assert StepAt(r, n - 1);
      var a :| Enabled(r[n - 1], a) && r[n] == Apply(r[n - 1], a);
      PieceStep(r[n - 1], a, home, level, t, i);
      if HasFrame(r[n - 1], t, i) {
        PieceIsYounger(r, n - 1, home, level, t, i);
      }
    }
  }

  // ---------- Spare threads ----------

  function RealtimeCalls(s: State): set<Worker> {
    set w | w in s.workers && s.workers[w].mode.Realtime? && !s.workers[w].phase.Ended?
  }

  ghost predicate HasSpareThreads(s: State) {
    && (forall t | t in Pool(s) :: !IsWaiting(s, t))
    && |RealtimeCalls(s)| < |Pool(s)|
  }

  function ThreadsOf(s: State, calls: set<Worker>): set<Thread> {
    set w | w in calls && w in s.workers :: s.workers[w].thread
  }

  lemma {:induction false} AtMostOneThreadEach(s: State, calls: set<Worker>)
    requires calls <= s.workers.Keys
    ensures |ThreadsOf(s, calls)| <= |calls|
  {
    if calls != {} {
      var w :| w in calls;
      AtMostOneThreadEach(s, calls - {w});
      assert ThreadsOf(s, calls) == ThreadsOf(s, calls - {w}) + {s.workers[w].thread};
    }
  }

  // The pool threads that are not free have a realtime call each.
  lemma FewSettled(s: State, marks: Marks, queued: set<Worker>)
    requires Linked(s) && HasSpareThreads(s) && queued <= RealtimeCalls(s)
    requires forall w | w in queued :: s.workers[w].phase.Queued?
    ensures |Free(s, marks)| > |queued|
  {
    hide Linked, Settled, Pool, ThreadsOf;
    var busy, calls := Pool(s) - Free(s, marks), RealtimeCalls(s) - queued;
    assert Pool(s) == busy + Free(s, marks);
    assert RealtimeCalls(s) == calls + queued;
    AtMostOneThreadEach(s, calls);
    forall t | t in busy ensures t in ThreadsOf(s, calls) {
      SettledCall(s, marks, queued, t);
    }
    Subset(busy, ThreadsOf(s, calls));
  }

  lemma SettledCall(s: State, marks: Marks, queued: set<Worker>, t: Thread)
    requires Linked(s) && HasSpareThreads(s) && t in Pool(s) && Settled(s, marks, t) && queued <= RealtimeCalls(s)
    requires forall w | w in queued :: s.workers[w].phase.Queued?
    ensures t in ThreadsOf(s, RealtimeCalls(s) - queued)
  {
    hide Linked;
    var w := Top(s.threads[t]).worker;
    TopJob(s, t);
    assert w in RealtimeCalls(s) - queued;
  }

  // With spare threads nothing on a pool thread is stuck: its pieces would lead to ever younger
  // frames.
  lemma {:induction false} PoolThreadIsNotTied(r: seq<State>, n: nat, marks: Marks, t: Thread)
    requires IsRun(r) && n < |r| && HasSpareThreads(r[n]) && Knot(r[n], marks) && t in Pool(r[n])
    ensures t !in marks
    decreases n - (if t in marks then Birth(r, n, t, marks[t]) else 0)
  {
    hide IsRun, Safe, Linked, HasSpareThreads, Knot, Free, HeldInside, IsStarved, NeedsProducer, Birth;
    LinkedRun(r, n);
    if t in marks {
      var s := r[n];
      FewSettled(s, marks, {});
      TiedByPiece(s, marks, t);
      var t2, i: nat :| Inside(marks, t2, i) && IsPieceOf(s, t, marks[t], t2, i);
      PieceOnPool(s, marks, t2, i);
      PieceIsYounger(r, n, t, marks[t], t2, i);
      HigherIsYounger(r, n, t2, i, marks[t2]);
      PoolThreadIsNotTied(r, n, marks, t2);
    }
  }

  lemma TiedByPiece(s: State, marks: Marks, t: Thread)
    requires Linked(s) && HasSpareThreads(s) && Knot(s, marks) && t in Pool(s) && t in marks && Free(s, marks) != {}
    ensures PieceInside(s, marks, t, marks[t])
  {
    hide HeldInside, IsStarved, PieceInside, Free, NeedsProducer, StackOk;
    assert Tied(s, marks, t);
    assert ThreadOk(s, t) && FrameOk(s, t, marks[t]);
  }

  lemma PieceOnPool(s: State, marks: Marks, t: Thread, i: nat)
    requires Linked(s) && Knot(s, marks) && Inside(marks, t, i)
    requires t in s.threads && i < |s.threads[t].stack| && s.threads[t].stack[i].Piece?
    ensures t in Pool(s) && HasFrame(s, t, marks[t])
  {
    hide HeldInside, IsStarved, PieceInside, Free, NeedsProducer, StackOk;
    assert Tied(s, marks, t);
    assert ThreadOk(s, t) && FrameOk(s, t, i);
  }

  lemma HolderOnPool(s: State, v: Voice, t: Thread, i: nat)
    requires Linked(s) && HoldsVoice(s, v, t, i)
    ensures t in Pool(s)
  {
    hide StackOk;
    assert ThreadOk(s, t) && FrameOk(s, t, i);
  }

  // With spare threads nothing that rests is stuck.
  lemma SpareThreadsLeaveNoKnot(r: seq<State>, t: Thread)
    requires r != [] && IsRun(r) && HasSpareThreads(Last(r)) && Rests(Last(r), t)
    ensures !Knotted(Last(r), t)
  {
    hide IsRun, Linked, HasSpareThreads, Free, HeldInside, IsStarved, NeedsProducer, Knot;
    var s := Last(r);
    ReachedState(r);
    forall marks | t in marks && marks[t] == |s.threads[t].stack| - 1 ensures !Knot(s, marks) {
      if Knot(s, marks) {
        RestIsNotTied(r, marks, t);
      }
    }
  }

  lemma RestIsNotTied(r: seq<State>, marks: Marks, t: Thread)
    requires r != [] && IsRun(r) && HasSpareThreads(Last(r)) && Rests(Last(r), t)
    requires t in marks && marks[t] == |Last(r).threads[t].stack| - 1
    ensures !Knot(Last(r), marks)
  {
    hide IsRun, Linked, Free, NeedsProducer, Pool, RealtimeCalls, HasSpareThreads;
    var s := Last(r);
    ReachedState(r);
    if Knot(s, marks) {
      assert Tied(s, marks, t);
      FewSettled(s, marks, {});
      if IsWaiting(s, t) {
        var v := Top(s.threads[t]).voice;
        if HeldInside(s, marks, v) {
          var t2, i: nat :| Inside(marks, t2, i) && HoldsVoice(s, v, t2, i);
          HolderOnPool(s, v, t2, i);
          PoolThreadIsNotTied(r, |r| - 1, marks, t2);
        } else {
          var w :| IsQueued(s, v, w) && |Free(s, marks)| < Demand(s.workers[w]);
          EnoughForQueued(s, marks, w);
        }
      } else {
        NeedyIsNotSplit(s, t);
      }
    }
  }

  lemma EnoughForQueued(s: State, marks: Marks, w: Worker)
    requires Linked(s) && HasSpareThreads(s) && w in s.workers && s.workers[w].phase.Queued?
    ensures |Free(s, marks)| >= Demand(s.workers[w])
  {
    hide Linked, Free, Pool;
    FewSettled(s, marks, if Demand(s.workers[w]) == 2 then {w} else {});
  }

  // With spare threads every waiting unload can return.
  lemma SpareThreadsLetUnloadsReturn(r: seq<State>, t: Thread)
    requires r != [] && IsRun(r) && HasSpareThreads(Last(r)) && IsWaiting(Last(r), t)
    ensures CanReturn(r, Top(Last(r).threads[t]).voice)
  {
    hide IsRun, HasSpareThreads, Knotted, CanReturn;
    SpareThreadsLeaveNoKnot(r, t);
    ReturnsIffNotKnotted(r, t);
  }
}
