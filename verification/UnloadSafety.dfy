/**
 What every reachable state of the unload protocol keeps, and the safety theorem built on it:
 once an unload has drained a voice, no later step delivers a callback for that voice.
 */
module UnloadSafety {
  import opened Wrappers
  import opened CallbackTokens
  import opened UnloadProtocol

  // ---------- The counter is the number of live guards ----------

  ghost function Guards(s: State, v: Voice): set<Worker> {
    set w | w in s.workers && s.workers[w].voice == v && HoldsGuard(s.workers[w])
  }

  ghost predicate CountOk(s: State) {
    && (forall w | w in s.workers :: s.workers[w].voice in s.voices && PhaseOk(s.workers[w]))
    && (forall v | v in s.voices :: s.voices[v].running == |Guards(s, v)|)
  }

  // Some phases belong to pool jobs only, and a producer comes with a built realtime stream.
  predicate PhaseOk(ws: WorkerState) {
    && (ws.phase.Entered? || ws.phase.Queued? || ws.phase.Unwinding? || ws.phase.Releasing? ==> ws.nonblocking)
    && (ws.phase.Entered? || ws.phase.Queued? || ws.phase.Building? ==> ws.producer.NotSpawned?)
    && (ws.producer.Unserved? ==> ws.mode.Realtime?)
  }

  lemma AdvanceKeepsGuard(ws: WorkerState, m: Move, closing: bool)
    requires NextPhase(ws, m, closing).Some?
    ensures var ws' := Advance(ws, m, closing);
      && ws'.voice == ws.voice && ws'.nonblocking == ws.nonblocking && ws'.mode == ws.mode
      && ws'.builds == ws.builds && ws'.cancelled == ws.cancelled
      && ws'.thread == ws.thread && ws'.depth == ws.depth
      && HoldsGuard(ws') == HoldsGuard(ws)
      && (PhaseOk(ws) ==> PhaseOk(ws'))
      && (OnStack(ws'.phase) || (!ws.nonblocking && (ws'.phase.FailedCall? || ws'.phase.Ended?)))
  {
    AdvanceKeepsRequest(ws, m, closing);
    hide NextPhase, Advance;
    AdvancedPhase(ws, m, closing);
  }

  lemma AdvanceKeepsRequest(ws: WorkerState, m: Move, closing: bool)
    requires NextPhase(ws, m, closing).Some?
    ensures var ws' := Advance(ws, m, closing);
      && ws'.voice == ws.voice && ws'.nonblocking == ws.nonblocking && ws'.mode == ws.mode
      && ws'.builds == ws.builds && ws'.cancelled == ws.cancelled
      && ws'.thread == ws.thread && ws'.depth == ws.depth
  {
    hide NextPhase;
  }

  lemma AdvancedPhase(ws: WorkerState, m: Move, closing: bool)
    requires NextPhase(ws, m, closing).Some?
    ensures var ws' := Advance(ws, m, closing);
      && HoldsGuard(ws') == HoldsGuard(ws)
      && (PhaseOk(ws) ==> PhaseOk(ws'))
      && (OnStack(ws'.phase) || (!ws.nonblocking && (ws'.phase.FailedCall? || ws'.phase.Ended?)))
  {
  }

  // Two sets that agree but for one element.
  lemma OneDiffers<T>(a: set<T>, b: set<T>, x: T)
    requires a - {x} == b - {x}
    ensures |b| == |a| - (if x in a then 1 else 0) + (if x in b then 1 else 0)
  {
    var rest := a - {x};
    assert a == if x in a then rest + {x} else rest;
    assert b == if x in b then rest + {x} else rest;
  }

  lemma GuardCount(s: State, s': State, w: Worker, v: Voice)
    requires w in s'.workers && s'.workers == s.workers[w := s'.workers[w]]
    ensures |Guards(s', v)|
      == |Guards(s, v)| - (if w in Guards(s, v) then 1 else 0) + (if w in Guards(s', v) then 1 else 0)
  {
    assert Guards(s', v) - {w} == Guards(s, v) - {w};
    OneDiffers(Guards(s, v), Guards(s', v), w);
  }

  // Only the acting worker changes.
  lemma OnlyActingWorker(s: State, a: Action)
    requires Enabled(s, a)
    ensures Acting(a).None? ==> Apply(s, a).workers == s.workers
    ensures Acting(a).Some? ==>
      var w := Acting(a).value;
      && w in Apply(s, a).workers && Apply(s, a).workers[w] == CallAfter(s, a)
      && Apply(s, a).workers == s.workers[w := Apply(s, a).workers[w]]
  {
    hide Enabled, CallAfter, VoicesAfter, ThreadsAfter, TokensAfter;
  }

  lemma PartsOfApply(s: State, a: Action)
    requires Enabled(s, a)
    ensures Apply(s, a).voices == VoicesAfter(s, a) && Apply(s, a).threads == ThreadsAfter(s, a)
    ensures Apply(s, a).tokens == TokensAfter(s, a)
  {
    hide Enabled, WorkersAfter, VoicesAfter, ThreadsAfter, TokensAfter;
  }

  // A move changes its call as Advance says.
  lemma RunAdvances(s: State, w: Worker, m: Move)
    requires Enabled(s, Run(w, m))
    ensures OnTop(s, w) && s.workers[w].voice in s.voices
    ensures NextPhase(s.workers[w], m, s.voices[s.workers[w].voice].closing).Some?
    ensures CallAfter(s, Run(w, m)) == Advance(s.workers[w], m, s.voices[s.workers[w].voice].closing)
    ensures Apply(s, Run(w, m)).workers
      == s.workers[w := Advance(s.workers[w], m, s.voices[s.workers[w].voice].closing)]
  {
    hide VoicesAfter, ThreadsAfter, TokensAfter, NextPhase, Advance, IsJoining;
  }

  // An acting call that was there keeps what it was asked to do.
  lemma CallKeepsRequest(s: State, a: Action)
    requires Enabled(s, a) && Acting(a).Some? && Acting(a).value in s.workers
    ensures var ws, ws' := s.workers[Acting(a).value], CallAfter(s, a);
      && ws'.voice == ws.voice && ws'.nonblocking == ws.nonblocking && ws'.mode == ws.mode && ws'.builds == ws.builds
      && (!a.Run? ==> ws'.events == ws.events && ws'.late == ws.late)
  {
    if a.Run? {
      RunAdvances(s, a.worker, a.move);
      AdvanceKeepsGuard(s.workers[a.worker], a.move, s.voices[s.workers[a.worker].voice].closing);
    } else {
      hide NextPhase, Advance, CanTakeJob, RunsCallerCode, OnTop;
    }
  }

  // Only a move delivers events.
  lemma OthersDeliverNothing(s: State, a: Action, w: Worker)
    requires Enabled(s, a) && !a.Run? && w in s.workers
    ensures w in Apply(s, a).workers && Apply(s, a).workers[w].voice == s.workers[w].voice
    ensures Apply(s, a).workers[w].events == s.workers[w].events && Apply(s, a).workers[w].late == s.workers[w].late
  {
    hide Apply, Enabled, CallAfter;
    OnlyActingWorker(s, a);
    if Acting(a) == Some(w) {
      CallKeepsRequest(s, a);
    }
  }

  // What an action adds to the guards of a voice.
  ghost function GuardDelta(s: State, a: Action, v: Voice): int
    requires Enabled(s, a)
  {
    match a
    case Enter(_, v', _, _) => if v' == v then 1 else 0
    case PoolUnavailable(w) => if s.workers[w].voice == v then -1 else 0
    case DropGuard(w) => if s.workers[w].voice == v then -1 else 0
    case _ => 0
  }

  lemma CounterMoves(s: State, a: Action, v: Voice)
    requires Enabled(s, a) && v in Apply(s, a).voices
    ensures v !in s.voices ==> a.LoadVoice? && Apply(s, a).voices[v].running == 0
    ensures v in s.voices ==> Apply(s, a).voices[v].running == s.voices[v].running + GuardDelta(s, a, v)
  {
    hide WorkersAfter, ThreadsAfter, TokensAfter, NextPhase, CanTakeJob, RunsCallerCode, OnTop;
  }

  // The acting call takes or drops its guard exactly as the counter moves.
  lemma GuardMoves(s: State, a: Action, v: Voice)
    requires CountOk(s) && Enabled(s, a) && Acting(a).Some?
    ensures GuardDelta(s, a, v) == HeldBy(CallAfter(s, a), v)
      - (if Acting(a).value in s.workers then HeldBy(s.workers[Acting(a).value], v) else 0)
  {
    hide Enabled, CallAfter, HeldBy, NextPhase, Advance;
    if a.Run? {
      RunAdvances(s, a.worker, a.move);
      AdvanceKeepsGuard(s.workers[a.worker], a.move, s.voices[s.workers[a.worker].voice].closing);
      SameGuard(s.workers[a.worker], CallAfter(s, a), v);
    } else {
      assert Acting(a).value in s.workers ==> PhaseOk(s.workers[Acting(a).value]);
      QuietGuardMoves(s, a, v);
    }
  }

  function HeldBy(ws: WorkerState, v: Voice): nat {
    if ws.voice == v && HoldsGuard(ws) then 1 else 0
  }

  lemma SameGuard(ws: WorkerState, ws': WorkerState, v: Voice)
    requires ws'.voice == ws.voice && HoldsGuard(ws') == HoldsGuard(ws)
    ensures HeldBy(ws', v) == HeldBy(ws, v)
  {
  }

  lemma QuietGuardMoves(s: State, a: Action, v: Voice)
    requires Enabled(s, a) && Acting(a).Some? && !a.Run?
    requires Acting(a).value in s.workers ==> PhaseOk(s.workers[Acting(a).value])
    ensures GuardDelta(s, a, v) == HeldBy(CallAfter(s, a), v)
      - (if Acting(a).value in s.workers then HeldBy(s.workers[Acting(a).value], v) else 0)
  {
    hide CanTakeJob, RunsCallerCode, IsJoining;
  }

  // The acting call stays consistent with the voices.
  lemma CountWorker(s: State, a: Action, w: Worker)
    requires CountOk(s) && Enabled(s, a) && w in Apply(s, a).workers
    ensures Apply(s, a).workers[w].voice in Apply(s, a).voices && PhaseOk(Apply(s, a).workers[w])
  {
    hide Apply, Enabled, CallAfter, VoicesAfter, ThreadsAfter;
    OnlyActingWorker(s, a);
    PartsOfApply(s, a);
    VoicesStay(s, a);
    if Acting(a) == Some(w) {
      PhaseStaysOk(s, a);
    }
  }

  lemma VoicesStay(s: State, a: Action)
    requires Enabled(s, a)
    ensures s.voices.Keys <= VoicesAfter(s, a).Keys
  {
    hide NextPhase, CanTakeJob, RunsCallerCode, OnTop;
  }

  lemma PhaseStaysOk(s: State, a: Action)
    requires CountOk(s) && Enabled(s, a) && Acting(a).Some?
    ensures CallAfter(s, a).voice in s.voices && PhaseOk(CallAfter(s, a))
  {
    hide Enabled, CallAfter, NextPhase, Advance, PhaseOk;
    if a.Run? {
      RunAdvances(s, a.worker, a.move);
      AdvanceKeepsGuard(s.workers[a.worker], a.move, s.voices[s.workers[a.worker].voice].closing);
    } else {
      QuietPhaseOk(s, a);
      if Acting(a).value in s.workers {
        CallKeepsRequest(s, a);
      } else {
        NewCallOnVoice(s, a);
      }
    }
  }

  lemma NewCallOnVoice(s: State, a: Action)
    requires Enabled(s, a) && Acting(a).Some? && Acting(a).value !in s.workers
    ensures CallAfter(s, a).voice in s.voices
  {
    hide CanTakeJob, RunsCallerCode, IsJoining, NextPhase, Advance;
  }

  lemma QuietPhaseOk(s: State, a: Action)
    requires Enabled(s, a) && Acting(a).Some? && !a.Run?
    requires Acting(a).value in s.workers ==> PhaseOk(s.workers[Acting(a).value])
    ensures PhaseOk(CallAfter(s, a))
  {
    hide CanTakeJob, RunsCallerCode, IsJoining;
  }

  lemma CountVoice(s: State, a: Action, v: Voice)
    requires CountOk(s) && Enabled(s, a) && v in Apply(s, a).voices
    ensures Apply(s, a).voices[v].running == |Guards(Apply(s, a), v)|
  {
    hide Apply, Enabled, CallAfter, GuardDelta;
    var s' := Apply(s, a);
    OnlyActingWorker(s, a);
    CounterMoves(s, a, v);
    if v !in s.voices {
      assert Guards(s, v) == {};
    }
    if Acting(a).Some? {
      GuardMoves(s, a, v);
      GuardCount(s, s', Acting(a).value, v);
    } else {
      NobodyActs(s, a, v);
      assert Guards(s', v) == Guards(s, v);
    }
  }

  lemma NobodyActs(s: State, a: Action, v: Voice)
    requires Enabled(s, a) && Acting(a).None?
    ensures GuardDelta(s, a, v) == 0
  {
    hide Enabled;
  }

  lemma CountStep(s: State, a: Action)
    requires CountOk(s) && Enabled(s, a)
    ensures CountOk(Apply(s, a))
  {
    hide Apply, Enabled;
    forall w | w in Apply(s, a).workers
      ensures Apply(s, a).workers[w].voice in Apply(s, a).voices && PhaseOk(Apply(s, a).workers[w])
    {
      CountWorker(s, a, w);
    }
    forall v | v in Apply(s, a).voices ensures Apply(s, a).voices[v].running == |Guards(Apply(s, a), v)| {
      CountVoice(s, a, v);
    }
  }

  // ---------- Closing voices ----------

  predicate VoiceOk(vs: VoiceState) {
    && (vs.closing <==> !vs.unload.Open?)
    && (vs.unload.Asleep? ==> vs.running > 0)
    && (vs.unload.Returned? ==> vs.running == 0)
  }

  predicate CallReturned(s: State, w: Worker)
    requires w in s.workers
  {
    s.workers[w].voice in s.voices && s.voices[s.workers[w].voice].closing ==> !CallInProgress(s.workers[w])
  }

  ghost predicate ClosingOk(s: State) {
    && (forall v | v in s.voices :: VoiceOk(s.voices[v]))
    && (forall w | w in s.workers :: CallReturned(s, w))
  }

  // Only beginning an unload closes a voice, and a closed voice stays closed.
  lemma ClosingOnlyBegins(s: State, a: Action, v: Voice)
    requires Enabled(s, a) && v in s.voices
    ensures v in Apply(s, a).voices
    ensures Apply(s, a).voices[v].closing == (s.voices[v].closing || (a.BeginUnload? && a.voice == v))
  {
    hide WorkersAfter, ThreadsAfter, TokensAfter, NextPhase, CanTakeJob, RunsCallerCode, OnTop;
  }

  // An acting call ends up in progress only if it was, or is new on an open voice.
  lemma ActingCallProgress(s: State, a: Action)
    requires CountOk(s) && Enabled(s, a) && Acting(a).Some? && CallInProgress(CallAfter(s, a))
    ensures var w := Acting(a).value;
      if w in s.workers then CallInProgress(s.workers[w])
      else CallAfter(s, a).voice in s.voices && !s.voices[CallAfter(s, a).voice].closing
  {
    if a.Run? {
      RunAdvances(s, a.worker, a.move);
      AdvanceKeepsGuard(s.workers[a.worker], a.move, s.voices[s.workers[a.worker].voice].closing);
    } else {
      hide NextPhase, Advance, CanTakeJob, RunsCallerCode;
    }
  }

  // How an action changes one voice.
  lemma VoiceChange(s: State, a: Action, v: Voice)
    requires Enabled(s, a) && v in Apply(s, a).voices
    ensures v !in s.voices ==> Apply(s, a).voices[v] == VoiceState(false, 0, Open, None)
    ensures v in s.voices ==>
      var old', new' := s.voices[v], Apply(s, a).voices[v];
      || new' == old'.(slot := new'.slot)
      || (old'.running > 0 && new' == Leave(old'))
      || (!old'.closing && new' == Join(old'))
      || (old'.unload.Open? && (new' == old'.(closing := true, unload := ReturnedFromOwnCallback)
                                || (a.BeginUnload? && new' == old'.(closing := true, unload := Checking(a.thread)))))
      || (old'.unload.Checking? && old'.running > 0 && new' == old'.(unload := Asleep(old'.unload.waiter)))
      || (old'.unload.Checking? && old'.running == 0 && new' == old'.(unload := Returned))
  {
    hide WorkersAfter, ThreadsAfter, TokensAfter, NextPhase, CanTakeJob, RunsCallerCode, OnTop, Leave;
  }

  lemma ClosingVoice(s: State, a: Action, v: Voice)
    requires ClosingOk(s) && Enabled(s, a) && v in Apply(s, a).voices
    ensures VoiceOk(Apply(s, a).voices[v])
  {
    hide Apply, Enabled;
    VoiceChange(s, a, v);
    if v in s.voices {
      assert VoiceOk(s.voices[v]);
    }
  }

  lemma UnloadedCallsReturned(s: State, v: Voice, t: Thread, w: Worker)
    requires Enabled(s, BeginUnload(v, t)) && w in s.workers && s.workers[w].voice == v
    ensures !CallInProgress(s.workers[w])
  {
  }

  lemma ClosingWorker(s: State, a: Action, w: Worker)
    requires CountOk(s) && ClosingOk(s) && Enabled(s, a) && w in Apply(s, a).workers
    ensures CallReturned(Apply(s, a), w)
  {
    hide Apply, Enabled, CallAfter;
    OnlyActingWorker(s, a);
    if Acting(a) == Some(w) {
      PhaseStaysOk(s, a);
      ClosingOnlyBegins(s, a, CallAfter(s, a).voice);
      if CallInProgress(CallAfter(s, a)) {
        ActingCallProgress(s, a);
      }
      if w in s.workers {
        CallKeepsRequest(s, a);
        assert CallReturned(s, w);
      }
    } else {
      assert CallReturned(s, w);
      ClosingOnlyBegins(s, a, s.workers[w].voice);
      if a.BeginUnload? && a.voice == s.workers[w].voice {
        UnloadedCallsReturned(s, a.voice, a.thread, w);
      }
    }
  }

  lemma ClosingStep(s: State, a: Action)
    requires CountOk(s) && ClosingOk(s) && Enabled(s, a)
    ensures ClosingOk(Apply(s, a))
  {
    hide Apply, Enabled, VoiceOk, CallReturned;
    forall v | v in Apply(s, a).voices ensures VoiceOk(Apply(s, a).voices[v]) {
      ClosingVoice(s, a, v);
    }
    forall w | w in Apply(s, a).workers ensures CallReturned(Apply(s, a), w) {
      ClosingWorker(s, a, w);
    }
  }

  // ---------- Reachable states ----------

  ghost predicate Safe(s: State) {
    CountOk(s) && ClosingOk(s)
  }

  lemma SafeStep(s: State, s': State)
    requires Safe(s) && Next(s, s')
    ensures Safe(s')
  {
    hide Apply, Enabled, VoiceOk, CallReturned;
    var a :| Enabled(s, a) && s' == Apply(s, a);
    CountStep(s, a);
    ClosingStep(s, a);
  }

  lemma {:induction false} SafeRun(r: seq<State>, i: nat)
    requires IsRun(r) && i < |r|
    ensures Safe(r[i])
  {
    if i == 0 {
      assert forall v :: Guards(r[0], v) == {};
    } else {
      SafeRun(r, i - 1);
      assert StepAt(r, i - 1);
      SafeStep(r[i - 1], r[i]);
    }
  }

  // In every reachable state the counter equals the number of live guards.
  lemma RunningCountsGuards(r: seq<State>, i: nat, v: Voice)
    requires IsRun(r) && i < |r| && v in r[i].voices
    ensures r[i].voices[v].running == |Guards(r[i], v)|
  {
    SafeRun(r, i);
  }

  // ---------- Unload safety ----------

  ghost predicate Drained(s: State, v: Voice) {
    v in s.voices && s.voices[v].unload.Returned?
  }

  // Nothing on a drained voice can still call back.
  lemma DrainedIsSilent(s: State, v: Voice, w: Worker)
    requires Safe(s) && Drained(s, v) && w in s.workers && s.workers[w].voice == v
    ensures !CanCallBack(s.workers[w])
  {
    assert |Guards(s, v)| == 0;
    assert w !in Guards(s, v);
    assert CallReturned(s, w);
  }

  // A finished unload stays finished.
  lemma ReturnedLasts(s: State, a: Action, v: Voice)
    requires Enabled(s, a) && Drained(s, v)
    ensures Drained(Apply(s, a), v)
  {
    hide Apply, Enabled, WorkersAfter, ThreadsAfter;
    PartsOfApply(s, a);
    VoicesStay(s, a);
    VoiceChange(s, a, v);
  }

  // No call is added to a closing voice, and a call past its last callback delivers nothing.
  lemma SilentCallStep(s: State, a: Action)
    requires CountOk(s) && Enabled(s, a) && Acting(a).Some?
    ensures var w, ws' := Acting(a).value, CallAfter(s, a);
      if w in s.workers then CanCallBack(s.workers[w]) || ws'.events == s.workers[w].events
      else ws'.voice in s.voices && !s.voices[ws'.voice].closing
  {
    if a.Run? {
      RunAdvances(s, a.worker, a.move);
    } else if Acting(a).value in s.workers {
      hide Enabled, CallAfter;
      CallKeepsRequest(s, a);
    } else {
      hide NextPhase, Advance, CanTakeJob, RunsCallerCode;
    }
  }

  // A voice that has been drained gets no new call, and none of its calls delivers an event.
  lemma SilentWorker(s: State, a: Action, v: Voice, w: Worker)
    requires Safe(s) && Drained(s, v) && Enabled(s, a)
    requires w in Apply(s, a).workers && Apply(s, a).workers[w].voice == v
    ensures w in s.workers && s.workers[w].voice == v && Apply(s, a).workers[w].events == s.workers[w].events
  {
    hide Apply, Enabled, CallAfter, CanCallBack;
    OnlyActingWorker(s, a);
    assert VoiceOk(s.voices[v]);
    if Acting(a) == Some(w) {
      SilentCallStep(s, a);
      if w in s.workers {
        CallKeepsRequest(s, a);
        DrainedIsSilent(s, v, w);
      }
    }
  }

  lemma DrainedStep(s: State, s': State, v: Voice)
    requires Safe(s) && Drained(s, v) && Next(s, s')
    ensures Drained(s', v)
    ensures forall w | w in s'.workers && s'.workers[w].voice == v ::
              w in s.workers && s.workers[w].voice == v && s'.workers[w].events == s.workers[w].events
  {
    hide Apply, Enabled, Safe;
    var a :| Enabled(s, a) && s' == Apply(s, a);
    ReturnedLasts(s, a, v);
    forall w | w in s'.workers && s'.workers[w].voice == v
      ensures w in s.workers && s.workers[w].voice == v && s'.workers[w].events == s.workers[w].events
    {
      SilentWorker(s, a, v, w);
    }
  }

  // Unload safety over every interleaving: from the moment an unload has waited for a voice and
  // returned, the callbacks of that voice are over, whatever runs next.
  lemma {:induction false} NoCallbackAfterUnload(r: seq<State>, i: nat, j: nat, v: Voice)
    requires IsRun(r) && i <= j < |r| && Drained(r[i], v)
    ensures Drained(r[j], v)
    ensures forall w | w in r[j].workers && r[j].workers[w].voice == v ::
              && w in r[i].workers && r[i].workers[w].voice == v
              && r[j].workers[w].events == r[i].workers[w].events
              && !CanCallBack(r[j].workers[w])
    decreases j - i
  {
    hide Apply, Enabled, Next, Safe, Drained;
    SafeRun(r, j);
    if i < j {
      NoCallbackAfterUnload(r, i, j - 1, v);
      SafeRun(r, j - 1);
      assert StepAt(r, j - 1);
      DrainedStep(r[j - 1], r[j], v);
    }
    forall w | w in r[j].workers && r[j].workers[w].voice == v
      ensures !CanCallBack(r[j].workers[w])
    {
      DrainedIsSilent(r[j], v, w);
    }
  }

  // No wakeup is lost: a sleeping unload has a guard left, and the drop that leaves none wakes it.
  lemma SleepingUnloadHasGuard(r: seq<State>, i: nat, v: Voice)
    requires IsRun(r) && i < |r| && v in r[i].voices && r[i].voices[v].unload.Asleep?
    ensures Guards(r[i], v) != {}
    ensures forall w: Worker | Enabled(r[i], DropGuard(w)) && r[i].workers[w].voice == v ::
      && v in Apply(r[i], DropGuard(w)).voices
      && Apply(r[i], DropGuard(w)).voices[v].unload
         == if Guards(r[i], v) == {w} then Checking(r[i].voices[v].unload.waiter) else r[i].voices[v].unload
  {
    SafeRun(r, i);
    hide Apply, Enabled, IsRun;
    forall w: Worker | Enabled(r[i], DropGuard(w)) && r[i].workers[w].voice == v
      ensures v in Apply(r[i], DropGuard(w)).voices
        && Apply(r[i], DropGuard(w)).voices[v].unload
           == if Guards(r[i], v) == {w} then Checking(r[i].voices[v].unload.waiter) else r[i].voices[v].unload
    {
      DropWakes(r[i], v, w);
    }
  }

  lemma DropWakes(s: State, v: Voice, w: Worker)
    requires Safe(s) && v in s.voices && s.voices[v].unload.Asleep?
    requires Enabled(s, DropGuard(w)) && s.workers[w].voice == v
    ensures v in Apply(s, DropGuard(w)).voices
    ensures Apply(s, DropGuard(w)).voices[v].unload
      == if Guards(s, v) == {w} then Checking(s.voices[v].unload.waiter) else s.voices[v].unload
  {
    assert PhaseOk(s.workers[w]);
    OnlyGuard(s, v, w);
  }

  lemma OnlyGuard(s: State, v: Voice, w: Worker)
    requires w in Guards(s, v)
    ensures |Guards(s, v)| == 1 <==> Guards(s, v) == {w}
  {
    if |Guards(s, v)| == 1 {
      assert |Guards(s, v) - {w}| == 0;
    }
  }
}
