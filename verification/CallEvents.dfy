/**
 What the caller of a speak call sees: the order of its events, how many may still arrive once its
 voice is closing, and when the Go binding gives the call's token back.
 */
module CallEvents {
  import opened Wrappers
  import opened CallbackTokens
  import opened UnloadProtocol
  import opened UnloadSafety

  predicate AllSpeech(events: seq<Event>) {
    forall i | 0 <= i < |events| :: events[i].Speech?
  }

  // Zero or more SPEECH events, then exactly one FINISHED or ERROR.
  predicate EndsWithTerminal(events: seq<Event>) {
    events != [] && AllSpeech(events[..|events| - 1]) && !events[|events| - 1].Speech?
  }

  // The events of a call that is over, by how it ended.
  predicate CompleteLog(ws: WorkerState) {
    match ws.outcome
    case Pending => false
    case Terminal => EndsWithTerminal(ws.events)
    case Stopped => AllSpeech(ws.events) && ws.events != []
    case Errored => AllSpeech(ws.events) && (ws.nonblocking ==> ws.events == [])
  }

  // The events of a call in each of its phases.
  predicate LogOk(ws: WorkerState) {
    match ws.phase
    case Entered => ws.events == [] && ws.outcome.Pending?
    case Queued => ws.events == [] && ws.outcome.Pending?
    case Building => ws.events == [] && ws.outcome.Pending?
    case Pulling => AllSpeech(ws.events) && ws.outcome.Pending?
    case Pulled(_) => AllSpeech(ws.events) && ws.outcome.Pending?
    case Delivering(_) => AllSpeech(ws.events) && ws.outcome.Pending?
    case InCallback(e) =>
      && ws.outcome.Pending? && ws.events != [] && ws.events[|ws.events| - 1] == e
      && AllSpeech(ws.events[..|ws.events| - 1])
    case Unwinding => CompleteLog(ws) && !ws.outcome.Errored?
    case Releasing => CompleteLog(ws) && !ws.outcome.Errored?
    case FailedCall => CompleteLog(ws) && ws.outcome.Errored?
    case Ended => CompleteLog(ws)
  }

  // After `closing`: at most one more SPEECH, then at most one terminal event.
  predicate LateOk(ws: WorkerState) {
    || ws.late == []
    || (ws.late == [Speech] && ws.phase != Delivering(Speech))
    || (&& |ws.late| <= 2 && !ws.late[|ws.late| - 1].Speech? && (|ws.late| == 2 ==> ws.late[0].Speech?)
        && (ws.phase == InCallback(ws.late[|ws.late| - 1])
            || ws.phase.Unwinding? || ws.phase.Releasing? || ws.phase.Ended?))
  }

  // A token is live until the last event has been handled, and is unpinned once, there.
  predicate TokenOk(ws: WorkerState, w: Worker, tokens: Tokens) {
    && w in tokens.unpins
    && (w in tokens.live <==> !(ws.phase.Unwinding? || ws.phase.Releasing? || ws.phase.Ended?))
    && tokens.unpins[w] == (if w in tokens.live then 0 else 1)
  }

  ghost predicate CallOk(s: State, w: Worker)
    requires w in s.workers
  {
    var ws := s.workers[w];
    && LogOk(ws) && LateOk(ws) && TokenOk(ws, w, s.tokens)
    && (ws.voice in s.voices && !s.voices[ws.voice].closing ==> ws.late == [])
  }

  ghost predicate CallsOk(s: State) {
    forall w | w in s.workers :: CallOk(s, w)
  }

  lemma AdvanceKeepsLog(ws: WorkerState, m: Move, closing: bool)
    requires NextPhase(ws, m, closing).Some? && LogOk(ws)
    ensures LogOk(Advance(ws, m, closing))
  {
    match ws.phase
    case Delivering(_) => DeliveryKeepsLog(ws, m, closing);
    case InCallback(_) => ReturnKeepsLog(ws, m, closing);
    case _ => PullKeepsLog(ws, m, closing);
  }

  lemma DeliveryKeepsLog(ws: WorkerState, m: Move, closing: bool)
    requires NextPhase(ws, m, closing).Some? && LogOk(ws) && ws.phase.Delivering?
    ensures LogOk(Advance(ws, m, closing))
  {
    var ws' := Advance(ws, m, closing);
    assert ws'.events[..|ws'.events| - 1] == ws.events;
  }

  lemma ReturnKeepsLog(ws: WorkerState, m: Move, closing: bool)
    requires NextPhase(ws, m, closing).Some? && LogOk(ws) && ws.phase.InCallback?
    ensures LogOk(Advance(ws, m, closing))
  {
    if ws.phase.event.Speech? {
      SpeechAgain(ws.events);
      hide AllSpeech;
    }
  }

  lemma PullKeepsLog(ws: WorkerState, m: Move, closing: bool)
    requires NextPhase(ws, m, closing).Some? && LogOk(ws) && !ws.phase.Delivering? && !ws.phase.InCallback?
    ensures LogOk(Advance(ws, m, closing))
  {
  }

  lemma SpeechAgain(events: seq<Event>)
    requires events != [] && events[|events| - 1].Speech? && AllSpeech(events[..|events| - 1])
    ensures AllSpeech(events)
  {
  }

  lemma AdvanceKeepsLate(ws: WorkerState, m: Move, closing: bool)
    requires NextPhase(ws, m, closing).Some? && LateOk(ws) && (!closing ==> ws.late == [])
    ensures LateOk(Advance(ws, m, closing)) && (!closing ==> Advance(ws, m, closing).late == [])
  {
  }

  lemma TokensOfOthers(s: State, a: Action, w: Worker)
    requires Enabled(s, a) && Acting(a) != Some(w)
    ensures (w in Apply(s, a).tokens.live <==> w in s.tokens.live)
    ensures w in s.tokens.unpins ==>
      w in Apply(s, a).tokens.unpins && Apply(s, a).tokens.unpins[w] == s.tokens.unpins[w]
  {
    hide Apply, NextPhase, CanTakeJob, RunsCallerCode, OnTop, ReleasesToken;
    PartsOfApply(s, a);
  }

  lemma RunCallStep(s: State, w: Worker, m: Move)
    requires CountOk(s) && CallsOk(s) && Enabled(s, Run(w, m))
    ensures w in Apply(s, Run(w, m)).workers && CallOk(Apply(s, Run(w, m)), w)
  {
    hide Apply, Enabled, CallAfter, NextPhase, Advance, LogOk, LateOk, TokenOk, ReleasesToken;
    assert CallOk(s, w) by { RunAdvances(s, w, m); }
    var ws, a := s.workers[w], Run(w, m);
    RunAdvances(s, w, m);
    OnlyActingWorker(s, a);
    PartsOfApply(s, a);
    ClosingOnlyBegins(s, a, ws.voice);
    var closing := s.voices[ws.voice].closing;
    AdvanceKeepsGuard(ws, m, closing);
    AdvanceKeepsLog(ws, m, closing);
    AdvanceKeepsLate(ws, m, closing);
    MoveKeepsToken(ws, w, m, closing, s.tokens);
  }

  lemma MoveKeepsToken(ws: WorkerState, w: Worker, m: Move, closing: bool, tokens: Tokens)
    requires NextPhase(ws, m, closing).Some? && TokenOk(ws, w, tokens)
    ensures TokenOk(Advance(ws, m, closing), w, if ReleasesToken(ws, m) then Release(tokens, w) else tokens)
  {
  }

  lemma NewCallStep(s: State, a: Action, w: Worker)
    requires Enabled(s, a) && Acting(a) == Some(w) && w !in s.workers
    ensures w in Apply(s, a).workers && CallOk(Apply(s, a), w)
  {
    hide Apply, NextPhase, CanTakeJob, RunsCallerCode;
    OnlyActingWorker(s, a);
    PartsOfApply(s, a);
  }

  // A call's own step.
  lemma ActingCallStep(s: State, a: Action, w: Worker)
    requires CountOk(s) && CallsOk(s) && Enabled(s, a) && Acting(a) == Some(w)
    ensures w in Apply(s, a).workers && CallOk(Apply(s, a), w)
  {
    hide Apply, Enabled, CallOk;
    if w !in s.workers {
      NewCallStep(s, a, w);
    } else if a.Run? {
      RunCallStep(s, w, a.move);
    } else {
      assert CallOk(s, w);
      QuietCallStep(s, a, w);
    }
  }

  // A step of a call other than a move.
  lemma QuietCallStep(s: State, a: Action, w: Worker)
    requires CountOk(s) && Enabled(s, a) && Acting(a) == Some(w) && w in s.workers && !a.Run? && CallOk(s, w)
    ensures w in Apply(s, a).workers && CallOk(Apply(s, a), w)
  {
    hide Apply, Enabled, CallAfter, LogOk, LateOk, TokenOk;
    OnlyActingWorker(s, a);
    PartsOfApply(s, a);
    CallKeepsRequest(s, a);
    ClosingOnlyBegins(s, a, s.workers[w].voice);
    QuietLog(s, a);
    QuietToken(s, a);
  }

  lemma QuietLog(s: State, a: Action)
    requires Enabled(s, a) && Acting(a).Some? && Acting(a).value in s.workers && !a.Run?
    requires var ws := s.workers[Acting(a).value]; LogOk(ws) && LateOk(ws)
    ensures LogOk(CallAfter(s, a)) && LateOk(CallAfter(s, a))
  {
    hide CanTakeJob, RunsCallerCode;
  }

  lemma QuietToken(s: State, a: Action)
    requires Enabled(s, a) && Acting(a).Some? && Acting(a).value in s.workers && !a.Run?
    requires TokenOk(s.workers[Acting(a).value], Acting(a).value, s.tokens)
    ensures TokenOk(CallAfter(s, a), Acting(a).value, TokensAfter(s, a))
  {
    hide CanTakeJob, RunsCallerCode;
  }

  lemma OtherCallStep(s: State, a: Action, w: Worker)
    requires CountOk(s) && CallsOk(s) && Enabled(s, a) && Acting(a) != Some(w) && w in s.workers
    ensures w in Apply(s, a).workers && CallOk(Apply(s, a), w)
  {
    hide Apply, Enabled, CallAfter, LogOk, LateOk;
    OnlyActingWorker(s, a);
    assert CallOk(s, w);
    ClosingOnlyBegins(s, a, s.workers[w].voice);
    TokensOfOthers(s, a, w);
  }

  lemma CallsStep(s: State, a: Action)
    requires CountOk(s) && CallsOk(s) && Enabled(s, a)
    ensures CallsOk(Apply(s, a))
  {
    hide Apply, Enabled, LogOk, LateOk, TokenOk;
    OnlyActingWorker(s, a);
    forall w | w in Apply(s, a).workers ensures CallOk(Apply(s, a), w) {
      if Acting(a) == Some(w) {
        ActingCallStep(s, a, w);
      } else {
        OtherCallStep(s, a, w);
      }
    }
  }

  lemma {:induction false} CallsRun(r: seq<State>, i: nat)
    requires IsRun(r) && i < |r|
    ensures CallsOk(r[i])
  {
    hide Apply, Enabled, Safe, LogOk, LateOk, TokenOk;
    if i > 0 {
      CallsRun(r, i - 1);
      SafeRun(r, i - 1);
      assert StepAt(r, i - 1);
      var a :| Enabled(r[i - 1], a) && r[i] == Apply(r[i - 1], a);
      CallsStep(r[i - 1], a);
    }
  }

  // Every finished call delivered SPEECH* and then exactly one FINISHED or ERROR, unless a SPEECH
  // callback asked to stop (SPEECH+ and no terminal event) or the call itself returned the error
  // (no terminal event; for a nonblocking call no event at all).
  lemma FinishedCallLog(r: seq<State>, i: nat, w: Worker)
    requires IsRun(r) && i < |r| && w in r[i].workers && r[i].workers[w].phase.Ended?
    ensures CompleteLog(r[i].workers[w])
  {
    CallsRun(r, i);
    assert CallOk(r[i], w);
  }

  // A call still running has delivered only SPEECH events, apart from one it is delivering now.
  lemma RunningCallLog(r: seq<State>, i: nat, w: Worker)
    requires IsRun(r) && i < |r| && w in r[i].workers && CanCallBack(r[i].workers[w])
    ensures var ws := r[i].workers[w];
      if ws.phase.InCallback? then ws.events != [] && AllSpeech(ws.events[..|ws.events| - 1]) else AllSpeech(ws.events)
  {
    CallsRun(r, i);
    assert CallOk(r[i], w);
  }

  // The Go token of a call is unpinned exactly once over its life, and never while the call can
  // still deliver an event.
  lemma TokenReleasedOnceAfterLastEvent(r: seq<State>, i: nat, w: Worker)
    requires IsRun(r) && i < |r| && w in r[i].workers
    ensures w in r[i].tokens.unpins && r[i].tokens.unpins[w] <= 1
    ensures r[i].workers[w].phase.Ended? ==> r[i].tokens.unpins[w] == 1 && w !in r[i].tokens.live
    ensures CanCallBack(r[i].workers[w]) ==> w in r[i].tokens.live && r[i].tokens.unpins[w] == 0
  {
    CallsRun(r, i);
    assert CallOk(r[i], w);
  }

  // Once a voice is closing, each of its calls delivers at most one further SPEECH event and at
  // most one terminal event, in that order.
  lemma BoundedDrain(r: seq<State>, i: nat, w: Worker)
    requires IsRun(r) && i < |r| && w in r[i].workers
    ensures var late := r[i].workers[w].late;
      late == [] || late == [Speech] || (EndsWithTerminal(late) && |late| <= 2)
    ensures var ws := r[i].workers[w];
      ws.voice in r[i].voices && (!r[i].voices[ws.voice].closing ==> ws.late == [])
  {
    CallsRun(r, i);
    SafeRun(r, i);
    assert CallOk(r[i], w);
  }

  // What a call has delivered since `before`, all of it with its voice closing.
  predicate GrewLate(before: WorkerState, after: WorkerState) {
    && after.voice == before.voice && before.events <= after.events
    && after.late == before.late + after.events[|before.events|..]
  }

  lemma GrewLateTwice(a: WorkerState, b: WorkerState, c: WorkerState)
    requires GrewLate(a, b) && GrewLate(b, c)
    ensures GrewLate(a, c)
  {
    assert c.events[|a.events|..] == b.events[|a.events|..] + c.events[|b.events|..];
  }

  // The late events are exactly those delivered after `closing` was set.
  lemma {:induction false} LateEventsAreTheSuffix(r: seq<State>, i: nat, j: nat, w: Worker)
    requires IsRun(r) && i <= j < |r| && w in r[i].workers
    requires r[i].workers[w].voice in r[i].voices && r[i].voices[r[i].workers[w].voice].closing
    ensures w in r[j].workers && GrewLate(r[i].workers[w], r[j].workers[w])
    ensures r[i].workers[w].voice in r[j].voices && r[j].voices[r[i].workers[w].voice].closing
    decreases j - i
  {
    hide Apply, Enabled, Next, Safe;
    if i < j {
      LateEventsAreTheSuffix(r, i, j - 1, w);
      SafeRun(r, j - 1);
      assert StepAt(r, j - 1);
      LateStep(r[j - 1], r[j], w);
      GrewLateTwice(r[i].workers[w], r[j - 1].workers[w], r[j].workers[w]);
    }
  }

  lemma LateStep(s: State, s': State, w: Worker)
    requires Safe(s) && Next(s, s') && w in s.workers && s.voices[s.workers[w].voice].closing
    ensures w in s'.workers && GrewLate(s.workers[w], s'.workers[w])
    ensures s.workers[w].voice in s'.voices && s'.voices[s.workers[w].voice].closing
  {
    hide Apply, Enabled, CallAfter, NextPhase, Advance;
    var a :| Enabled(s, a) && s' == Apply(s, a);
    OnlyActingWorker(s, a);
    ClosingOnlyBegins(s, a, s.workers[w].voice);
    if a.Run? {
      RunAdvances(s, a.worker, a.move);
      if a.worker == w {
        MoveGrewLate(s.workers[w], a.move);
      }
    } else {
      OthersDeliverNothing(s, a, w);
    }
  }

  lemma MoveGrewLate(ws: WorkerState, m: Move)
    requires NextPhase(ws, m, true).Some?
    ensures GrewLate(ws, Advance(ws, m, true))
  {
  }

  // ---------- After a callback that returns with its voice closing ----------

  // A panic of the call's stream among the actions.
  predicate Panics(acts: seq<Action>, w: Worker) {
    exists k :: 0 <= k < |acts| && acts[k] == Run(w, PullPanics)
  }

  function LastEvent(panicked: bool): Event {
    if panicked then Failed else Finished
  }

  // A pool job back in its stream: one terminal event on top of `sofar`, ERROR if it has panicked.
  predicate OneToCome(sofar: seq<Event>, panicked: bool, ws: WorkerState) {
    ws.nonblocking &&
    match ws.phase
    case Pulling => ws.events == sofar && !panicked
    case Pulled(_) => ws.events == sofar && !panicked
    case Delivering(e) => ws.events == sofar && e == LastEvent(panicked)
    case InCallback(e) => ws.events == sofar + [e] && e == LastEvent(panicked)
    case Unwinding => ws.events == sofar + [LastEvent(panicked)]
    case Releasing => ws.events == sofar + [LastEvent(panicked)]
    case Ended => ws.events == sofar + [LastEvent(panicked)]
    case _ => false
  }

  predicate NoneToCome(sofar: seq<Event>, ws: WorkerState) {
    ws.events == sofar && (ws.phase.Unwinding? || ws.phase.Releasing? || ws.phase.Ended?)
  }

  lemma MoveTowardsTheEnd(sofar: seq<Event>, panicked: bool, ws: WorkerState, m: Move)
    requires NextPhase(ws, m, true).Some?
    ensures OneToCome(sofar, panicked, ws) ==> OneToCome(sofar, panicked || m == PullPanics, Advance(ws, m, true))
    ensures !NoneToCome(sofar, ws)
  {
  }

  // The same log in the same phase, or in a later one of unwinding.
  predicate Unwinds(ws: WorkerState, ws': WorkerState) {
    && ws'.events == ws.events && ws'.nonblocking == ws.nonblocking
    && (|| ws'.phase == ws.phase
        || ((ws.phase.Unwinding? || ws.phase.Releasing?) && (ws'.phase.Releasing? || ws'.phase.Ended?)))
  }

  // Outside its moves a call that has been on a stack only unwinds.
  lemma OnlyUnwinds(s: State, a: Action, w: Worker)
    requires Enabled(s, a) && !a.Run? && w in s.workers && (OnStack(s.workers[w].phase) || s.workers[w].phase.Ended?)
    ensures w in Apply(s, a).workers && Unwinds(s.workers[w], Apply(s, a).workers[w])
  {
    hide Apply, CanTakeJob, RunsCallerCode;
    OnlyActingWorker(s, a);
  }

  lemma TowardsTheEnd(s: State, a: Action, sofar: seq<Event>, panicked: bool, w: Worker)
    requires Safe(s) && Enabled(s, a) && w in s.workers && s.voices[s.workers[w].voice].closing
    ensures w in Apply(s, a).workers
    ensures OneToCome(sofar, panicked, s.workers[w])
      ==> OneToCome(sofar, panicked || a == Run(w, PullPanics), Apply(s, a).workers[w])
    ensures NoneToCome(sofar, s.workers[w]) ==> NoneToCome(sofar, Apply(s, a).workers[w])
  {
    hide Apply, Enabled, CallAfter, NextPhase, Advance, OneToCome, NoneToCome, Unwinds;
    OnlyActingWorker(s, a);
    if a.Run? {
      RunAdvances(s, a.worker, a.move);
      if a.worker == w {
        MoveTowardsTheEnd(sofar, panicked, s.workers[w], a.move);
      }
    } else if OneToCome(sofar, panicked, s.workers[w]) || NoneToCome(sofar, s.workers[w]) {
      SettlingCall(sofar, panicked, s.workers[w]);
      OnlyUnwinds(s, a, w);
      UnwindingSettles(sofar, panicked, s.workers[w], Apply(s, a).workers[w]);
    }
  }

  lemma SettlingCall(sofar: seq<Event>, panicked: bool, ws: WorkerState)
    requires OneToCome(sofar, panicked, ws) || NoneToCome(sofar, ws)
    ensures OnStack(ws.phase) || ws.phase.Ended?
  {
  }

  lemma UnwindingSettles(sofar: seq<Event>, panicked: bool, ws: WorkerState, ws': WorkerState)
    requires Unwinds(ws, ws')
    ensures OneToCome(sofar, panicked, ws) ==> OneToCome(sofar, panicked, ws')
    ensures NoneToCome(sofar, ws) ==> NoneToCome(sofar, ws')
  {
  }

  lemma PanicsMore(acts: seq<Action>, i: nat, j: nat, w: Worker)
    requires i < j <= |acts|
    ensures Panics(acts[i..j], w) <==> Panics(acts[i..j - 1], w) || acts[j - 1] == Run(w, PullPanics)
  {
    var long, short := acts[i..j], acts[i..j - 1];
    assert long == short + [acts[j - 1]];
    if Panics(short, w) {
      var k :| 0 <= k < |short| && short[k] == Run(w, PullPanics);
      assert long[k] == Run(w, PullPanics);
    }
    if acts[j - 1] == Run(w, PullPanics) {
      assert long[|short|] == Run(w, PullPanics);
    }
  }

  lemma {:induction false} EndIsSettled(r: seq<State>, acts: seq<Action>, i: nat, j: nat, sofar: seq<Event>, w: Worker)
    requires IsTrace(r, acts) && i <= j < |r| && w in r[i].workers
    requires r[i].workers[w].voice in r[i].voices && r[i].voices[r[i].workers[w].voice].closing
    ensures w in r[j].workers
    ensures OneToCome(sofar, false, r[i].workers[w]) ==> OneToCome(sofar, Panics(acts[i..j], w), r[j].workers[w])
    ensures NoneToCome(sofar, r[i].workers[w]) ==> NoneToCome(sofar, r[j].workers[w])
    decreases j - i
  {
    hide Apply, Enabled, Next, Safe, OneToCome, NoneToCome, Panics;
    if i < j {
      EndIsSettled(r, acts, i, j - 1, sofar, w);
      LateEventsAreTheSuffix(r, i, j - 1, w);
      SafeRun(r, j - 1);
      PanicsMore(acts, i, j, w);
      assert r[j - 1 + 1] == Apply(r[j - 1], acts[j - 1]);
      TowardsTheEnd(r[j - 1], acts[j - 1], sofar, Panics(acts[i..j - 1], w), w);
    } else {
      assert !Panics(acts[i..j], w) by { NoActions(acts, i, w); }
    }
  }

  lemma NoActions(acts: seq<Action>, i: nat, w: Worker)
    requires i <= |acts|
    ensures !Panics(acts[i..i], w)
  {
  }

  // A callback that returns with its voice closing, as every callback does that unloads its own
  // voice: one more event comes if and only if it was a SPEECH callback and asked for more, and
  // that event is ERROR if the stream panics afterwards and FINISHED if it does not.
  lemma EventsAfterClosingCallback(r: seq<State>, acts: seq<Action>, i: nat, j: nat, w: Worker, wantsMore: bool)
    requires IsTrace(r, acts) && i < j < |r| && w in r[i].workers && r[i].workers[w].phase.InCallback?
    requires r[i].workers[w].voice in r[i].voices && r[i].voices[r[i].workers[w].voice].closing
    requires acts[i] == Run(w, Returns(wantsMore))
    ensures w in r[j].workers
    ensures r[j].workers[w].phase.Ended? ==>
      r[j].workers[w].events == r[i].workers[w].events
        + (if r[i].workers[w].phase.event.Speech? && wantsMore then [LastEvent(Panics(acts[i + 1..j], w))] else [])
  {
    hide Apply, Enabled, CallAfter, NextPhase, Advance, Next, OneToCome, NoneToCome, Panics;
    SafeRun(r, i);
    assert CallReturned(r[i], w);
    RunAdvances(r[i], w, Returns(wantsMore));
    LateEventsAreTheSuffix(r, i, i + 1, w);
    var sofar := r[i].workers[w].events;
    ClosingReturn(r[i].workers[w], wantsMore);
    assert r[i + 1] == Apply(r[i], acts[i]);
    EndIsSettled(r, acts, i + 1, j, sofar, w);
    if r[j].workers[w].phase.Ended? {
      SettledLog(sofar, Panics(acts[i + 1..j], w), r[j].workers[w]);
    }
  }

  lemma ClosingReturn(ws: WorkerState, wantsMore: bool)
    requires ws.phase.InCallback? && ws.nonblocking && NextPhase(ws, Returns(wantsMore), true).Some?
    ensures var ws' := Advance(ws, Returns(wantsMore), true);
      if ws.phase.event.Speech? && wantsMore then OneToCome(ws.events, false, ws') else NoneToCome(ws.events, ws')
  {
  }

  lemma SettledLog(sofar: seq<Event>, panicked: bool, ws: WorkerState)
    requires ws.phase.Ended?
    ensures OneToCome(sofar, panicked, ws) ==> ws.events == sofar + [LastEvent(panicked)]
    ensures NoneToCome(sofar, ws) ==> ws.events == sofar + []
  {
    assert sofar + [] == sofar;
  }
}
