/**
 How a call ends, told by the actions of a run alone: which action decides it, what its caller is
 told last, and how many SPEECH events come before.
 */
module CallOutcomes {
  import opened Wrappers
  import opened CallbackTokens
  import opened UnloadProtocol
  import opened UnloadSafety
  import opened CallEvents

  // ---------- Reading the actions ----------

  predicate PulledAt(acts: seq<Action>, w: Worker, pull: Move, p: nat, n: nat)
    requires p < n <= |acts|
  {
    acts[p] == Run(w, pull) && forall q | p < q < n :: acts[q] != Run(w, ReadsClosing)
  }

  // An item the call has pulled by one of the first n actions, and not yet checked for closing.
  ghost predicate Unchecked(acts: seq<Action>, w: Worker, pull: Move, n: nat)
    requires n <= |acts|
  {
    exists p: nat :: p < n && PulledAt(acts, w, pull, p, n)
  }

  // One of the first n actions has set the call's flag.
  predicate Flagged(acts: seq<Action>, w: Worker, n: nat)
    requires n <= |acts|
  {
    exists c :: 0 <= c < n && acts[c].CancelVoice? && acts[c].worker == w
  }

  // The call checks for closing, and finds its voice closing or open.
  predicate Checks(s: State, a: Action, w: Worker, closing: bool) {
    && a == Run(w, ReadsClosing) && w in s.workers && s.workers[w].voice in s.voices
    && s.voices[s.workers[w].voice].closing == closing
  }

  // A SPEECH callback of the call returns.
  predicate Answers(s: State, a: Action, w: Worker, wantsMore: bool) {
    && a == Run(w, Returns(wantsMore)) && w in s.workers
    && var events := s.workers[w].events; events != [] && events[|events| - 1].Speech?
  }

  // The call's stream cannot be built, or panics.
  predicate Breaks(a: Action, w: Worker) {
    a == Run(w, BuildFails) || a == Run(w, PullPanics)
  }

  predicate IsJob(s: State, w: Worker) {
    w in s.workers && s.workers[w].nonblocking
  }

  // A realtime call is about to pull, its flag set.
  ghost predicate SeesFlag(s: State, acts: seq<Action>, w: Worker, k: nat)
    requires k < |acts|
  {
    && w in s.workers && s.workers[w].mode.Realtime? && Flagged(acts, w, k)
    && (acts[k] == Run(w, BuildSucceeds) || Answers(s, acts[k], w, true))
  }

  datatype Ending = Finishing | Failing | Stopping | Erring

  // The action that decides how the call ends.
  ghost predicate EndsAt(s: State, acts: seq<Action>, w: Worker, e: Ending, k: nat)
    requires k < |acts|
  {
    match e
    case Finishing => acts[k] == Run(w, StreamEnds) || Checks(s, acts[k], w, true) || SeesFlag(s, acts, w, k)
    case Failing =>
      || (Checks(s, acts[k], w, false) && Unchecked(acts, w, PullsError, k))
      || (Breaks(acts[k], w) && IsJob(s, w))
    case Stopping => Answers(s, acts[k], w, false)
    case Erring => acts[k] == PoolUnavailable(w) || (Breaks(acts[k], w) && !IsJob(s, w))
  }

  ghost predicate HasEnding(r: seq<State>, acts: seq<Action>, w: Worker, e: Ending, n: nat)
    requires n <= |acts| < |r|
  {
    exists k: nat :: k < n && EndsAt(r[k], acts, w, e, k)
  }

  // A check with an audio chunk in hand that finds the voice open.
  ghost predicate Speaks(s: State, acts: seq<Action>, w: Worker, k: nat)
    requires k < |acts|
  {
    Checks(s, acts[k], w, false) && Unchecked(acts, w, PullsChunk, k)
  }

  ghost function SpeechDue(r: seq<State>, acts: seq<Action>, w: Worker, n: nat): nat
    requires n <= |acts| < |r|
  {
    if n == 0 then 0 else SpeechDue(r, acts, w, n - 1) + (if Speaks(r[n - 1], acts, w, n - 1) then 1 else 0)
  }

  // ---------- Reading the state ----------

  function OfEvent(e: Event): Option<Ending> {
    match e
    case Speech => None
    case Finished => Some(Finishing)
    case Failed => Some(Failing)
  }

  // The ending a call has come to, if any.
  function Verdict(ws: WorkerState): Option<Ending> {
    match ws.phase
    case Delivering(e) => OfEvent(e)
    case InCallback(e) => OfEvent(e)
    case FailedCall => Some(Erring)
    case Unwinding => OfOutcome(ws)
    case Releasing => OfOutcome(ws)
    case Ended => OfOutcome(ws)
    case _ => None
  }

  function OfOutcome(ws: WorkerState): Option<Ending> {
    match ws.outcome
    case Pending => None
    case Terminal => if ws.events == [] then None else OfEvent(ws.events[|ws.events| - 1])
    case Stopped => Some(Stopping)
    case Errored => Some(Erring)
  }

  // The SPEECH events of a log that only ends in a terminal one.
  function SpeechCount(events: seq<Event>): nat {
    if events != [] && !events[|events| - 1].Speech? then |events| - 1 else |events|
  }

  function SpeechTold(ws: WorkerState): nat {
    SpeechCount(ws.events) + (if ws.phase == Delivering(Speech) then 1 else 0)
  }

  // What the actions so far say of a call is what its state shows.
  ghost predicate Tells(r: seq<State>, acts: seq<Action>, w: Worker, n: nat)
    requires n <= |acts| < |r|
  {
    if w in r[n].workers then
      var ws := r[n].workers[w];
      && (forall e: Ending :: HasEnding(r, acts, w, e, n) <==> Verdict(ws) == Some(e))
      && (Unchecked(acts, w, PullsChunk, n) <==> ws.phase == Pulled(true))
      && (Unchecked(acts, w, PullsError, n) <==> ws.phase == Pulled(false))
      && (Flagged(acts, w, n) <==> ws.cancelled)
      && SpeechDue(r, acts, w, n) == SpeechTold(ws)
    else
      && (forall e: Ending :: !HasEnding(r, acts, w, e, n))
      && !Unchecked(acts, w, PullsChunk, n) && !Unchecked(acts, w, PullsError, n)
      && !Flagged(acts, w, n) && SpeechDue(r, acts, w, n) == 0
  }

  // ---------- One more action ----------

  lemma UncheckedMore(acts: seq<Action>, w: Worker, pull: Move, n: nat)
    requires n < |acts|
    ensures Unchecked(acts, w, pull, n + 1)
      <==> acts[n] == Run(w, pull) || (Unchecked(acts, w, pull, n) && acts[n] != Run(w, ReadsClosing))
  {
    if Unchecked(acts, w, pull, n + 1) {
      var p: nat :| p < n + 1 && PulledAt(acts, w, pull, p, n + 1);
      if p < n {
        assert PulledAt(acts, w, pull, p, n);
      }
    }
    if acts[n] == Run(w, pull) {
      assert PulledAt(acts, w, pull, n, n + 1);
    } else if Unchecked(acts, w, pull, n) && acts[n] != Run(w, ReadsClosing) {
      var p: nat :| p < n && PulledAt(acts, w, pull, p, n);
      assert PulledAt(acts, w, pull, p, n + 1);
    }
  }

  lemma EndingMore(r: seq<State>, acts: seq<Action>, w: Worker, e: Ending, n: nat)
    requires n < |acts| < |r|
    ensures HasEnding(r, acts, w, e, n + 1) <==> HasEnding(r, acts, w, e, n) || EndsAt(r[n], acts, w, e, n)
  {
    hide EndsAt;
  }

  lemma FlaggedMore(acts: seq<Action>, w: Worker, n: nat)
    requires n < |acts|
    ensures Flagged(acts, w, n + 1) <==> Flagged(acts, w, n) || (acts[n].CancelVoice? && acts[n].worker == w)
  {
    if acts[n].CancelVoice? && acts[n].worker == w {
      assert acts[n].worker == w;
    }
  }

  // What one more action of the run adds.
  lemma {:induction false} Told(r: seq<State>, acts: seq<Action>, w: Worker, n: nat, n': nat)
    requires n < n' == n + 1 <= |acts| < |r|
    ensures forall e: Ending ::
      HasEnding(r, acts, w, e, n') <==> HasEnding(r, acts, w, e, n) || EndsAt(r[n], acts, w, e, n)
    ensures forall pull: Move | pull == PullsChunk || pull == PullsError ::
      (Unchecked(acts, w, pull, n')
       <==> acts[n] == Run(w, pull) || (Unchecked(acts, w, pull, n) && acts[n] != Run(w, ReadsClosing)))
    ensures Flagged(acts, w, n') <==> Flagged(acts, w, n) || (acts[n].CancelVoice? && acts[n].worker == w)
    ensures SpeechDue(r, acts, w, n') == SpeechDue(r, acts, w, n) + (if Speaks(r[n], acts, w, n) then 1 else 0)
  {
    hide EndsAt, HasEnding, Unchecked, Flagged, Speaks;
    forall e: Ending
      ensures HasEnding(r, acts, w, e, n') <==> HasEnding(r, acts, w, e, n) || EndsAt(r[n], acts, w, e, n) {
      EndingMore(r, acts, w, e, n);
    }
    UncheckedMore(acts, w, PullsChunk, n);
    UncheckedMore(acts, w, PullsError, n);
    FlaggedMore(acts, w, n);
  }

  // The endings a move can bring, in terms of the call's state.
  predicate MoveEnds(ws: WorkerState, m: Move, closing: bool, e: Ending) {
    match e
    case Finishing =>
      || m.StreamEnds? || (m.ReadsClosing? && closing)
      || (&& ws.mode.Realtime? && ws.cancelled
          && (m.BuildSucceeds? || (m == Returns(true) && ws.phase == InCallback(Speech))))
    case Failing =>
      (m.ReadsClosing? && !closing && ws.phase == Pulled(false)) || ((m.BuildFails? || m.PullPanics?) && ws.nonblocking)
    case Stopping => m == Returns(false) && ws.phase == InCallback(Speech)
    case Erring => (m.BuildFails? || m.PullPanics?) && !ws.nonblocking
  }

  lemma MoveVerdict(ws: WorkerState, m: Move, closing: bool, e: Ending)
    requires NextPhase(ws, m, closing).Some? && LogOk(ws)
    ensures var ws' := Advance(ws, m, closing);
      Verdict(ws') == Some(e) <==> Verdict(ws) == Some(e) || MoveEnds(ws, m, closing, e)
  {
    if ws.phase.InCallback? {
      ReturnVerdict(ws, m, closing, e);
    } else {
      PullVerdict(ws, m, closing, e);
    }
  }

  lemma ReturnVerdict(ws: WorkerState, m: Move, closing: bool, e: Ending)
    requires NextPhase(ws, m, closing).Some? && LogOk(ws) && ws.phase.InCallback?
    ensures var ws' := Advance(ws, m, closing);
      Verdict(ws') == Some(e) <==> Verdict(ws) == Some(e) || MoveEnds(ws, m, closing, e)
  {
  }

  lemma PullVerdict(ws: WorkerState, m: Move, closing: bool, e: Ending)
    requires NextPhase(ws, m, closing).Some? && !ws.phase.InCallback?
    ensures var ws' := Advance(ws, m, closing);
      Verdict(ws') == Some(e) <==> Verdict(ws) == Some(e) || MoveEnds(ws, m, closing, e)
  {
  }

  // What a move changes of the items in hand and the SPEECH events, a delivered one apart.
  predicate MoveKeeps(ws: WorkerState, m: Move, closing: bool, ws': WorkerState) {
    && (ws'.phase == Pulled(true) <==> m.PullsChunk? || (ws.phase == Pulled(true) && !m.ReadsClosing?))
    && (ws'.phase == Pulled(false) <==> m.PullsError? || (ws.phase == Pulled(false) && !m.ReadsClosing?))
    && ws'.cancelled == ws.cancelled
    && SpeechTold(ws')
       == SpeechTold(ws) + (if m.ReadsClosing? && !closing && ws.phase == Pulled(true) then 1 else 0)
  }

  lemma MoveTells(ws: WorkerState, m: Move, closing: bool)
    requires NextPhase(ws, m, closing).Some? && LogOk(ws)
    ensures MoveKeeps(ws, m, closing, Advance(ws, m, closing))
  {
    if ws.phase.Delivering? {
      DeliveryTells(ws, m, closing);
    } else {
      OtherMoveTells(ws, m, closing);
    }
  }

  lemma DeliveryTells(ws: WorkerState, m: Move, closing: bool)
    requires NextPhase(ws, m, closing).Some? && LogOk(ws) && ws.phase.Delivering?
    ensures MoveKeeps(ws, m, closing, Advance(ws, m, closing))
  {
  }

  lemma OtherMoveTells(ws: WorkerState, m: Move, closing: bool)
    requires NextPhase(ws, m, closing).Some? && !ws.phase.Delivering?
    ensures MoveKeeps(ws, m, closing, Advance(ws, m, closing))
  {
    hide SpeechCount;
  }

  lemma MoveEndsAt(r: seq<State>, acts: seq<Action>, w: Worker, m: Move, n: nat, e: Ending)
    requires n < |acts| < |r| && w in r[n].workers && Tells(r, acts, w, n) && LogOk(r[n].workers[w])
    requires acts[n] == Run(w, m) && r[n].workers[w].voice in r[n].voices
    requires NextPhase(r[n].workers[w], m, r[n].voices[r[n].workers[w].voice].closing).Some?
    ensures EndsAt(r[n], acts, w, e, n)
      <==> MoveEnds(r[n].workers[w], m, r[n].voices[r[n].workers[w].voice].closing, e)
  {
    hide HasEnding, Unchecked, Flagged, SpeechDue;
  }

  lemma RunTells(r: seq<State>, acts: seq<Action>, w: Worker, m: Move, n: nat)
    requires n < |acts| < |r| && acts[n] == Run(w, m) && Enabled(r[n], acts[n]) && r[n + 1] == Apply(r[n], acts[n])
    requires w in r[n].workers && Tells(r, acts, w, n) && LogOk(r[n].workers[w])
    ensures Tells(r, acts, w, n + 1)
  {
    hide Apply, Enabled, NextPhase, Advance, HasEnding, Unchecked, Flagged, SpeechDue, EndsAt, LogOk, MoveEnds, Verdict,
      SpeechTold;
    RunAdvances(r[n], w, m);
    var ws, closing := r[n].workers[w], r[n].voices[r[n].workers[w].voice].closing;
    Told(r, acts, w, n, n + 1);
    MoveTells(ws, m, closing);
    forall e: Ending ensures HasEnding(r, acts, w, e, n + 1) <==> Verdict(r[n + 1].workers[w]) == Some(e) {
      MoveEndsAt(r, acts, w, m, n, e);
      MoveVerdict(ws, m, closing, e);
    }
  }

  // A step that is no move of the call: it only ever cancels, or fails for want of a pool.
  lemma QuietVerdict(s: State, a: Action, w: Worker)
    requires Enabled(s, a) && Acting(a) == Some(w) && !a.Run? && w in s.workers && LogOk(s.workers[w])
    ensures var ws, ws' := s.workers[w], CallAfter(s, a);
      && (forall e: Ending ::
            Verdict(ws') == Some(e) <==> Verdict(ws) == Some(e) || (a == PoolUnavailable(w) && e.Erring?))
      && (ws'.phase == Pulled(true) <==> ws.phase == Pulled(true))
      && (ws'.phase == Pulled(false) <==> ws.phase == Pulled(false))
      && (ws'.cancelled <==> ws.cancelled || a.CancelVoice?)
      && SpeechTold(ws') == SpeechTold(ws)
  {
    hide CanTakeJob, RunsCallerCode;
  }

  lemma QuietTells(r: seq<State>, acts: seq<Action>, w: Worker, n: nat)
    requires n < |acts| < |r| && Enabled(r[n], acts[n]) && r[n + 1] == Apply(r[n], acts[n])
    requires Acting(acts[n]) == Some(w) && !acts[n].Run?
    requires w in r[n].workers && Tells(r, acts, w, n) && LogOk(r[n].workers[w])
    ensures Tells(r, acts, w, n + 1)
  {
    hide Apply, Enabled, CallAfter, HasEnding, Unchecked, Flagged, SpeechDue, LogOk, Verdict, SpeechTold;
    OnlyActingWorker(r[n], acts[n]);
    QuietVerdict(r[n], acts[n], w);
    Told(r, acts, w, n, n + 1);
    OnlyMovesAndPool(r[n], acts, w, n);
  }

  // What ends a call, or makes it speak, is one of its moves or the missing pool.
  lemma OnlyMovesAndPool(s: State, acts: seq<Action>, w: Worker, n: nat)
    requires n < |acts| && !(acts[n].Run? && acts[n].worker == w)
    ensures forall e: Ending :: EndsAt(s, acts, w, e, n) <==> acts[n] == PoolUnavailable(w) && e.Erring?
    ensures !Speaks(s, acts, w, n)
  {
  }

  // A new call: its first action says nothing yet.
  lemma NewTells(r: seq<State>, acts: seq<Action>, w: Worker, n: nat)
    requires n < |acts| < |r| && Enabled(r[n], acts[n]) && r[n + 1] == Apply(r[n], acts[n])
    requires Acting(acts[n]) == Some(w) && w !in r[n].workers && Tells(r, acts, w, n)
    ensures Tells(r, acts, w, n + 1)
  {
    hide Apply, HasEnding, Unchecked, Flagged, CanTakeJob, RunsCallerCode, EndsAt, Speaks, NextPhase, Advance;
    OnlyActingWorker(r[n], acts[n]);
    Told(r, acts, w, n, n + 1);
    assert !acts[n].Run?;
    OnlyMovesAndPool(r[n], acts, w, n);
  }

  lemma OtherTells(r: seq<State>, acts: seq<Action>, w: Worker, n: nat)
    requires n < |acts| < |r| && Enabled(r[n], acts[n]) && r[n + 1] == Apply(r[n], acts[n])
    requires Acting(acts[n]) != Some(w) && Tells(r, acts, w, n)
    ensures Tells(r, acts, w, n + 1)
  {
    hide Apply, Enabled, CallAfter, HasEnding, Unchecked, Flagged, Verdict, SpeechTold, EndsAt, Speaks;
    OnlyActingWorker(r[n], acts[n]);
    Told(r, acts, w, n, n + 1);
    OnlyMovesAndPool(r[n], acts, w, n);
  }

  lemma {:induction false} TellsRun(r: seq<State>, acts: seq<Action>, w: Worker, n: nat)
    requires IsTrace(r, acts) && n < |r|
    ensures Tells(r, acts, w, n)
  {
    hide Apply, Enabled, Tells, LogOk;
    if n == 0 {
      NothingTold(r, acts, w);
    } else {
      TellsRun(r, acts, w, n - 1);
      assert Enabled(r[n - 1], acts[n - 1]) && r[n - 1 + 1] == Apply(r[n - 1], acts[n - 1]);
      if Acting(acts[n - 1]) != Some(w) {
        OtherTells(r, acts, w, n - 1);
      } else if w !in r[n - 1].workers {
        NewTells(r, acts, w, n - 1);
      } else {
        CallsRun(r, n - 1);
        assert CallOk(r[n - 1], w);
        if acts[n - 1].Run? {
          RunTells(r, acts, w, acts[n - 1].move, n - 1);
        } else {
          QuietTells(r, acts, w, n - 1);
        }
      }
    }
  }

  lemma NothingTold(r: seq<State>, acts: seq<Action>, w: Worker)
    requires |acts| < |r| && w !in r[0].workers
    ensures Tells(r, acts, w, 0)
  {
  }

  // ---------- Main results ----------

  function Speeches(n: nat): seq<Event> {
    seq(n, _ => Speech)
  }

  function LastWord(e: Ending): seq<Event> {
    match e
    case Finishing => [Finished]
    case Failing => [Failed]
    case Stopping => []
    case Erring => []
  }

  function OutcomeOf(e: Ending): Outcome {
    match e
    case Finishing => Terminal
    case Failing => Terminal
    case Stopping => Stopped
    case Erring => Errored
  }

  // At any moment the SPEECH events of a call, one still to be delivered included, are as many as
  // the audio chunks it pulled and then found its voice open.
  lemma {:induction false} SpeechEventsAreOpenChunks(r: seq<State>, acts: seq<Action>, w: Worker, i: nat)
    requires IsTrace(r, acts) && i < |r| && w in r[i].workers
    ensures SpeechDue(r, acts, w, i) == SpeechTold(r[i].workers[w])
  {
    TellsRun(r, acts, w, i);
  }

  // A call that is over has come to exactly one ending, and its whole log follows from the actions:
  // one SPEECH for each chunk found with the voice open, and then the last word of that ending.
  // ERROR is for an error item found with the voice open, and for a pool job whose stream cannot be
  // built or panics; FINISHED for the end of the stream, a closing voice and a set flag.
  lemma {:induction false} EndedCallLog(r: seq<State>, acts: seq<Action>, w: Worker, i: nat)
    requires IsTrace(r, acts) && i < |r| && w in r[i].workers && r[i].workers[w].phase.Ended?
    ensures exists e: Ending :: HasEnding(r, acts, w, e, i)
    ensures forall e: Ending | HasEnding(r, acts, w, e, i) ::
      && r[i].workers[w].events == Speeches(SpeechDue(r, acts, w, i)) + LastWord(e)
      && r[i].workers[w].outcome == OutcomeOf(e)
      && forall e': Ending | HasEnding(r, acts, w, e', i) :: e' == e
  {
    hide HasEnding, SpeechDue;
    TellsRun(r, acts, w, i);
    CallsRun(r, i);
    hide IsTrace;
    assert CallOk(r[i], w);
    EndedVerdict(r[i].workers[w]);
    var e := Verdict(r[i].workers[w]).value;
    assert HasEnding(r, acts, w, e, i);
  }

  lemma EndedVerdict(ws: WorkerState)
    requires ws.phase.Ended? && LogOk(ws)
    ensures Verdict(ws).Some?
    ensures ws.events == Speeches(SpeechTold(ws)) + LastWord(Verdict(ws).value)
    ensures ws.outcome == OutcomeOf(Verdict(ws).value)
  {
    if ws.outcome.Terminal? {
      var last := |ws.events| - 1;
      assert ws.events == ws.events[..last] + [ws.events[last]];
    }
  }

  // Once an action has decided how a call ends, the call pulls nothing and checks nothing any more:
  // its only further moves deliver a terminal event.
  lemma {:induction false} NothingAfterEnding(r: seq<State>, acts: seq<Action>, w: Worker, e: Ending,
                                             i: nat, k: nat, m: Move)
    requires IsTrace(r, acts) && i < k < |acts| && EndsAt(r[i], acts, w, e, i) && acts[k] == Run(w, m)
    ensures (e.Finishing? || e.Failing?) && (m.Invokes? || m.Returns?)
  {
    hide Apply, EndsAt, IsRun;
    TellsRun(r, acts, w, k);
    assert Enabled(r[k], acts[k]);
    RunAdvances(r[k], w, m);
    hide Enabled;
    assert HasEnding(r, acts, w, e, k);
    hide HasEnding, Unchecked, SpeechDue;
    CallsRun(r, k);
    assert CallOk(r[k], w);
  }
}
