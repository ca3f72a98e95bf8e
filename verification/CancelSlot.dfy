/**
 The cancel slot of a voice: the last realtime synthesis to start puts its token there, a finishing
 synthesis empties it only if it still holds its own token, and cancelling sets the held flag.
 */
module CancelSlot {
  import opened Cancellation
  import opened Wrappers

  // T identifies a token. `started` lists every synthesis in start order.
  datatype Slot<T(==)> = Slot(held: Option<T>, started: seq<T>, running: set<T>, cancelled: set<T>)

  datatype Operation<T> = Start(token: T) | Finish(token: T) | Cancel

  predicate Allowed<T(==)>(s: Slot<T>, op: Operation<T>) {
    match op
    case Start(t) => t !in s.started
    case Finish(t) => t in s.running
    case Cancel => true
  }

  function Perform<T(==)>(s: Slot<T>, op: Operation<T>): Slot<T> {
    match op
    case Start(t) => s.(held := Some(t), started := s.started + [t], running := s.running + {t})
    case Finish(t) => s.(held := if s.held == Some(t) then None else s.held, running := s.running - {t})
    case Cancel => if s.held.Some? then s.(cancelled := s.cancelled + {s.held.value}) else s
  }

  ghost predicate IsRun<T>(r: seq<Slot<T>>, ops: seq<Operation<T>>) {
    && |r| == |ops| + 1 && r[0] == Slot(None, [], {}, {})
    && forall i | 0 <= i < |ops| :: StepAt(r, ops, i)
  }

  ghost predicate StepAt<T>(r: seq<Slot<T>>, ops: seq<Operation<T>>, i: nat)
    requires i < |ops| && |r| == |ops| + 1
  {
    Allowed(r[i], ops[i]) && r[i + 1] == Perform(r[i], ops[i])
  }

  // The token of the most recently started synthesis, if that one is still running.
  function LatestRunning<T(==)>(s: Slot<T>): Option<T> {
    if s.started != [] && s.started[|s.started| - 1] in s.running
    then Some(s.started[|s.started| - 1]) else None
  }

  predicate SlotOk<T(==)>(s: Slot<T>) {
    && s.held == LatestRunning(s)
    && (forall t | t in s.running :: t in s.started)
    && (forall i, j | 0 <= i < j < |s.started| :: s.started[i] != s.started[j])
  }

  lemma OperationKeepsSlot<T>(s: Slot<T>, op: Operation<T>)
    requires SlotOk(s) && Allowed(s, op)
    ensures SlotOk(Perform(s, op))
  {
  }

  // In every run of overlapping syntheses the slot holds exactly the most recently started one
  // while that one runs, and is empty otherwise: an earlier finish never clobbers it.
  lemma {:induction false} SlotHoldsLatestRunning<T>(r: seq<Slot<T>>, ops: seq<Operation<T>>, i: nat)
    requires IsRun(r, ops) && i < |r|
    ensures SlotOk(r[i])
  {
    if i > 0 {
      SlotHoldsLatestRunning(r, ops, i - 1);
      assert StepAt(r, ops, i - 1);
      OperationKeepsSlot(r[i - 1], ops[i - 1]);
    }
  }

  // Cancelling reaches a running synthesis if and only if the most recently started one still
  // runs; then it reaches that one and no other.
  lemma CancelReachesOnlyTheLatest<T>(r: seq<Slot<T>>, ops: seq<Operation<T>>, i: nat)
    requires IsRun(r, ops) && i < |r|
    ensures LatestRunning(r[i]).Some? <==> r[i].held.Some? && r[i].held.value in r[i].running
    ensures Perform(r[i], Cancel).cancelled
      == r[i].cancelled + (match LatestRunning(r[i]) case None => {} case Some(t) => {t})
  {
    SlotHoldsLatestRunning(r, ops, i);
  }

  // Flags are never cleared, in any run.
  lemma {:induction false} CancellationIsMonotone<T>(r: seq<Slot<T>>, ops: seq<Operation<T>>, i: nat, j: nat)
    requires IsRun(r, ops) && i <= j < |r|
    ensures r[i].cancelled <= r[j].cancelled
    decreases j - i
  {
    if i < j {
      CancellationIsMonotone(r, ops, i, j - 1);
      assert StepAt(r, ops, j - 1);
    }
  }

  // The limit documented for the cancel call is reached: while both of two syntheses run, cancelling
  // reaches the later one, and once that one has finished the earlier one runs on and is not reached.
  lemma EarlierSynthesisCannotBeCancelled() returns (r: seq<Slot<int>>, ops: seq<Operation<int>>)
    ensures IsRun(r, ops) && ops == [Start(1), Start(2), Cancel, Finish(2), Cancel]
    ensures var last := r[|r| - 1]; last.running == {1} && last.cancelled == {2}
  {
    ops := [Start(1), Start(2), Cancel, Finish(2), Cancel];
    var s0 := Slot(None, [], {}, {});
    var s1 := Perform(s0, ops[0]);
    var s2 := Perform(s1, ops[1]);
    var s3 := Perform(s2, ops[2]);
    var s4 := Perform(s3, ops[3]);
    r := [s0, s1, s2, s3, s4, Perform(s4, ops[4])];
    assert s2.started == [1, 2];
    assert s4.running == {1};
    assert StepAt(r, ops, 0) && StepAt(r, ops, 1) && StepAt(r, ops, 2) && StepAt(r, ops, 3) && StepAt(r, ops, 4);
  }

  // ---------- The objects ----------

  class VoiceSlot {
    var active: CancellationToken?
    ghost var started: seq<CancellationToken>
    ghost var running: set<CancellationToken>

    // The abstract slot; a token counts as cancelled when its flag is set.
    ghost function Contents(): Slot<CancellationToken>
      reads this, started
    {
      Slot(if active == null then None else Some(active as CancellationToken), started, running,
           set t | t in started && t.flag)
    }

    ghost predicate Valid()
      reads this, started
    {
      SlotOk(Contents())
    }

    constructor ()
      ensures Valid() && Contents() == Slot(None, [], {}, {})
    {
      active, started, running := null, [], {};
    }

    // A realtime synthesis starts: it stores its new token, whatever the slot held.
    method Start() returns (token: CancellationToken)
      requires Valid()
      modifies this
      ensures fresh(token) && Valid() && Contents() == Perform(old(Contents()), Operation.Start(token))
    {
      token := new CancellationToken();
      active := token;
      started := started + [token];
      running := running + {token};
    }

    // The synthesis ends: its guard empties the slot only if the slot still holds its token.
    method Finish(token: CancellationToken)
      requires Valid() && token in running
      modifies this
      ensures Valid() && Contents() == Perform(old(Contents()), Operation.Finish(token))
    {
      if active != null {
        var stillOwnsSlot := active.PointsToSameFlag(token);
        if stillOwnsSlot {
          active := null;
        }
      }
      running := running - {token};
    }

    method CancelActive()
      requires Valid()
      modifies active
      ensures Valid() && Contents() == Perform(old(Contents()), Operation.Cancel)
    {
      if active != null {
        active.Cancel();
      }
    }
  }
}
