/** Who may commit: every commit that takes effect was checked under its worker's lock. */
module PartitionCommits {
  import opened Basics
  import opened PartitionMachine
  import opened PartitionBounds

  /** Worker w is gone, or no longer owns the partition and has no commit in flight. */
  predicate Retired(s: State, w: nat) {
    w < s.nextId && (w in s.workers ==> !s.workers[w].owned && !s.workers[w].phase.HoldsLock())
  }

  lemma RetiredStays(s: State, step: Step, w: nat)
    requires Enabled(s, step) && Retired(s, w)
    ensures Retired(Apply(s, step), w)
  {
  }

  lemma {:induction false} RetiredFrom(states: seq<State>, steps: seq<Step>, i: nat, j: nat, w: nat)
    requires IsRun(states, steps)
    requires i < j < |states| && steps[i] == Around(w, ClearOwnership)
    ensures Retired(states[j], w)
  {
    assert Follows(states, steps, j - 1);
    if j - 1 == i {
      BoundedAlways(states, steps, i);
    } else {
      RetiredFrom(states, steps, i, j - 1, w);
      RetiredStays(states[j - 1], steps[j - 1], w);
    }
  }

  /** After stopWorkers has cleared its ownership, a worker sends no commit and completes none. */
  lemma NoCommitAfterCleared(states: seq<State>, steps: seq<Step>, i: nat, j: nat, w: nat)
    requires IsRun(states, steps)
    requires i < j < |steps| && steps[i] == Around(w, ClearOwnership)
    requires steps[j].Commits? && steps[j].w == w
    ensures steps[j].commit.Check?
    ensures states[j + 1].shared == states[j].shared
  {
    RetiredFrom(states, steps, i, j, w);
    assert Follows(states, steps, j);
  }

  // ----- behind every commit lies a check

  /** The check found the worker owned, not cancelled and allowed, about to ask for this offset. */
  predicate ChecksFor(s: State, step: Step, r: Request) {
    && step == Commits(r.worker, Check(true)) && r.worker in s.workers
    && s.workers[r.worker].owned && !s.workers[r.worker].cancelled
    && Target(s.workers[r.worker]) == r.upTo
  }

  /** Every request that has left a worker, answered or not, was checked. */
  lemma {:induction false} RequestWasChecked(states: seq<State>, steps: seq<Step>, j: nat, r: Request) returns (i: nat)
    requires IsRun(states, steps) && j < |states| && r in states[j].shared.requests
    ensures i < j && ChecksFor(states[i], steps[i], r)
  {
    assert j > 0 && Follows(states, steps, j - 1);
    if r in states[j - 1].shared.requests {
      i := RequestWasChecked(states, steps, j - 1, r);
    } else {
      RequestAdded(states[j - 1], steps[j - 1], r);
      i := j - 1;
    }
  }

  /** Requests come from commits alone, and the committed offset moves by commits and by what happens to Kafka. */
  lemma OnlyCommitsWrite(s: State, step: Step)
    requires Enabled(s, step)
    ensures !step.Commits? ==> Apply(s, step).shared.requests == s.shared.requests
    ensures !step.Commits? && !step.Env? ==> Apply(s, step).shared.committed == s.shared.committed
  {
    match step
    case Around(w, change) => ChangeWritesNoOffset(s.shared, s.workers[w], change);
    case Init(w, call) => InitWritesNoOffset(s.shared, s.workers[w], call);
    case OnRecord(w, call) => RecordWritesNoOffset(s.shared, s.workers[w], call);
    case _ =>
  }

  lemma ChangeWritesNoOffset(s: Shared, k: Worker, change: Change)
    requires ChangeEnabled(s, k, change)
    ensures var t := ApplyChange(s, k, change).shared; t.requests == s.requests && t.committed == s.committed
  {
  }

  lemma InitWritesNoOffset(s: Shared, k: Worker, call: InitCall)
    requires InitEnabled(k, call)
    ensures var t := ApplyInit(s, k, call).shared; t.requests == s.requests && t.committed == s.committed
  {
  }

  lemma RecordWritesNoOffset(s: Shared, k: Worker, call: RecordCall)
    requires RecordEnabled(k, call)
    ensures var t := ApplyRecord(s, k, call).shared; t.requests == s.requests && t.committed == s.committed
  {
  }

  lemma RequestAdded(s: State, step: Step, r: Request)
    requires Enabled(s, step) && r !in s.shared.requests && r in Apply(s, step).shared.requests
    ensures ChecksFor(s, step, r)
  {
    OnlyCommitsWrite(s, step);
  }

  /** The commit of r takes effect: acknowledged to its worker, or late and unanswered. */
  predicate TakesEffect(s: State, step: Step, r: Request) {
    || step == Env(Land(r))
    || (step == Commits(r.worker, Ack) && r.worker in s.workers && Target(s.workers[r.worker]) == r.upTo)
  }

  /** A worker that holds its lock has sent the request it waits for. */
  lemma {:induction false} WaitsForItsRequest(states: seq<State>, steps: seq<Step>, j: nat, w: nat)
    requires IsRun(states, steps) && j < |states|
    requires w in states[j].workers && states[j].workers[w].phase.HoldsLock()
    ensures Request(w, Target(states[j].workers[w])) in states[j].shared.requests
  {
    assert j > 0 && Follows(states, steps, j - 1);
    BoundedAlways(states, steps, j - 1);
    var s, step := states[j - 1], steps[j - 1];
    if w in s.workers && s.workers[w].phase.HoldsLock() {
      WaitsForItsRequest(states, steps, j - 1, w);
      WaitingKeepsTarget(s, step, w);
    } else {
      LockTaken(s, step, w);
    }
  }

  lemma WaitingKeepsTarget(s: State, step: Step, w: nat)
    requires Enabled(s, step) && Bounded(s) && w in s.workers && s.workers[w].phase.HoldsLock()
    requires w in Apply(s, step).workers && Apply(s, step).workers[w].phase.HoldsLock()
    ensures Target(Apply(s, step).workers[w]) == Target(s.workers[w])
    ensures s.shared.requests <= Apply(s, step).shared.requests
  {
    OnlyCommitsWrite(s, step);
    match step
    case Env(_) =>
    case Assign =>
    case Crash(_) =>
    case _ => if step.w == w { WaitingMoves(s.shared, s.workers[w], step); }
  }

  lemma WaitingMoves(s: Shared, k: Worker, step: Step)
    requires MoveEnabled(s, k, step) && WorkerBounded(s, k) && k.phase.HoldsLock()
    requires ApplyMove(s, k, step).worker.phase.HoldsLock()
    ensures step.Around? && Target(ApplyMove(s, k, step).worker) == Target(k)
  {
  }

  /**
   * Behind every commit that takes effect, at once or late, lies a check under its worker's mutex
   * that found it owned, not cancelled and allowed, for exactly the offset committed. And the
   * committed offset moves in no other way than by commits, resets and losses.
   */
  lemma CommitWasChecked(states: seq<State>, steps: seq<Step>, j: nat, r: Request) returns (i: nat)
    requires IsRun(states, steps) && j < |steps| && TakesEffect(states[j], steps[j], r)
    ensures i < j && ChecksFor(states[i], steps[i], r)
    ensures states[j + 1].shared.committed == Some(r.upTo)
  {
    assert Follows(states, steps, j);
    if steps[j].Commits? { WaitsForItsRequest(states, steps, j, r.worker); }
    i := RequestWasChecked(states, steps, j, r);
  }

  lemma OnlyCommitsMoveOffsets(s: State, step: Step)
    requires Enabled(s, step) && Apply(s, step).shared.committed != s.shared.committed
    ensures (exists r :: TakesEffect(s, step, r)) || (step.Env? && (step.event.ResetBack? || step.event.LoseOffsets?))
  {
    OnlyCommitsWrite(s, step);
    if step.Env? {
      if step.event.Land? { assert TakesEffect(s, step, step.event.request); }
    } else {
      assert TakesEffect(s, step, Request(step.w, Target(s.workers[step.w])));
    }
  }

  /** While a commit is in flight its worker's ownership is not cleared. */
  lemma {:induction false} OwnedWhileInFlight(states: seq<State>, steps: seq<Step>, j: nat, w: nat) returns (i: nat)
    requires IsRun(states, steps) && j < |states|
    requires w in states[j].workers && states[j].workers[w].phase.HoldsLock()
    ensures i < j && steps[i] == Commits(w, Check(true)) && w in states[i].workers
    ensures states[i].workers[w].owned && !states[i].workers[w].cancelled
    ensures forall k :: i <= k < j ==> steps[k] != Around(w, ClearOwnership)
  {
    assert j > 0;
    assert Follows(states, steps, j - 1);
    var before, step := states[j - 1], steps[j - 1];
    if w in before.workers && before.workers[w].phase.HoldsLock() {
      i := OwnedWhileInFlight(states, steps, j - 1, w);
      assert step != Around(w, ClearOwnership);
    } else {
      LockTaken(before, step, w);
      i := j - 1;
    }
  }

  /** Only a check that passes takes a worker's lock. */
  lemma LockTakenByMove(s: Shared, k: Worker, step: Step)
    requires MoveEnabled(s, k, step) && !k.phase.HoldsLock() && ApplyMove(s, k, step).worker.phase.HoldsLock()
    ensures step.Commits? && step.commit == Check(true) && k.owned && !k.cancelled
  {
    match step
    case Around(_, _) =>
    case Init(_, call) => InitTakesNoLock(s, k, call);
    case Commits(_, call) =>
    case OnRecord(_, call) => RecordTakesNoLock(s, k, call);
  }

  lemma InitTakesNoLock(s: Shared, k: Worker, call: InitCall)
    requires InitEnabled(k, call)
    ensures !ApplyInit(s, k, call).worker.phase.HoldsLock()
  {
  }

  lemma RecordTakesNoLock(s: Shared, k: Worker, call: RecordCall)
    requires !k.phase.HoldsLock()
    ensures !ApplyRecord(s, k, call).worker.phase.HoldsLock()
  {
  }

  lemma LockTaken(s: State, step: Step, w: nat)
    requires Enabled(s, step)
    requires w in Apply(s, step).workers && Apply(s, step).workers[w].phase.HoldsLock()
    requires w !in s.workers || !s.workers[w].phase.HoldsLock()
    ensures step == Commits(w, Check(true)) && w in s.workers
    ensures s.workers[w].owned && !s.workers[w].cancelled
  {
    match step
    case Env(_) =>
    case Assign =>
    case Crash(_) =>
    case _ => if step.w == w { LockTakenByMove(s.shared, s.workers[w], step); }
  }
}
