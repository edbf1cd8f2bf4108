/**
 * Safety of the partition machine over whole runs: offsets below the committed one are finished, and records
 * are sent in order.
 */
module PartitionSafety {
  import opened Basics
  import opened PartitionMachine
  import opened PartitionBounds

  /** The record at offset o was delivered, filtered, or skipped with its skip row stored. */
  predicate Terminal(s: Shared, o: nat) { o in s.delivered || o in s.filtered || o in s.skips }

  ghost predicate AllTerminal(s: Shared, n: nat) { forall o: nat :: o < n ==> Terminal(s, o) }

  ghost predicate ReadsFinished(s: Shared, p: Phase) {
    match p
    case ReadStart(read) => read.Some? ==> AllTerminal(s, read.value)
    case ReadEnd(read, _) => read.Some? ==> AllTerminal(s, read.value)
    case ReadMarker(read, _, _) => read.Some? ==> AllTerminal(s, read.value)
    case Mark(at, _, _) => AllTerminal(s, at)
    case _ => true
  }

  ghost predicate WorkerFinished(s: Shared, k: Worker) {
    && ReadsFinished(s, k.phase)
    && (k.resolved && k.sound ==> AllTerminal(s, k.next))
    && (k.phase.WithRecord() ==> k.sound)
    && (k.phase.Commit? || k.phase.CommitWait? ==> Terminal(s, k.next))
  }

  ghost predicate WorkerOk(s: Shared, k: Worker) { WorkerBounded(s, k) && WorkerFinished(s, k) }

  lemma WorkerStaysFinished(s: Shared, t: Shared, k: Worker)
    requires Grows(s, t) && WorkerFinished(s, k)
    ensures WorkerFinished(t, k)
  {
    assert forall o: nat :: Terminal(s, o) ==> Terminal(t, o);
  }

  lemma AllTerminalGrows(s: Shared, t: Shared, n: nat)
    requires Grows(s, t) && AllTerminal(s, n)
    ensures AllTerminal(t, n)
  {
    assert forall o: nat :: Terminal(s, o) ==> Terminal(t, o);
  }

  ghost predicate SharedFinished(s: Shared) {
    && (s.committed.Some? ==> AllTerminal(s, s.committed.value))
    && (forall r :: r in s.requests ==> AllTerminal(s, r.upTo))
  }

  ghost predicate SharedOk(s: Shared) { SharedBounded(s) && SharedFinished(s) }

  ghost predicate Inv(s: State) {
    Bounded(s) && SharedFinished(s.shared) && forall w :: w in s.workers ==> WorkerFinished(s.shared, s.workers[w])
  }

  ghost predicate MoveFinished(move: Move) {
    SharedFinished(move.shared) && WorkerFinished(move.shared, move.worker)
  }

  lemma EventKeeps(s: Shared, event: Event)
    requires SharedFinished(s) && EventEnabled(s, event) && Grows(s, ApplyEvent(s, event))
    ensures SharedFinished(ApplyEvent(s, event))
  {
    assert forall o: nat :: Terminal(s, o) ==> Terminal(ApplyEvent(s, event), o);
  }

  lemma ChangeKeeps(s: Shared, k: Worker, change: Change)
    requires SharedFinished(s) && WorkerOk(s, k) && ChangeEnabled(s, k, change)
    ensures MoveFinished(ApplyChange(s, k, change))
  {
    assert forall o: nat :: Terminal(s, o) <==> Terminal(ApplyChange(s, k, change).shared, o);
  }

  lemma InitKeeps(s: Shared, k: Worker, call: InitCall)
    requires SharedFinished(s) && WorkerOk(s, k) && InitEnabled(k, call)
    ensures MoveFinished(ApplyInit(s, k, call))
  {
    if call.SeeMarker? {
      DecideKeeps(s, k, k.phase.read, k.phase.first, k.phase.last);
    } else {
      assert forall o: nat :: Terminal(s, o) <==> Terminal(ApplyInit(s, k, call).shared, o);
    }
  }

  lemma StopFinished(s: Shared, k: Worker, reason: BlockReason)
    requires SharedFinished(s) && WorkerFinished(s, k)
    ensures MoveFinished(Stop(s, k)) && MoveFinished(Blocked(s, k, reason))
  {
    assert forall o: nat :: Terminal(s, o) <==> Terminal(Blocked(s, k, reason).shared, o);
  }

  lemma DecideKeeps(s: Shared, k: Worker, read: Option<nat>, first: nat, last: nat)
    requires SharedFinished(s) && WorkerOk(s, k) && k.phase == ReadMarker(read, first, last)
    ensures MoveFinished(DecideHistory(s, k, read, first, last))
  {
    StopFinished(s, k, EstablishedLost);
    StopFinished(s, k, OutsideHistory);
    assert forall o: nat :: Terminal(s, o) <==> Terminal(DecideHistory(s, k, read, first, last).shared, o);
  }

  lemma CommitKeeps(s: Shared, w: nat, k: Worker, call: CommitCall)
    requires SharedFinished(s) && WorkerOk(s, k) && CommitEnabled(s, w, k, call)
    ensures MoveFinished(ApplyCommit(s, w, k, call))
  {
    assert forall o: nat :: Terminal(s, o) <==> Terminal(ApplyCommit(s, w, k, call).shared, o);
  }

  lemma RecordKeeps(s: Shared, k: Worker, call: RecordCall)
    requires SharedFinished(s) && WorkerOk(s, k) && RecordEnabled(k, call) && (call.Take? ==> k.sound)
    ensures MoveFinished(ApplyRecord(s, k, call))
  {
    assert forall o: nat :: Terminal(s, o) ==> Terminal(ApplyRecord(s, k, call).shared, o);
  }

  lemma MoveKeeps(s: Shared, k: Worker, step: Step)
    requires SharedFinished(s) && WorkerOk(s, k) && MoveEnabled(s, k, step)
    requires step.OnRecord? && step.call.Take? ==> k.sound
    ensures MoveFinished(ApplyMove(s, k, step))
  {
    match step
    case Around(_, change) => ChangeKeeps(s, k, change);
    case Init(_, call) => InitKeeps(s, k, call);
    case Commits(w, call) => CommitKeeps(s, w, k, call);
    case OnRecord(_, call) => RecordKeeps(s, k, call);
  }

  lemma StepKeepsInv(s: State, step: Step)
    requires Inv(s) && Enabled(s, step) && TakesSoundly(s, step)
    ensures Inv(Apply(s, step)) && Grows(s.shared, Apply(s, step).shared)
  {
    var t := Apply(s, step);
    StepBounded(s, step);
    match step {
      case Env(event) => EventKeeps(s.shared, event);
      case Assign => assert forall o: nat :: Terminal(s.shared, o) <==> Terminal(t.shared, o);
      case Crash(w) =>
      case _ => MoveKeeps(s.shared, s.workers[step.w], step);
    }
    forall w | w in t.workers
      ensures WorkerFinished(t.shared, t.workers[w])
    {
      if w in s.workers { WorkerStaysFinished(s.shared, t.shared, s.workers[w]); }
    }
  }

  lemma {:induction false} InvAlways(states: seq<State>, steps: seq<Step>, i: nat)
    requires IsRun(states, steps) && SoundTakes(states, steps) && i < |states|
    ensures Inv(states[i])
  {
    if i > 0 {
      InvAlways(states, steps, i - 1);
      assert Follows(states, steps, i - 1) && TakesSoundly(states[i - 1], steps[i - 1]);
      StepKeepsInv(states[i - 1], steps[i - 1]);
    }
  }

  /**
   * At every moment of every run, every offset below the committed offset has reached a
   * terminal outcome, whatever crashes, changes of owner, offset resets, lost offsets,
   * truncations and late requests the run contains.
   */
  lemma CommittedIsFinished(states: seq<State>, steps: seq<Step>, i: nat, o: nat)
    requires IsRun(states, steps) && SoundTakes(states, steps) && i < |states|
    requires states[i].shared.committed.Some? && o < states[i].shared.committed.value
    ensures Terminal(states[i].shared, o)
  {
    InvAlways(states, steps, i);
  }

  /** An attempt to send a record is made only after every earlier record is finished. */
  lemma SentInOrder(states: seq<State>, steps: seq<Step>, i: nat, o: nat)
    requires IsRun(states, steps) && SoundTakes(states, steps)
    requires i < |steps| && steps[i].OnRecord? && steps[i].call.Attempt? && steps[i].w in states[i].workers
    requires o < states[i].workers[steps[i].w].next
    ensures Terminal(states[i].shared, o)
  {
    InvAlways(states, steps, i);
    assert Follows(states, steps, i);
    assert WorkerOk(states[i].shared, states[i].workers[steps[i].w]);
  }
}
