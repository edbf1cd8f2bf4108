/** Why a source was blocked, over whole runs. */
module PartitionBlocks {
  import opened Basics
  import opened PartitionMachine

  /** The step that blocks for a reason, and what its worker had found. */
  predicate Causes(s: Shared, k: Worker, step: Step, reason: BlockReason) {
    match reason
    case EstablishedLost =>
      step.Init? && step.init.SeeMarker? && k.phase.ReadMarker?
      && k.phase.read == None && (s.started || k.phase.first > 0)
    case OutsideHistory =>
      step.Init? && step.init.SeeMarker? && k.phase.ReadMarker?
      && k.phase.read.Some? && !(k.phase.first <= k.phase.read.value <= k.phase.last)
    case FetchLost =>
      step.Around? && step.change.FetchOutOfRange? && k.resolved && !(s.logStart <= k.fetched <= s.logEnd)
    case Undecodable => step.OnRecord? && step.call.CannotDecode? && k.phase.Idle? && k.next < k.fetched
  }

  lemma MoveBlocks(s: Shared, k: Worker, step: Step, reason: BlockReason)
    requires MoveEnabled(s, k, step)
    ensures reason in ApplyMove(s, k, step).shared.blocks <==> reason in s.blocks || Causes(s, k, step, reason)
    ensures Causes(s, k, step, reason) ==> ApplyMove(s, k, step).worker.cancelled
  {
    match step
    case Around(_, change) => ChangeBlocks(s, k, step, reason);
    case Init(_, call) => InitBlocks(s, k, step, reason);
    case Commits(w, call) => assert ApplyCommit(s, w, k, call).shared.blocks == s.blocks;
    case OnRecord(_, call) => RecordBlocks(s, k, step, reason);
  }

  lemma ChangeBlocks(s: Shared, k: Worker, step: Step, reason: BlockReason)
    requires MoveEnabled(s, k, step) && step.Around?
    ensures reason in ApplyMove(s, k, step).shared.blocks <==> reason in s.blocks || Causes(s, k, step, reason)
    ensures Causes(s, k, step, reason) ==> ApplyMove(s, k, step).worker.cancelled
  {
  }

  lemma InitBlocks(s: Shared, k: Worker, step: Step, reason: BlockReason)
    requires MoveEnabled(s, k, step) && step.Init?
    ensures reason in ApplyMove(s, k, step).shared.blocks <==> reason in s.blocks || Causes(s, k, step, reason)
    ensures Causes(s, k, step, reason) ==> ApplyMove(s, k, step).worker.cancelled
  {
  }

  lemma RecordBlocks(s: Shared, k: Worker, step: Step, reason: BlockReason)
    requires MoveEnabled(s, k, step) && step.OnRecord?
    ensures reason in ApplyMove(s, k, step).shared.blocks <==> reason in s.blocks || Causes(s, k, step, reason)
    ensures Causes(s, k, step, reason) ==> ApplyMove(s, k, step).worker.cancelled
  {
  }

  /** A step by which some worker blocks for the reason. */
  predicate BlocksAt(s: State, step: Step, reason: BlockReason) {
    && (step.Around? || step.Init? || step.Commits? || step.OnRecord?)
    && step.w in s.workers && Causes(s.shared, s.workers[step.w], step, reason)
  }

  lemma StepBlocks(s: State, step: Step, reason: BlockReason)
    requires Enabled(s, step)
    ensures reason in Apply(s, step).shared.blocks <==> reason in s.shared.blocks || BlocksAt(s, step, reason)
  {
    if step.Around? || step.Init? || step.Commits? || step.OnRecord? {
      MoveBlocks(s.shared, s.workers[step.w], step, reason);
    }
  }

  /** In every run a source is blocked for a reason exactly when some step before has found it. */
  lemma {:induction false} BlocksExactly(states: seq<State>, steps: seq<Step>, j: nat, reason: BlockReason)
    requires IsRun(states, steps) && j < |states|
    ensures reason in states[j].shared.blocks <==>
              exists i :: 0 <= i < j && BlocksAt(states[i], steps[i], reason)
  {
    if j > 0 {
      BlocksExactly(states, steps, j - 1, reason);
      assert Follows(states, steps, j - 1);
      StepBlocks(states[j - 1], steps[j - 1], reason);
    }
  }
}
