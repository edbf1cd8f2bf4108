/** Crash safety of initialize, and when the fetching assumption holds. */
module PartitionRecovery {
  import opened Basics
  import opened PartitionMachine
  import opened PartitionBounds
  import opened PartitionSafety
  import opened PartitionSkips

  /**
   * When initialize succeeds, the offset it goes on from lies between the log start and end
   * it read, and no record the log had already dropped was unfinished.
   */
  lemma InitializeChecksHistory(states: seq<State>, steps: seq<Step>, i: nat, o: nat)
    requires IsRun(states, steps) && SoundTakes(states, steps)
    requires i < |steps| && steps[i].Init? && steps[i].init.Marked?
    requires steps[i].w in states[i].workers && states[i].workers[steps[i].w].phase.Mark?
    ensures var p := states[i].workers[steps[i].w].phase;
            p.first <= p.at <= p.last && (o < p.first ==> Terminal(states[i].shared, o))
  {
    InvAlways(states, steps, i);
    assert WorkerOk(states[i].shared, states[i].workers[steps[i].w]);
  }

  // ----- a Kafka that loses nothing

  /** The first offset that is still needed. */
  function Needed(s: Shared): nat { if s.committed.Some? then s.committed.value else 0 }

  /** Retention stops at the first offset needed, resets stay within the log, and offsets are kept. */
  predicate LosesNothing(s: State, step: Step) {
    match step
    case Env(Truncate(to)) => to <= Needed(s.shared)
    case Env(ResetBack(to)) => s.shared.logStart <= to
    case Env(LoseOffsets) => s.shared.committed == None
    case _ => true
  }

  /** Kafka loses neither committed offsets nor history that is still needed. */
  ghost predicate Lossless(states: seq<State>, steps: seq<Step>)
    requires |states| == |steps| + 1
  {
    states[0].shared.logStart == 0 && forall i :: 0 <= i < |steps| ==> LosesNothing(states[i], steps[i])
  }

  /** A commit that takes effect late still finds its offset in the log. */
  predicate LandsInLog(s: State, step: Step) {
    step.Env? && step.event.Land? ==> s.shared.logStart <= step.event.request.upTo
  }

  ghost predicate LandInLog(states: seq<State>, steps: seq<Step>)
    requires |states| == |steps| + 1
  {
    forall i :: 0 <= i < |steps| ==> LandsInLog(states[i], steps[i])
  }

  /** What follows: the log still holds everything from the first offset needed. */
  predicate Kept(s: State) { s.shared.logStart <= Needed(s.shared) }

  /** A log that nothing has been consumed of is whole, whatever commits land when. */
  lemma {:induction false} UnconsumedIsWhole(states: seq<State>, steps: seq<Step>, i: nat)
    requires IsRun(states, steps) && Lossless(states, steps) && i < |states|
    ensures FirstKept(states[i])
  {
    if i > 0 {
      UnconsumedIsWhole(states, steps, i - 1);
      assert Follows(states, steps, i - 1) && LosesNothing(states[i - 1], steps[i - 1]);
      var s, step := states[i - 1], steps[i - 1];
      if step.Around? || step.Init? || step.Commits? || step.OnRecord? {
        MoveKeepsCommitted(s.shared, s.workers[step.w], step);
      }
    }
  }

  predicate Positioned(s: State) {
    forall w :: w in s.workers && s.workers[w].resolved ==> s.workers[w].sound
  }

  lemma {:induction false} PositionedAlways(states: seq<State>, steps: seq<Step>, i: nat)
    requires IsRun(states, steps) && i < |states|
    requires forall j :: 0 <= j < |states| ==> FirstKept(states[j])
    ensures Positioned(states[i])
  {
    if i > 0 {
      PositionedAlways(states, steps, i - 1);
      assert Follows(states, steps, i - 1);
      assert FirstKept(states[i - 1]);
      StepPositions(states[i - 1], steps[i - 1]);
    }
  }

  lemma StepPositions(s: State, step: Step)
    requires Enabled(s, step) && Positioned(s)
    requires s.shared.committed == None ==> s.shared.logStart == 0
    ensures Positioned(Apply(s, step))
  {
  }

  lemma WholeUntilCommitted(states: seq<State>, steps: seq<Step>)
    requires IsRun(states, steps) && forall j :: 0 <= j < |states| ==> FirstKept(states[j])
    ensures SoundTakes(states, steps)
  {
    forall i | 0 <= i < |steps|
      ensures TakesSoundly(states[i], steps[i])
    {
      PositionedAlways(states, steps, i);
      assert Follows(states, steps, i);
    }
  }

  /** A run that loses nothing positions every worker as fetching is assumed to. */
  lemma LosslessIsSound(states: seq<State>, steps: seq<Step>)
    requires IsRun(states, steps) && Lossless(states, steps)
    ensures SoundTakes(states, steps)
  {
    forall j | 0 <= j < |states|
      ensures FirstKept(states[j])
    {
      UnconsumedIsWhole(states, steps, j);
    }
    WholeUntilCommitted(states, steps);
  }

  /** The highest offset a request of this worker may ask for. */
  function Reach(k: Worker): nat {
    if k.phase.Initializing() || !k.resolved then 0
    else if k.phase.Commit? || k.phase.CommitWait? then k.next + 1
    else k.next
  }

  /** A worker that read no committed offset while nothing had been started. */
  predicate Untouched(s: Shared) {
    !s.started && !s.markSent && (s.committed == None || s.committed == Some(0))
  }

  predicate ReadStillGood(s: Shared, read: Option<nat>) {
    match read
    case None => Untouched(s)
    case Some(at) => s.committed.Some? && s.committed.value <= at
  }

  predicate Unblockable(s: Shared, k: Worker) {
    && (k.resolved && s.committed.Some? ==>
          s.committed.value <= k.next + (if k.phase.Commit? || k.phase.CommitWait? then 1 else 0))
    && match k.phase
       case ReadStart(read) => ReadStillGood(s, read)
       case ReadEnd(read, first) => ReadStillGood(s, read) && (if read.Some? then first <= read.value else first == 0)
       case ReadMarker(read, first, last) =>
         ReadStillGood(s, read) && (if read.Some? then first <= read.value <= last else first == 0)
       case Baseline(_, _) => s.committed == None || s.committed == Some(0)
       case BaselineWait(_, _) => s.committed == None || s.committed == Some(0)
       case Mark(_, _, _) => s.committed.Some?
       case _ => true
  }

  ghost predicate OwnRequests(s: Shared, w: nat, k: Worker) {
    forall r :: r in s.requests && r.worker == w ==> r.upTo <= Reach(k)
  }

  ghost predicate NeverLost(s: State) {
    && Kept(s)
    && s.shared.blocks <= {Undecodable}
    && (s.shared.committed == None ==> !s.shared.started && !s.shared.markSent)
    && (s.shared.owner.Some? ==> s.shared.owner.value + 1 == s.nextId)
    && (forall r :: r in s.shared.requests ==> r.worker < s.nextId)
    && (forall w :: w in s.workers && s.workers[w].phase.Done? ==> s.workers[w].cancelled)
    && forall w: nat :: Live(s, w) ==>
         w + 1 == s.nextId && Unblockable(s.shared, s.workers[w]) && OwnRequests(s.shared, w, s.workers[w])
  }

  lemma EventKeepsUnblockable(s: Shared, w: nat, k: Worker, event: Event)
    requires EventEnabled(s, event) && Unblockable(s, k) && OwnRequests(s, w, k) && WorkerOk(s, k)
    requires s.owner.Some? ==> s.owner.value == w
    requires event.LoseOffsets? ==> s.committed == None
    requires s.committed == None ==> !s.started && !s.markSent
    ensures Unblockable(ApplyEvent(s, event), k)
  {
    if event.Land? { assert event.request.upTo <= Reach(k); }
  }

  ghost predicate MoveUnblockable(s: Shared, w: nat, move: Move) {
    && move.shared.blocks <= s.blocks + {Undecodable}
    && (move.shared.committed == None ==> !move.shared.started && !move.shared.markSent)
    && (forall r :: r in move.shared.requests ==> r in s.requests || r.worker == w)
    && move.shared.owner == s.owner && move.shared.logStart <= Needed(move.shared)
    && (move.worker.phase.Done? ==> move.worker.cancelled)
    && (move.worker.phase.Done? ||
        (Unblockable(move.shared, move.worker) && OwnRequests(move.shared, w, move.worker)))
  }

  lemma ChangeUnblockable(s: Shared, w: nat, k: Worker, change: Change)
    requires ChangeEnabled(s, k, change) && Unblockable(s, k) && OwnRequests(s, w, k) && WorkerOk(s, k)
    requires s.logStart <= Needed(s)
    requires s.committed == None ==> !s.started && !s.markSent
    requires !k.phase.Done?
    ensures MoveUnblockable(s, w, ApplyChange(s, k, change))
  {
  }

  lemma InitUnblockable(s: Shared, w: nat, k: Worker, call: InitCall)
    requires InitEnabled(k, call) && Unblockable(s, k) && OwnRequests(s, w, k) && WorkerOk(s, k) && SharedOk(s)
    requires s.logStart <= Needed(s)
    requires s.committed == None ==> !s.started && !s.markSent
    ensures MoveUnblockable(s, w, ApplyInit(s, k, call))
  {
    var m := ApplyInit(s, k, call);
    assert m.shared.requests == s.requests && Reach(m.worker) >= Reach(k);
    assert OwnRequests(m.shared, w, m.worker);
  }

  lemma CommitUnblockable(s: Shared, w: nat, k: Worker, call: CommitCall)
    requires CommitEnabled(s, w, k, call) && Unblockable(s, k) && OwnRequests(s, w, k) && WorkerOk(s, k)
    requires s.logStart <= Needed(s)
    requires s.committed == None ==> !s.started && !s.markSent
    ensures MoveUnblockable(s, w, ApplyCommit(s, w, k, call))
  {
    var m := ApplyCommit(s, w, k, call);
    assert Reach(m.worker) >= Reach(k);
    assert OwnRequests(m.shared, w, m.worker);
  }

  lemma RecordUnblockable(s: Shared, w: nat, k: Worker, call: RecordCall)
    requires RecordEnabled(k, call) && Unblockable(s, k) && OwnRequests(s, w, k) && WorkerOk(s, k)
    requires s.logStart <= Needed(s)
    requires s.committed == None ==> !s.started && !s.markSent
    requires !k.phase.Done?
    ensures MoveUnblockable(s, w, ApplyRecord(s, k, call))
  {
    var m := ApplyRecord(s, k, call);
    if !m.worker.phase.Done? {
      assert Reach(m.worker) >= Reach(k);
      assert OwnRequests(m.shared, w, m.worker);
    }
  }

  lemma MoveKeepsUnblockable(s: Shared, w: nat, k: Worker, step: Step)
    requires MoveEnabled(s, k, step) && step.w == w && !k.phase.Done?
    requires Unblockable(s, k) && OwnRequests(s, w, k) && WorkerOk(s, k) && SharedOk(s)
    requires s.logStart <= Needed(s)
    requires s.committed == None ==> !s.started && !s.markSent
    ensures MoveUnblockable(s, w, ApplyMove(s, k, step))
  {
    match step
    case Around(_, change) => ChangeUnblockable(s, w, k, change);
    case Init(_, call) => InitUnblockable(s, w, k, call);
    case Commits(_, call) => CommitUnblockable(s, w, k, call);
    case OnRecord(_, call) => RecordUnblockable(s, w, k, call);
  }

  lemma DoneChangesNothing(s: Shared, k: Worker, step: Step)
    requires MoveEnabled(s, k, step) && k.phase.Done? && k.cancelled
    ensures ApplyMove(s, k, step).shared == s
    ensures ApplyMove(s, k, step).worker.phase.Done? && ApplyMove(s, k, step).worker.cancelled
  {
  }

  lemma EventKeepsNeverLost(s: State, event: Event)
    requires NeverLost(s) && Inv(s)
    requires EventEnabled(s.shared, event) && LosesNothing(s, Env(event)) && LandsInLog(s, Env(event))
    ensures NeverLost(Apply(s, Env(event)))
  {
    var t := Apply(s, Env(event));
    forall w: nat | Live(t, w)
      ensures w + 1 == t.nextId && Unblockable(t.shared, t.workers[w]) && OwnRequests(t.shared, w, t.workers[w])
    {
      assert Live(s, w);
      EventKeepsUnblockable(s.shared, w, s.workers[w], event);
    }
  }

  lemma AssignKeepsNeverLost(s: State)
    requires NeverLost(s) && OneLive(Apply(s, Assign)) && forall w :: w in s.workers ==> w < s.nextId
    ensures NeverLost(Apply(s, Assign))
  {
    var t := Apply(s, Assign);
    assert Live(t, s.nextId);
    assert forall w: nat :: Live(t, w) ==> w == s.nextId;
    assert OwnRequests(t.shared, s.nextId, FreshWorker);
  }

  lemma CrashKeepsNeverLost(s: State, w: nat)
    requires NeverLost(s) && w in s.workers
    ensures NeverLost(Apply(s, Crash(w)))
  {
    assert forall v: nat :: Live(Apply(s, Crash(w)), v) ==> Live(s, v);
  }

  lemma MoveKeepsNeverLost(s: State, step: Step)
    requires NeverLost(s) && Inv(s) && OneLive(s)
    requires !step.Env? && !step.Assign? && !step.Crash?
    requires step.w in s.workers && MoveEnabled(s.shared, s.workers[step.w], step)
    ensures NeverLost(Apply(s, step))
  {
    var t, k := Apply(s, step), s.workers[step.w];
    if k.phase.Done? {
      DoneChangesNothing(s.shared, k, step);
      assert forall v: nat :: Live(t, v) ==> Live(s, v) && v != step.w;
    } else {
      assert Live(s, step.w);
      MoveKeepsUnblockable(s.shared, step.w, k, step);
      assert forall v: nat :: Live(t, v) && v != step.w ==> Live(s, v);
      assert forall v: nat :: Live(t, v) ==> v == step.w;
    }
  }

  lemma StepKeepsNeverLost(s: State, step: Step)
    requires NeverLost(s) && Inv(s) && OneLive(s)
    requires Enabled(s, step) && LosesNothing(s, step) && LandsInLog(s, step) && OneLive(Apply(s, step))
    ensures NeverLost(Apply(s, step))
  {
    match step
    case Env(event) => EventKeepsNeverLost(s, event);
    case Assign => AssignKeepsNeverLost(s);
    case Crash(w) => CrashKeepsNeverLost(s, w);
    case _ => MoveKeepsNeverLost(s, step);
  }

  lemma {:induction false} NeverLostAlways(states: seq<State>, steps: seq<Step>, i: nat)
    requires IsRun(states, steps) && SoundTakes(states, steps) && i < |states|
    requires Lossless(states, steps) && LandInLog(states, steps)
    requires forall j :: 0 <= j < |states| ==> OneLive(states[j])
    ensures NeverLost(states[i])
  {
    if i > 0 {
      NeverLostAlways(states, steps, i - 1);
      InvAlways(states, steps, i - 1);
      assert Follows(states, steps, i - 1);
      assert LosesNothing(states[i - 1], steps[i - 1]) && LandsInLog(states[i - 1], steps[i - 1]);
      assert OneLive(states[i - 1]) && OneLive(states[i]);
      StepKeepsNeverLost(states[i - 1], steps[i - 1]);
    }
  }

  /**
   * If Kafka loses neither offsets nor history, at most one worker is alive at a time, and no late
   * commit lands below the log start, then no crash, failed call, late request or change of owner at
   * any point ever blocks the source for lost history, and the log keeps everything still needed.
   */
  lemma InitializeIsCrashSafe(states: seq<State>, steps: seq<Step>, i: nat)
    requires IsRun(states, steps) && Lossless(states, steps) && LandInLog(states, steps) && i < |states|
    requires forall j :: 0 <= j < |states| ==> OneLive(states[j])
    ensures states[i].shared.blocks <= {Undecodable} && Kept(states[i])
  {
    LosslessIsSound(states, steps);
    NeverLostAlways(states, steps, i);
  }

  // ----- when fetching starts at the right place

  /** Retention leaves a partition alone until its first commit, and no offset is ever lost. */
  ghost predicate CommitBeforeRetention(states: seq<State>, steps: seq<Step>)
    requires |states| == |steps| + 1
  {
    forall i :: 0 <= i < |steps| ==> RetentionWaits(states[i], steps[i])
  }

  predicate RetentionWaits(s: State, step: Step) {
    step.Env? && s.shared.committed == None ==> !step.event.Truncate?
  }

  predicate KeepsCommitted(s: State, step: Step) {
    step.Env? ==> !step.event.LoseOffsets?
  }

  /** The log had already lost its beginning before anything was consumed: nobody gets past initialize. */
  predicate Hopeless(s: State) {
    && s.shared.committed == None && s.shared.requests == {} && s.shared.logStart != 0
    && forall w :: w in s.workers ==> NoWayIn(s.workers[w].phase)
  }

  predicate NoWayIn(p: Phase) {
    match p
    case ReadCommitted => true
    case ReadStart(read) => read == None
    case ReadEnd(read, first) => read == None && first != 0
    case ReadMarker(read, first, _) => read == None && first != 0
    case Done => true
    case _ => false
  }

  lemma StepKeepsHopeless(s: State, step: Step)
    requires Hopeless(s) && Enabled(s, step) && RetentionWaits(s, step)
    ensures Hopeless(Apply(s, step))
  {
    if !step.Env? && !step.Assign? && !step.Crash? {
      HopelessMove(s.shared, s.workers[step.w], step);
    }
  }

  lemma HopelessMove(s: Shared, k: Worker, step: Step)
    requires MoveEnabled(s, k, step) && NoWayIn(k.phase)
    requires s.committed == None && s.requests == {} && s.logStart != 0
    ensures var m := ApplyMove(s, k, step);
            && m.shared.committed == None && m.shared.requests == {} && m.shared.logStart == s.logStart
            && NoWayIn(m.worker.phase)
  {
  }

  predicate FirstKept(s: State) { s.shared.committed == None ==> s.shared.logStart == 0 }

  lemma StepKeepsFirst(s: State, step: Step)
    requires FirstKept(s) && Enabled(s, step) && RetentionWaits(s, step) && KeepsCommitted(s, step)
    ensures FirstKept(Apply(s, step))
  {
    if !step.Env? && !step.Assign? && !step.Crash? {
      MoveKeepsCommitted(s.shared, s.workers[step.w], step);
    }
  }

  lemma MoveKeepsCommitted(s: Shared, k: Worker, step: Step)
    requires MoveEnabled(s, k, step)
    ensures var t := ApplyMove(s, k, step).shared;
            (s.committed.Some? ==> t.committed.Some?) && t.logStart == s.logStart
  {
  }

  lemma {:induction false} FirstKeptOrHopeless(states: seq<State>, steps: seq<Step>, i: nat)
    requires IsRun(states, steps) && CommitBeforeRetention(states, steps) && i < |states|
    requires forall j :: 0 <= j < |steps| ==> KeepsCommitted(states[j], steps[j])
    ensures if states[0].shared.logStart == 0 then FirstKept(states[i]) else Hopeless(states[i])
  {
    if i > 0 {
      FirstKeptOrHopeless(states, steps, i - 1);
      assert Follows(states, steps, i - 1) && RetentionWaits(states[i - 1], steps[i - 1]);
      assert KeepsCommitted(states[i - 1], steps[i - 1]);
      if states[0].shared.logStart == 0 {
        StepKeepsFirst(states[i - 1], steps[i - 1]);
      } else {
        StepKeepsHopeless(states[i - 1], steps[i - 1]);
      }
    }
  }

  /**
   * The fetching assumption holds in every run in which retention does not touch the
   * partition before its first commit and committed offsets are never lost.
   */
  lemma RetentionMakesFetchingSound(states: seq<State>, steps: seq<Step>)
    requires IsRun(states, steps) && CommitBeforeRetention(states, steps)
    requires forall j :: 0 <= j < |steps| ==> KeepsCommitted(states[j], steps[j])
    ensures SoundTakes(states, steps)
  {
    forall j | 0 <= j < |states|
      ensures if states[0].shared.logStart == 0 then FirstKept(states[j]) else Hopeless(states[j])
    {
      FirstKeptOrHopeless(states, steps, j);
    }
    if states[0].shared.logStart == 0 {
      WholeUntilCommitted(states, steps);
    } else {
      forall i | 0 <= i < |steps|
        ensures TakesSoundly(states[i], steps[i])
      {
        assert Follows(states, steps, i) && Hopeless(states[i]);
      }
    }
  }

  /** A run and one more step. */
  lemma Extend(states: seq<State>, steps: seq<Step>, step: Step)
    requires IsRun(states, steps) && Enabled(states[|steps|], step)
    ensures IsRun(states + [Apply(states[|steps|], step)], steps + [step])
  {
    var more, all := states + [Apply(states[|steps|], step)], steps + [step];
    forall i | 0 <= i < |all|
      ensures Follows(more, all, i)
    {
      if i < |steps| { assert Follows(states, steps, i); }
    }
  }
}
