/**
 * Where things stand in the log: no offset anywhere lies beyond the log end, and finished records
 * stay finished. This holds of every run, whatever the Kafka client was positioned at.
 */
module PartitionBounds {
  import opened Basics
  import opened PartitionMachine

  /** What has been finished stays finished, and the log end never moves back. */
  predicate Grows(s: Shared, t: Shared) {
    && s.delivered <= t.delivered && s.filtered <= t.filtered && s.skips <= t.skips
    && s.logEnd <= t.logEnd
  }

  predicate ReadsBounded(s: Shared, p: Phase) {
    match p
    case ReadStart(read) => read.Some? ==> read.value <= s.logEnd
    case ReadEnd(read, first) => first <= s.logEnd && (read.Some? ==> read.value <= s.logEnd)
    case ReadMarker(_, first, last) => first <= last <= s.logEnd
    case Baseline(first, last) => first == 0 <= last <= s.logEnd
    case BaselineWait(first, last) => first == 0 <= last <= s.logEnd
    case Mark(at, first, last) => first <= at <= last <= s.logEnd
    case _ => true
  }

  predicate WorkerBounded(s: Shared, k: Worker) {
    && ReadsBounded(s, k.phase)
    && (k.resolved ==> k.next <= k.fetched <= s.logEnd)
    && (k.phase.WithRecord() ==> k.resolved && k.next < k.fetched)
    && (k.phase.HoldsLock() ==> k.owned)
  }

  ghost predicate SharedBounded(s: Shared) {
    && s.logStart <= s.logEnd
    && (s.committed.Some? ==> s.committed.value <= s.logEnd)
    && (forall r :: r in s.requests ==> r.upTo <= s.logEnd)
    && (forall o :: o in s.audits || o in s.skips ==> o < s.logEnd)
  }

  ghost predicate Bounded(s: State) {
    SharedBounded(s.shared) && forall w :: w in s.workers ==> w < s.nextId && WorkerBounded(s.shared, s.workers[w])
  }

  ghost predicate MoveBounded(s: Shared, move: Move) {
    Grows(s, move.shared) && SharedBounded(move.shared) && WorkerBounded(move.shared, move.worker)
  }

  lemma WorkerStaysBounded(s: Shared, t: Shared, k: Worker)
    requires Grows(s, t) && WorkerBounded(s, k)
    ensures WorkerBounded(t, k)
  {
  }

  lemma EventBounded(s: Shared, event: Event)
    requires SharedBounded(s) && EventEnabled(s, event)
    ensures SharedBounded(ApplyEvent(s, event)) && Grows(s, ApplyEvent(s, event))
  {
  }

  lemma ChangeBounded(s: Shared, k: Worker, change: Change)
    requires SharedBounded(s) && WorkerBounded(s, k) && ChangeEnabled(s, k, change)
    ensures MoveBounded(s, ApplyChange(s, k, change))
  {
  }

  lemma InitBounded(s: Shared, k: Worker, call: InitCall)
    requires SharedBounded(s) && WorkerBounded(s, k) && InitEnabled(k, call)
    ensures MoveBounded(s, ApplyInit(s, k, call))
  {
    if call.SeeMarker? { DecideBounded(s, k, k.phase.read, k.phase.first, k.phase.last); }
  }

  lemma StopBounded(s: Shared, k: Worker, reason: BlockReason)
    requires SharedBounded(s) && WorkerBounded(s, k)
    ensures MoveBounded(s, Stop(s, k)) && MoveBounded(s, Blocked(s, k, reason))
  {
  }

  lemma DecideBounded(s: Shared, k: Worker, read: Option<nat>, first: nat, last: nat)
    requires SharedBounded(s) && WorkerBounded(s, k) && k.phase == ReadMarker(read, first, last)
    ensures MoveBounded(s, DecideHistory(s, k, read, first, last))
  {
    StopBounded(s, k, EstablishedLost);
    StopBounded(s, k, OutsideHistory);
  }

  lemma CommitBounded(s: Shared, w: nat, k: Worker, call: CommitCall)
    requires SharedBounded(s) && WorkerBounded(s, k) && CommitEnabled(s, w, k, call)
    ensures MoveBounded(s, ApplyCommit(s, w, k, call))
  {
    assert k.phase.Commit? || k.phase.CommitWait? || k.phase.Baseline? || k.phase.BaselineWait? ==>
      Target(k) <= s.logEnd;
  }

  lemma RecordBounded(s: Shared, k: Worker, call: RecordCall)
    requires SharedBounded(s) && WorkerBounded(s, k) && RecordEnabled(k, call)
    ensures MoveBounded(s, ApplyRecord(s, k, call))
  {
  }

  lemma StepBounded(s: State, step: Step)
    requires Bounded(s) && Enabled(s, step)
    ensures Bounded(Apply(s, step)) && Grows(s.shared, Apply(s, step).shared)
  {
    var t := Apply(s, step);
    match step {
      case Env(event) => EventBounded(s.shared, event);
      case Assign =>
      case Crash(_) =>
      case Around(w, change) => ChangeBounded(s.shared, s.workers[w], change);
      case Init(w, call) => InitBounded(s.shared, s.workers[w], call);
      case Commits(w, call) => CommitBounded(s.shared, w, s.workers[w], call);
      case OnRecord(w, call) => RecordBounded(s.shared, s.workers[w], call);
    }
    forall w | w in t.workers
      ensures w < t.nextId && WorkerBounded(t.shared, t.workers[w])
    {
      if w in s.workers { WorkerStaysBounded(s.shared, t.shared, s.workers[w]); }
    }
  }

  lemma {:induction false} BoundedAlways(states: seq<State>, steps: seq<Step>, i: nat)
    requires IsRun(states, steps) && i < |states|
    ensures Bounded(states[i])
  {
    if i > 0 {
      BoundedAlways(states, steps, i - 1);
      assert Follows(states, steps, i - 1);
      StepBounded(states[i - 1], steps[i - 1]);
    }
  }
}
