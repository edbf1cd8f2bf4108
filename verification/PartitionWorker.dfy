/**
 * The worker goroutine as it is written: initialize, commit and the record loop as methods
 * that change a shared partition in place, with everything else acting between any two calls.
 * Each method takes only steps of the machine, so the properties of runs hold of it.
 */
module PartitionWorker {
  import opened Basics
  import opened PartitionMachine
  import opened PartitionBounds
  import opened PartitionSafety

  /** What the surroundings of a worker may change about it. */
  predicate Undisturbed(k: Worker, j: Worker) {
    && j.phase == k.phase && j.horizon == k.horizon
    && (k.resolved ==> j.resolved && j.sound == k.sound && j.next == k.next && k.fetched <= j.fetched)
    && (k.cancelled ==> j.cancelled) && (j.owned ==> k.owned)
  }

  predicate FromOutside(step: Step, id: nat) { !step.OfGoroutine(id) && step != Crash(id) }

  predicate Allocated(s: State) { forall w :: w in s.workers ==> w < s.nextId }

  lemma OutsideLeaves(s: State, step: Step, id: nat)
    requires Enabled(s, step) && FromOutside(step, id) && id in s.workers && Allocated(s)
    ensures id in Apply(s, step).workers && Undisturbed(s.workers[id], Apply(s, step).workers[id])
    ensures Grows(s.shared, Apply(s, step).shared)
  {
    match step
    case Around(w, change) => ChangeLeaves(s.shared, s.workers[w], change);
    case Init(w, call) => InitGrows(s.shared, s.workers[w], call);
    case _ =>
  }

  lemma ChangeLeaves(s: Shared, k: Worker, change: Change)
    requires ChangeEnabled(s, k, change)
    ensures Undisturbed(k, ApplyChange(s, k, change).worker) && Grows(s, ApplyChange(s, k, change).shared)
  {
  }

  lemma InitGrows(s: Shared, k: Worker, call: InitCall)
    requires InitEnabled(k, call)
    ensures Grows(s, ApplyInit(s, k, call).shared)
  {
  }

  // ----- what the surroundings answer; a retry loop's context ends at the latest with its answers

  /** Whether the commit gate is open, and whether Kafka acknowledges. */
  datatype CommitTry = CommitTry(allowed: bool, acknowledged: bool)

  /** Which calls of one initialize are answered, and how its baseline commit goes. */
  datatype InitTry = InitTry(answered: set<InitCall>, baseline: CommitTry)

  /** For one record: the gate, the decoder, the store's lookups, the filter, the destination, the store, Kafka. */
  datatype RecordAnswers = RecordAnswers(
    allowed: bool, decodes: bool, lookups: seq<bool>, matches: bool, attempts: seq<Option<Outcome>>,
    audits: seq<bool>, commits: seq<CommitTry>)

  class Partition {
    var state: State
    ghost var states: seq<State>
    ghost var steps: seq<Step>
    /** Workers whose context ended only because no further answer came. */
    ghost var spent: set<nat>

    ghost predicate Valid()
      reads this
    {
      IsRun(states, steps) && states[|steps|] == state && Allocated(state)
    }

    /** One atomic step. */
    method Do(step: Step)
      requires Valid() && Enabled(state, step)
      modifies this
      ensures Valid() && state == Apply(old(state), step) && steps == old(steps) + [step]
      ensures spent == old(spent)
    {
      var next := Apply(state, step);
      ghost var before, run := states, steps;
      state, states, steps := next, states + [next], steps + [step];
      forall i | 0 <= i < |steps|
        ensures Follows(states, steps, i)
      {
        if i < |run| { assert Follows(before, run, i); }
      }
    }

    /** Any number of steps of everything but worker id: the interference between two calls. */
    method Others(id: nat)
      requires Valid() && id in state.workers
      modifies this
      ensures Valid() && id in state.workers && Undisturbed(old(state.workers[id]), state.workers[id])
      ensures old(steps) <= steps && Grows(old(state.shared), state.shared) && spent == old(spent)
    {
      var count :| 0 <= count;
      for i := 0 to count
        invariant Valid() && id in state.workers && Undisturbed(old(state.workers[id]), state.workers[id])
        invariant old(steps) <= steps && Grows(old(state.shared), state.shared) && spent == old(spent)
      {
        var step: Step := *;
        if FromOutside(step, id) && Enabled(state, step) {
          OutsideLeaves(state, step, id);
          Do(step);
        }
      }
    }

    /** The context of worker id ends while it waits, and its goroutine returns. */
    method EndContext(id: nat)
      requires Valid() && id in state.workers && !state.workers[id].phase.HoldsLock()
      modifies this
      ensures Valid() && id in state.workers && state.workers[id].phase.Done?
      ensures old(steps) <= steps && Grows(old(state.shared), state.shared)
      ensures spent == old(spent) + if old(state.workers[id]).cancelled then {} else {id}
    {
      if !state.workers[id].cancelled {
        spent := spent + {id};
        Do(Around(id, Cancel));
      }
      Do(OnRecord(id, Exit));
    }
  }

  /**
   * commit: one guarded attempt, of the baseline or of a finished record. The mutex is held
   * from the check to the answer.
   */
  method CommitOnce(p: Partition, id: nat, try: CommitTry) returns (ok: bool)
    requires p.Valid() && id in p.state.workers
    requires p.state.workers[id].phase.Baseline? || p.state.workers[id].phase.Commit?
    modifies p
    ensures p.spent == old(p.spent)
    ensures p.Valid() && id in p.state.workers && old(p.steps) < p.steps
    ensures Grows(old(p.state.shared), p.state.shared)
    ensures var k, j := old(p.state.workers[id]), p.state.workers[id];
            if k.phase.Baseline?
            then j.phase == if ok then Mark(k.phase.first, k.phase.first, k.phase.last) else ReadCommitted
            else if ok then j.phase.Idle? && (k.resolved ==> j.next == k.next + 1)
            else j.phase.Commit? && (k.resolved ==> j.resolved && j.next == k.next)
    ensures ok ==> old(p.state.workers[id]).owned && !old(p.state.workers[id]).cancelled
    ensures ok ==> try.allowed && try.acknowledged
  {
    p.Do(Commits(id, Check(try.allowed)));
    if !p.state.workers[id].phase.HoldsLock() {
      return false;
    }
    p.Others(id);
    if try.acknowledged && p.state.shared.owner == Some(id) {
      p.Do(Commits(id, Ack));
      return true;
    }
    p.Do(Commits(id, Fail));
    return false;
  }

  datatype Tried = Succeeded | TryAgain | GaveUp

  /** One call of initialize: interference, then the call's effect or its failure. */
  method Call(p: Partition, id: nat, call: InitCall, failed: bool)
    requires p.Valid() && id in p.state.workers && !call.Restart? && InitEnabled(p.state.workers[id], call)
    modifies p
    ensures p.spent == old(p.spent)
    ensures p.Valid() && id in p.state.workers && old(p.steps) < p.steps
    ensures Grows(old(p.state.shared), p.state.shared)
    ensures failed ==> p.state.workers[id].phase.ReadCommitted?
    ensures !failed && call.SeeCommitted? ==> p.state.workers[id].phase.ReadStart?
    ensures !failed && call.SeeStart? ==> p.state.workers[id].phase.ReadEnd?
    ensures !failed && call.SeeEnd? ==> p.state.workers[id].phase.ReadMarker?
    ensures !failed && call.SeeMarker? ==>
              var phase := p.state.workers[id].phase; phase.Baseline? || phase.Mark? || phase.Done?
    ensures !failed && call.Marked? ==> p.state.workers[id].phase.Idle? && p.state.shared.started
  {
    p.Others(id);
    InitGrows(p.state.shared, p.state.workers[id], if failed then Restart else call);
    p.Do(Init(id, if failed then Restart else call));
  }

  /** The body that initialize retries. */
  method InitializeOnce(p: Partition, id: nat, try: InitTry) returns (tried: Tried)
    requires p.Valid() && id in p.state.workers && p.state.workers[id].phase.ReadCommitted?
    modifies p
    ensures p.spent == old(p.spent)
    ensures p.Valid() && id in p.state.workers && old(p.steps) <= p.steps
    ensures var phase := p.state.workers[id].phase;
            match tried
            case Succeeded => phase.Idle? && p.state.shared.started
            case TryAgain => phase.ReadCommitted?
            case GaveUp => phase.Done?
    ensures !tried.TryAgain? ==> {SeeCommitted, SeeStart, SeeEnd, SeeMarker} <= try.answered
    ensures tried.Succeeded? ==> Marked in try.answered
  {
    Call(p, id, SeeCommitted, SeeCommitted !in try.answered);
    if SeeCommitted !in try.answered { return TryAgain; }
    Call(p, id, SeeStart, SeeStart !in try.answered);
    if SeeStart !in try.answered { return TryAgain; }
    Call(p, id, SeeEnd, SeeEnd !in try.answered);
    if SeeEnd !in try.answered { return TryAgain; }
    Call(p, id, SeeMarker, SeeMarker !in try.answered);
    if SeeMarker !in try.answered { return TryAgain; }
    if p.state.workers[id].phase.Done? { return GaveUp; }
    if p.state.workers[id].phase.Baseline? {
      p.Others(id);
      var committed := CommitOnce(p, id, try.baseline);
      if !committed { return TryAgain; }
    }
    Call(p, id, Marked, Marked !in try.answered);
    return if Marked in try.answered then Succeeded else TryAgain;
  }

  /** initialize retries until it succeeds, blocks the source, or its context ends; made counts its tries. */
  method Initialize(p: Partition, id: nat, tries: seq<InitTry>) returns (ok: bool, ghost made: nat)
    requires p.Valid() && id in p.state.workers && p.state.workers[id].phase.ReadCommitted?
    modifies p
    ensures ok || made < |tries| ==> p.spent == old(p.spent)
    ensures p.Valid() && id in p.state.workers && old(p.steps) <= p.steps
    ensures if ok then p.state.workers[id].phase.Idle? && p.state.shared.started else p.state.workers[id].phase.Done?
  {
    made := 0;
    for i := 0 to |tries|
      invariant made == i
      invariant p.Valid() && id in p.state.workers && p.state.workers[id].phase.ReadCommitted?
      invariant old(p.steps) <= p.steps
      invariant p.spent == old(p.spent)
    {
      if p.state.workers[id].cancelled { break; }
      var tried := InitializeOnce(p, id, tries[i]);
      made := made + 1;
      if !tried.TryAgain? { return tried.Succeeded?, made; }
    }
    p.EndContext(id);
    return false, made;
  }

  ghost predicate OnSame(k: Worker, next: nat) { k.resolved && k.next == next }

  /** Attempt number i is the first that is answered. */
  ghost predicate Answers(attempts: seq<Option<Outcome>>, i: int) {
    0 <= i < |attempts| && attempts[i].Some? && forall j :: 0 <= j < i ==> attempts[j] == None
  }

  /** What the first answer makes of a record: delivered and ready to be committed, or still to be audited. */
  ghost predicate TookAnswer(s: Shared, k: Worker, attempts: seq<Option<Outcome>>) {
    forall i :: Answers(attempts, i) ==>
      if attempts[i] == Some(Delivered) then k.phase.Commit? && k.next in s.delivered else k.phase.Audit?
  }

  /** send: filter once, then attempt until the destination answers or the context ends. */
  method SendRecord(p: Partition, id: nat, matches: bool, attempts: seq<Option<Outcome>>) returns (answered: bool)
    requires p.Valid() && id in p.state.workers && p.state.workers[id].phase.Filter? && p.state.workers[id].resolved
    modifies p
    ensures answered ==> p.spent == old(p.spent)
    ensures p.Valid() && id in p.state.workers && old(p.steps) <= p.steps
    ensures Grows(old(p.state.shared), p.state.shared)
    ensures !answered ==> p.state.workers[id].phase.Done?
    ensures answered ==> OnSame(p.state.workers[id], old(p.state.workers[id]).next)
    ensures answered <==> !matches || exists i :: Answers(attempts, i)
    ensures !matches ==> p.state.workers[id].phase.Commit? && p.state.workers[id].next in p.state.shared.filtered
    ensures matches ==> TookAnswer(p.state.shared, p.state.workers[id], attempts)
  {
    p.Do(OnRecord(id, if matches then FilterPass else FilterOut));
    if !matches { return true; }
    answered := AttemptRecord(p, id, attempts);
  }

  /** The attempts of one record; an answer that calls for another attempt is none. */
  method AttemptRecord(p: Partition, id: nat, attempts: seq<Option<Outcome>>) returns (answered: bool)
    requires p.Valid() && id in p.state.workers && p.state.workers[id].phase.Send? && p.state.workers[id].resolved
    modifies p
    ensures answered ==> p.spent == old(p.spent)
    ensures p.Valid() && id in p.state.workers && old(p.steps) <= p.steps
    ensures Grows(old(p.state.shared), p.state.shared)
    ensures !answered ==> p.state.workers[id].phase.Done?
    ensures answered ==> OnSame(p.state.workers[id], old(p.state.workers[id]).next)
    ensures answered <==> exists i :: Answers(attempts, i)
    ensures TookAnswer(p.state.shared, p.state.workers[id], attempts)
  {
    ghost var next := p.state.workers[id].next;
    for i := 0 to |attempts|
      invariant p.Valid() && id in p.state.workers && p.state.workers[id].phase.Send?
      invariant OnSame(p.state.workers[id], next)
      invariant old(p.steps) <= p.steps && Grows(old(p.state.shared), p.state.shared)
      invariant forall j :: 0 <= j < i ==> attempts[j] == None
      invariant p.spent == old(p.spent)
    {
      AttemptOnce(p, id, attempts[i]);
      if attempts[i].Some? {
        assert Answers(attempts, i) && forall j :: Answers(attempts, j) ==> j == i;
        return true;
      }
    }
    p.EndContext(id);
    return false;
  }

  /** One attempt, and its answer if there is one. */
  method AttemptOnce(p: Partition, id: nat, answer: Option<Outcome>)
    requires p.Valid() && id in p.state.workers && p.state.workers[id].phase.Send? && p.state.workers[id].resolved
    modifies p
    ensures p.spent == old(p.spent)
    ensures p.Valid() && id in p.state.workers && old(p.steps) <= p.steps
    ensures Grows(old(p.state.shared), p.state.shared)
    ensures OnSame(p.state.workers[id], old(p.state.workers[id]).next)
    ensures match answer
            case None => p.state.workers[id].phase.Send?
            case Some(Delivered) =>
              p.state.workers[id].phase.Commit? && p.state.workers[id].next in p.state.shared.delivered
            case Some(Skipped) => p.state.workers[id].phase.Audit?
  {
    p.Others(id);
    p.Do(OnRecord(id, Attempt));
    p.Others(id);
    if answer.Some? { p.Do(OnRecord(id, Answer(answer.value))); }
  }

  /** Retry of the skip lookup, until it is answered or the context ends. */
  method LookUp(p: Partition, id: nat, answered: seq<bool>) returns (ok: bool)
    requires p.Valid() && id in p.state.workers
    requires p.state.workers[id].phase.Lookup? && p.state.workers[id].resolved
    modifies p
    ensures ok || true in answered ==> p.spent == old(p.spent)
    ensures p.Valid() && id in p.state.workers && old(p.steps) <= p.steps
    ensures Grows(old(p.state.shared), p.state.shared)
    ensures !ok ==> p.state.workers[id].phase.Done?
    ensures ok ==> true in answered && p.state.workers[id].horizon == old(p.state.workers[id]).horizon
    ensures ok ==> OnSame(p.state.workers[id], old(p.state.workers[id]).next)
    ensures ok ==> var k := p.state.workers[id];
              k.phase == if k.next < k.horizon && k.next in p.state.shared.skips then Commit else Filter
  {
    for i := 0 to |answered|
      invariant p.Valid() && id in p.state.workers && p.state.workers[id].phase.Lookup?
      invariant OnSame(p.state.workers[id], old(p.state.workers[id]).next) && old(p.steps) <= p.steps
      invariant Grows(old(p.state.shared), p.state.shared)
      invariant p.state.workers[id].horizon == old(p.state.workers[id]).horizon
      invariant p.spent == old(p.spent)
      invariant forall j :: 0 <= j < i ==> !answered[j]
    {
      if p.state.workers[id].cancelled { break; }
      p.Others(id);
      if answered[i] {
        p.Do(OnRecord(id, LookedUp));
        return true;
      }
    }
    p.EndContext(id);
    return false;
  }

  /** Retry of the audit, until the skip row is stored or the context ends. */
  method RetryAudit(p: Partition, id: nat, stored: seq<bool>) returns (ok: bool)
    requires p.Valid() && id in p.state.workers
    requires p.state.workers[id].phase.Audit? && p.state.workers[id].resolved
    modifies p
    ensures ok || true in stored ==> p.spent == old(p.spent)
    ensures p.Valid() && id in p.state.workers && old(p.steps) <= p.steps
    ensures Grows(old(p.state.shared), p.state.shared)
    ensures p.state.workers[id].phase == if ok then Commit else Done
    ensures ok ==> true in stored
    ensures ok ==> var k := p.state.workers[id];
              OnSame(k, old(p.state.workers[id]).next) && k.next in p.state.shared.skips
  {
    for i := 0 to |stored|
      invariant p.Valid() && id in p.state.workers && p.state.workers[id].phase.Audit?
      invariant OnSame(p.state.workers[id], old(p.state.workers[id]).next) && old(p.steps) <= p.steps
      invariant Grows(old(p.state.shared), p.state.shared)
      invariant p.spent == old(p.spent)
      invariant forall j :: 0 <= j < i ==> !stored[j]
    {
      if p.state.workers[id].cancelled { break; }
      p.Others(id);
      if stored[i] {
        p.Do(OnRecord(id, SkipStored));
        return true;
      }
    }
    p.EndContext(id);
    return false;
  }

  /** Retry of the commit of a finished record, until Kafka acknowledges or the context ends; made counts its tries. */
  method RetryCommit(p: Partition, id: nat, tries: seq<CommitTry>) returns (ok: bool, ghost made: nat)
    requires p.Valid() && id in p.state.workers
    requires p.state.workers[id].phase.Commit? && p.state.workers[id].resolved
    modifies p
    ensures ok || made < |tries| ==> p.spent == old(p.spent)
    ensures p.Valid() && id in p.state.workers && old(p.steps) <= p.steps
    ensures if ok then p.state.workers[id].phase.Idle? && p.state.workers[id].next == old(p.state.workers[id]).next + 1
            else p.state.workers[id].phase.Done?
    ensures ok ==> exists i :: 0 <= i < |tries| && tries[i].allowed && tries[i].acknowledged
    ensures Grows(old(p.state.shared), p.state.shared)
  {
    made := 0;
    for i := 0 to |tries|
      invariant made == i
      invariant p.Valid() && id in p.state.workers && p.state.workers[id].phase.Commit?
      invariant OnSame(p.state.workers[id], old(p.state.workers[id]).next)
      invariant old(p.steps) <= p.steps && Grows(old(p.state.shared), p.state.shared)
      invariant p.spent == old(p.spent)
    {
      if p.state.workers[id].cancelled { break; }
      p.Others(id);
      var committed := CommitOnce(p, id, tries[i]);
      made := made + 1;
      if committed { return true, made; }
    }
    p.EndContext(id);
    return false, made;
  }

  /** What became of record o, by what its filter and its destination say. */
  ghost predicate Became(s: Shared, o: nat, a: RecordAnswers) {
    if !a.matches then o in s.filtered
    else exists i :: Answers(a.attempts, i) &&
           if a.attempts[i] == Some(Delivered) then o in s.delivered else o in s.skips
  }

  /**
   * process: gate, decode, skip lookup, send, audit, commit. A record is finished without being sent only
   * if its skip was found; otherwise filter and destination decide what it becomes.
   */
  method ProcessRecord(p: Partition, id: nat, a: RecordAnswers) returns (ok: bool, ghost found: bool)
    requires p.Valid() && id in p.state.workers
    requires p.state.workers[id].phase.Idle? && HasRecord(p.state.workers[id])
    modifies p
    ensures ok ==> p.spent == old(p.spent)
    ensures p.Valid() && id in p.state.workers && old(p.steps) <= p.steps
    ensures Grows(old(p.state.shared), p.state.shared)
    ensures if ok then p.state.workers[id].phase.Idle? && p.state.workers[id].next == old(p.state.workers[id]).next + 1
            else p.state.workers[id].phase.Done?
    ensures !a.allowed ==> !ok && p.state.shared == old(p.state.shared)
    ensures a.allowed && !a.decodes ==>
              !ok && p.state.shared == old(p.state.shared).(blocks := old(p.state.shared).blocks + {Undecodable})
    ensures ok ==> Terminal(p.state.shared, old(p.state.workers[id]).next)
    ensures var k := old(p.state.workers[id]);
            && (found ==> k.next < k.horizon && k.next in p.state.shared.skips)
            && (ok && k.next < k.horizon && k.next in old(p.state.shared).skips ==> found)
            && (ok && !found ==> Became(p.state.shared, k.next, a))
  {
    found := false;
    if !a.allowed || !a.decodes {
      p.Do(OnRecord(id, if a.allowed then CannotDecode else GateShut));
      return false, false;
    }
    p.Do(OnRecord(id, Take));
    ok := LookUp(p, id, a.lookups);
    if !ok { return; }
    found := p.state.workers[id].phase.Commit?;
    if p.state.workers[id].phase.Filter? {
      ok := SendRecord(p, id, a.matches, a.attempts);
      if !ok { return; }
    }
    if p.state.workers[id].phase.Audit? {
      ok := RetryAudit(p, id, a.audits);
      if !ok { return; }
    }
    ghost var made;
    ok, made := RetryCommit(p, id, a.commits);
  }

  /** Why run returned: its context had ended, initialize or a record had failed, or there was nothing more to come. */
  datatype Ending = Stopped | NotReady | RecordFailed | NothingMore

  /** run: initialize, then record after record until an error or the end of the context. */
  method Run(p: Partition, id: nat, tries: seq<InitTry>, records: seq<RecordAnswers>)
    returns (ghost rounds: nat, ghost ending: Ending)
    requires p.Valid() && id in p.state.workers && p.state.workers[id].phase.ReadCommitted?
    modifies p
    ensures p.Valid() && id in p.state.workers && p.state.workers[id].phase.Done? && old(p.steps) <= p.steps
    ensures ending == Stopped ==> p.spent == old(p.spent)
    ensures ending == NothingMore ==> rounds == |records|
    ensures ending == NotReady ==> rounds == 0
  {
    ghost var made;
    var ready;
    ready, made := Initialize(p, id, tries);
    rounds := 0;
    if !ready { return 0, NotReady; }
    for i := 0 to |records|
      invariant p.Valid() && id in p.state.workers && p.state.workers[id].phase.Idle? && old(p.steps) <= p.steps
      invariant rounds == i && p.spent == old(p.spent)
    {
      p.Others(id);
      if p.state.workers[id].cancelled {
        p.EndContext(id);
        return rounds, Stopped;
      }
      if HasRecord(p.state.workers[id]) {
        var ok, found := ProcessRecord(p, id, records[i]);
        if !ok { return rounds, RecordFailed; }
      }
      rounds := rounds + 1;
    }
    p.EndContext(id);
    return rounds, NothingMore;
  }

  /** The guarantee on committed offsets, for a partition that the methods above have worked on. */
  lemma WorkedPartitionIsFinished(p: Partition, o: nat)
    requires p.Valid() && SoundTakes(p.states, p.steps)
    requires p.state.shared.committed.Some? && o < p.state.shared.committed.value
    ensures Terminal(p.state.shared, o)
  {
    CommittedIsFinished(p.states, p.steps, |p.steps|, o);
  }
}
