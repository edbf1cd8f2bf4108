/** Stored skips over whole runs: who may still send a record whose skip is stored, and who may not. */
module PartitionSkips {
  import opened Basics
  import opened PartitionMachine
  import opened PartitionBounds

  // ----- a worker that takes the partition after a skip was stored

  /** The horizon of this round of initialize has been read. */
  predicate HorizonRead(p: Phase) {
    p.ReadMarker? || p.Baseline? || p.BaselineWait? || p.Mark? || p.Idle? || p.WithRecord()
  }

  predicate WillNotSend(k: Worker, o: nat) {
    && (HorizonRead(k.phase) ==> o < k.horizon)
    && (k.phase.WithRecord() ==> k.resolved)
    && (k.phase.MaySend() || k.phase.Audit? ==> k.next != o)
  }

  predicate SkipSettled(s: State, o: nat, from: nat) {
    && o in s.shared.skips && o < s.shared.logEnd && from <= s.nextId
    && forall w :: w in s.workers && from <= w ==> WillNotSend(s.workers[w], o)
  }

  lemma MoveKeepsWillNotSend(s: Shared, k: Worker, step: Step, o: nat)
    requires MoveEnabled(s, k, step) && WillNotSend(k, o) && o in s.skips && o < s.logEnd
    ensures WillNotSend(ApplyMove(s, k, step).worker, o)
  {
    match step
    case Around(_, change) => assert WillNotSend(ApplyChange(s, k, change).worker, o);
    case Init(_, call) => InitKeepsWillNotSend(s, k, call, o);
    case Commits(w, call) => assert WillNotSend(ApplyCommit(s, w, k, call).worker, o);
    case OnRecord(_, call) => RecordKeepsWillNotSend(s, k, call, o);
  }

  lemma InitKeepsWillNotSend(s: Shared, k: Worker, call: InitCall, o: nat)
    requires InitEnabled(k, call) && WillNotSend(k, o) && o < s.logEnd
    ensures WillNotSend(ApplyInit(s, k, call).worker, o)
  {
  }

  lemma RecordKeepsWillNotSend(s: Shared, k: Worker, call: RecordCall, o: nat)
    requires RecordEnabled(k, call) && WillNotSend(k, o) && o in s.skips
    ensures WillNotSend(ApplyRecord(s, k, call).worker, o)
  {
  }

  lemma StepKeepsSettled(s: State, step: Step, o: nat, from: nat)
    requires Enabled(s, step) && SkipSettled(s, o, from)
    ensures SkipSettled(Apply(s, step), o, from)
  {
    if step.Around? || step.Init? || step.Commits? || step.OnRecord? {
      MoveGrows(s.shared, s.workers[step.w], step);
      if from <= step.w { MoveKeepsWillNotSend(s.shared, s.workers[step.w], step, o); }
    }
  }

  lemma MoveGrows(s: Shared, k: Worker, step: Step)
    requires MoveEnabled(s, k, step)
    ensures Grows(s, ApplyMove(s, k, step).shared)
  {
  }

  lemma {:induction false} SettledFrom(states: seq<State>, steps: seq<Step>, i: nat, j: nat, o: nat)
    requires IsRun(states, steps) && i <= j < |states|
    requires o in states[i].shared.skips
    ensures SkipSettled(states[j], o, states[i].nextId)
  {
    BoundedAlways(states, steps, i);
    if i < j {
      SettledFrom(states, steps, i, j - 1, o);
      assert Follows(states, steps, j - 1);
      StepKeepsSettled(states[j - 1], steps[j - 1], o, states[i].nextId);
    }
  }

  /**
   * Once a skip row is stored, no worker that takes the partition later sends that record,
   * although a worker looks up only the records below its horizon. Workers that overlap,
   * offset resets and late requests are all allowed.
   */
  lemma StoredSkipNotResent(states: seq<State>, steps: seq<Step>, i: nat, j: nat, o: nat)
    requires IsRun(states, steps) && i <= j < |steps|
    requires o in states[i].shared.skips
    requires steps[j].OnRecord? && steps[j].call.Attempt? && states[i].nextId <= steps[j].w
    ensures steps[j].w in states[j].workers && states[j].workers[steps[j].w].next != o
  {
    SettledFrom(states, steps, i, j, o);
    assert Follows(states, steps, j);
    assert SkipSettled(states[j], o, states[i].nextId);
  }

  // ----- ownership periods that do not overlap

  predicate Live(s: State, w: nat) { w in s.workers && !s.workers[w].phase.Done? }

  ghost predicate OneLive(s: State) {
    forall w, v :: Live(s, w) && Live(s, v) ==> w == v
  }

  /** A skip row appears only while the worker whose record it is still waits for it. */
  ghost predicate OwnSkip(s: State, step: Step) {
    step.Env? && step.event.LandSkip? ==>
      exists w :: Live(s, w) && s.workers[w].phase.Audit? && s.workers[w].next == step.event.offset
  }

  ghost predicate Exclusive(states: seq<State>, steps: seq<Step>)
    requires |states| == |steps| + 1
  {
    && (forall i :: 0 <= i < |states| ==> OneLive(states[i]))
    && (forall i :: 0 <= i < |steps| ==> OwnSkip(states[i], steps[i]))
  }

  /** A stored skip lies below the horizon, or behind the worker, or is the one it is storing. */
  predicate Behind(k: Worker, o: nat) {
    || o < k.horizon
    || (k.resolved && o < k.next)
    || ((k.phase.Audit? || k.phase.Commit? || k.phase.CommitWait?) && o == k.next)
  }

  ghost predicate SkipsBehind(s: Shared, k: Worker) {
    && (HorizonRead(k.phase) ==> forall o :: o in s.skips ==> Behind(k, o))
    && (k.phase.MaySend() ==> k.next !in s.skips)
  }

  lemma MoveKeepsBehind(s: Shared, k: Worker, step: Step)
    requires MoveEnabled(s, k, step) && SkipsBehind(s, k) && !k.phase.Done?
    requires SharedBounded(s) && WorkerBounded(s, k)
    ensures SkipsBehind(ApplyMove(s, k, step).shared, ApplyMove(s, k, step).worker)
  {
    match step
    case OnRecord(_, call) => RecordKeepsBehind(s, k, call);
    case Commits(w, call) => CommitKeepsBehind(s, w, k, call);
    case Init(_, call) => InitKeepsBehind(s, k, call);
    case Around(_, change) => ChangeKeepsBehind(s, k, change);
  }

  lemma ChangeKeepsBehind(s: Shared, k: Worker, change: Change)
    requires ChangeEnabled(s, k, change) && SkipsBehind(s, k) && WorkerBounded(s, k)
    ensures SkipsBehind(ApplyChange(s, k, change).shared, ApplyChange(s, k, change).worker)
  {
    var t := ApplyChange(s, k, change);
    assert t.worker.phase == k.phase && t.shared.skips == s.skips;
    assert forall o :: Behind(k, o) ==> Behind(t.worker, o);
  }

  lemma InitKeepsBehind(s: Shared, k: Worker, call: InitCall)
    requires InitEnabled(k, call) && SkipsBehind(s, k) && SharedBounded(s)
    ensures SkipsBehind(ApplyInit(s, k, call).shared, ApplyInit(s, k, call).worker)
  {
    var t := ApplyInit(s, k, call);
    assert t.shared.skips == s.skips && !t.worker.phase.MaySend();
    assert !call.SeeEnd? ==> forall o :: Behind(k, o) ==> Behind(t.worker, o);
  }

  lemma CommitKeepsBehind(s: Shared, w: nat, k: Worker, call: CommitCall)
    requires CommitEnabled(s, w, k, call) && SkipsBehind(s, k) && WorkerBounded(s, k)
    ensures SkipsBehind(ApplyCommit(s, w, k, call).shared, ApplyCommit(s, w, k, call).worker)
  {
  }

  lemma RecordKeepsBehind(s: Shared, k: Worker, call: RecordCall)
    requires RecordEnabled(k, call) && SkipsBehind(s, k) && WorkerBounded(s, k) && !k.phase.Done?
    ensures SkipsBehind(ApplyRecord(s, k, call).shared, ApplyRecord(s, k, call).worker)
  {
    var t := ApplyRecord(s, k, call);
    forall o | o in t.shared.skips && HorizonRead(t.worker.phase)
      ensures Behind(t.worker, o)
    {
      if o in s.skips { assert Behind(k, o); }
    }
  }

  ghost predicate AllBehind(s: State) {
    forall w :: Live(s, w) ==> SkipsBehind(s.shared, s.workers[w])
  }

  lemma StepKeepsBehind(s: State, step: Step)
    requires Bounded(s) && Enabled(s, step) && AllBehind(s)
    requires OneLive(s) && OneLive(Apply(s, step)) && OwnSkip(s, step)
    ensures AllBehind(Apply(s, step))
  {
    var t := Apply(s, step);
    forall w | Live(t, w)
      ensures SkipsBehind(t.shared, t.workers[w])
    {
      if step.Env? {
        assert Live(s, w) && SkipsBehind(s.shared, s.workers[w]);
      } else if step.Assign? || step.Crash? {
        assert w == s.nextId || (Live(s, w) && SkipsBehind(s.shared, s.workers[w]));
      } else if step.w == w {
        if !Live(s, w) { DoneStays(s.shared, s.workers[w], step); }
        MoveKeepsBehind(s.shared, s.workers[w], step);
      } else {
        assert Live(s, w) && SkipsBehind(s.shared, s.workers[w]);
        assert !Live(s, step.w);
        DoneStays(s.shared, s.workers[step.w], step);
      }
    }
  }

  lemma DoneStays(s: Shared, k: Worker, step: Step)
    requires MoveEnabled(s, k, step) && k.phase.Done?
    ensures ApplyMove(s, k, step).worker.phase.Done?
    ensures ApplyMove(s, k, step).shared.skips == s.skips
  {
  }

  lemma {:induction false} BehindAlways(states: seq<State>, steps: seq<Step>, i: nat)
    requires IsRun(states, steps) && Exclusive(states, steps) && i < |states|
    ensures AllBehind(states[i])
  {
    if i > 0 {
      BehindAlways(states, steps, i - 1);
      BoundedAlways(states, steps, i - 1);
      assert Follows(states, steps, i - 1) && OwnSkip(states[i - 1], steps[i - 1]);
      assert OneLive(states[i - 1]) && OneLive(states[i]);
      StepKeepsBehind(states[i - 1], steps[i - 1]);
    }
  }

  /**
   * When ownership periods do not overlap, no worker at all sends a record whose skip is
   * stored: looking up only records below the horizon misses nothing.
   */
  lemma SkipNeverResent(states: seq<State>, steps: seq<Step>, j: nat)
    requires IsRun(states, steps) && Exclusive(states, steps)
    requires j < |steps| && steps[j].OnRecord? && steps[j].call.Attempt?
    ensures steps[j].w in states[j].workers
    ensures states[j].workers[steps[j].w].next !in states[j].shared.skips
  {
    BehindAlways(states, steps, j);
    assert Follows(states, steps, j);
    assert Live(states[j], steps[j].w);
  }

  // ----- every resend explained

  /**
   * Whatever a run does, a worker that attempts a record whose skip is stored was assigned before
   * the skip was stored, at step i. By then it had passed its lookup of that record, or the record
   * lies at or above its horizon and was not looked up at all.
   */
  lemma ResendExplained(states: seq<State>, steps: seq<Step>, j: nat) returns (i: nat)
    requires IsRun(states, steps) && j < |steps| && steps[j].OnRecord? && steps[j].call.Attempt?
    requires steps[j].w in states[j].workers
    requires states[j].workers[steps[j].w].next in states[j].shared.skips
    ensures var w, o := steps[j].w, states[j].workers[steps[j].w].next;
            && i < j && o !in states[i].shared.skips && o in states[i + 1].shared.skips
            && w < states[i].nextId
            && (o >= states[j].workers[w].horizon
                || (w in states[i].workers && states[i].workers[w].phase.MaySend() && states[i].workers[w].next == o))
  {
    var w, o := steps[j].w, states[j].workers[steps[j].w].next;
    i := SkipStoredAt(states, steps, j, o);
    if states[i + 1].nextId <= w { StoredSkipNotResent(states, steps, i + 1, j, o); }
    assert Follows(states, steps, i) && Follows(states, steps, j);
    if o < states[j].workers[w].horizon {
      SendingSince(states, steps, i + 1, j, w, o);
      PassedLookup(states, steps, i, w, o);
    }
  }

  /** The step that stored a skip that is stored by now. */
  lemma {:induction false} SkipStoredAt(states: seq<State>, steps: seq<Step>, j: nat, o: nat) returns (i: nat)
    requires IsRun(states, steps) && j < |states| && o in states[j].shared.skips
    ensures i < j && o !in states[i].shared.skips && o in states[i + 1].shared.skips
    ensures forall k :: i < k <= j ==> o in states[k].shared.skips
  {
    assert j > 0;
    if o in states[j - 1].shared.skips {
      i := SkipStoredAt(states, steps, j - 1, o);
    } else {
      i := j - 1;
    }
  }

  /** The worker is past its lookup of record o, which lay below its horizon. */
  predicate SendingBelow(s: State, w: nat, o: nat) {
    w in s.workers && s.workers[w].phase.MaySend() && s.workers[w].next == o && o < s.workers[w].horizon
  }

  /** Nobody passes the lookup of a record below its horizon whose skip is stored. */
  lemma PassedLookup(states: seq<State>, steps: seq<Step>, i: nat, w: nat, o: nat)
    requires IsRun(states, steps) && i < |steps| && SendingBelow(states[i + 1], w, o)
    requires o in states[i].shared.skips || (o in states[i + 1].shared.skips && o !in states[i].shared.skips)
    ensures SendingBelow(states[i], w, o)
  {
    assert Follows(states, steps, i);
    BoundedAlways(states, steps, i);
    var s, step := states[i], steps[i];
    if (step.Around? || step.Init? || step.Commits? || step.OnRecord?) && step.w == w {
      MoveCameFromSending(s.shared, s.workers[w], step, o);
    }
  }

  lemma MoveCameFromSending(s: Shared, k: Worker, step: Step, o: nat)
    requires MoveEnabled(s, k, step) && WorkerBounded(s, k)
    requires var j := ApplyMove(s, k, step).worker; j.phase.MaySend() && j.next == o && o < j.horizon
    requires o in s.skips || o in ApplyMove(s, k, step).shared.skips
    ensures k.phase.MaySend() && k.next == o && o < k.horizon
  {
    MovesThatSend(s, k, step);
  }

  lemma MovesThatSend(s: Shared, k: Worker, step: Step)
    requires MoveEnabled(s, k, step) && ApplyMove(s, k, step).worker.phase.MaySend()
    ensures step.Around? || (step.OnRecord? && (step.call.LookedUp? || step.call.FilterPass? || step.call.Attempt?))
  {
    match step
    case Around(_, _) =>
    case Init(_, call) => InitDoesNotSend(s, k, call);
    case Commits(_, _) =>
    case OnRecord(_, _) =>
  }

  lemma InitDoesNotSend(s: Shared, k: Worker, call: InitCall)
    requires InitEnabled(k, call)
    ensures !ApplyInit(s, k, call).worker.phase.MaySend()
  {
  }

  lemma {:induction false} SendingSince(states: seq<State>, steps: seq<Step>, i: nat, j: nat, w: nat, o: nat)
    requires IsRun(states, steps) && i <= j < |states| && SendingBelow(states[j], w, o)
    requires forall k :: i <= k <= j ==> o in states[k].shared.skips
    ensures SendingBelow(states[i], w, o)
  {
    if i < j {
      PassedLookup(states, steps, j - 1, w, o);
      SendingSince(states, steps, i, j - 1, w, o);
    }
  }
}
