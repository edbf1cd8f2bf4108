/**
 * One partition of one destination as a transition system: Kafka's log and
 * committed offset, the control store's marker and skip rows, and any number of
 * partition workers, each at a program point of internal/adapters/kafka/consumer.go
 * or internal/delivery/worker.go.
 *
 * Every broker call, store call and lock-protected block is one atomic step. A worker
 * that Kafka no longer considers the owner may go on running until its own callbacks
 * notice; nothing here says that two workers cannot be alive at once.
 */
module PartitionMachine {
  import opened Basics

  /** Where a worker's goroutine stands. A value read by an earlier call is kept as a field. */
  datatype Phase =
    // initialize, one constructor per call still to be made
    | ReadCommitted
    | ReadStart(read: Option<nat>)
    | ReadEnd(read: Option<nat>, first: nat)
    | ReadMarker(read: Option<nat>, first: nat, last: nat)
    | Baseline(first: nat, last: nat)
    | BaselineWait(first: nat, last: nat)
    | Mark(at: nat, first: nat, last: nat)
    // the batch loop and one record
    | Idle
    | Lookup
    | Filter
    | Send(tried: bool)
    | Audit
    | Commit
    | CommitWait
    // the goroutine has returned
    | Done
  {
    /** The worker's mutex is held exactly while CommitRecords is in flight. */
    predicate HoldsLock() { BaselineWait? || CommitWait? }

    predicate Initializing() {
      ReadCommitted? || ReadStart? || ReadEnd? || ReadMarker? || Baseline? || BaselineWait? || Mark?
    }

    predicate WithRecord() { Lookup? || Filter? || Send? || Audit? || Commit? || CommitWait? }

    /** Past the skip lookup and not yet finished: the record may still be sent. */
    predicate MaySend() { Filter? || Send? }
  }

  /**
   * next is the next record to process; records next..fetched wait in the batch channel.
   * resolved says that the Kafka client has fixed the position it fetches from, and sound
   * that this position was a committed offset or the first record ever written.
   */
  datatype Worker = Worker(owned: bool, cancelled: bool, phase: Phase, horizon: nat,
                           resolved: bool, sound: bool, next: nat, fetched: nat)

  /** A commit request that has left the worker: "everything below upTo is finished". */
  datatype Request = Request(worker: nat, upTo: nat)

  datatype BlockReason = EstablishedLost | OutsideHistory | FetchLost | Undecodable

  datatype Outcome = Delivered | Skipped

  /** Everything outside the workers. */
  datatype Shared = Shared(
    // Kafka; requests were sent and may still take effect, answered or not
    logStart: nat, logEnd: nat, committed: Option<nat>, owner: Option<nat>, requests: set<Request>,
    // control store; markSent and audits were sent and may still take effect
    started: bool, markSent: bool, skips: set<nat>, audits: set<nat>,
    // records that reached these outcomes, and why the source was blocked
    delivered: set<nat>, filtered: set<nat>, blocks: set<BlockReason>)

  datatype State = State(shared: Shared, workers: map<nat, Worker>, nextId: nat)

  /** What one step of a worker makes of its surroundings and of the worker itself. */
  datatype Move = Move(shared: Shared, worker: Worker)

  /** What the world outside the workers does. */
  datatype Event =
    | Append(count: nat)
    | Truncate(to: nat)
    | ResetBack(to: nat)
    | LoseOffsets
    | Land(request: Request)
    | LandMark
    | LandSkip(offset: nat)
    | Disown

  /** What happens around a worker: its Kafka client and its consumer's callbacks. */
  datatype Change =
    | Resolve
    | Fetch(count: nat)
    | FetchOutOfRange
    | Cancel
    | ClearOwnership

  /** Calls of initialize; Restart is any of them failing. */
  datatype InitCall = SeeCommitted | SeeStart | SeeEnd | SeeMarker | Marked | Restart

  datatype CommitCall = Check(allowed: bool) | Ack | Fail

  /** What a worker does about one record; Exit is a retry loop finding its context ended. */
  datatype RecordCall =
    | Take
    | GateShut
    | CannotDecode
    | LookedUp
    | FilterOut
    | FilterPass
    | Attempt
    | Answer(outcome: Outcome)
    | SkipStored
    | Exit

  datatype Step =
    | Env(event: Event)
    | Assign
    | Crash(w: nat)
    | Around(w: nat, change: Change)
    | Init(w: nat, init: InitCall)
    | Commits(w: nat, commit: CommitCall)
    | OnRecord(w: nat, call: RecordCall)
  {
    /** Steps taken by the code of worker id itself. */
    predicate OfGoroutine(id: nat) { (Init? || Commits? || OnRecord?) && w == id }
  }

  predicate EventEnabled(s: Shared, event: Event) {
    match event
    case Truncate(to) => s.logStart <= to <= s.logEnd
    case ResetBack(to) => s.committed.Some? && to <= s.committed.value
    // Kafka fences a commit whose sender no longer owns the partition.
    case Land(r) => r in s.requests && s.owner == Some(r.worker)
    case LandMark => s.markSent
    case LandSkip(o) => o in s.audits
    case _ => true
  }

  function ApplyEvent(s: Shared, event: Event): Shared {
    match event
    case Append(n) => s.(logEnd := s.logEnd + n)
    case Truncate(to) => s.(logStart := to)
    case ResetBack(to) => s.(committed := Some(to))
    case LoseOffsets => s.(committed := None)
    case Land(r) => s.(committed := Some(r.upTo))
    case LandMark => s.(started := true)
    case LandSkip(o) => s.(skips := s.skips + {o})
    case Disown => s.(owner := None)
  }

  const FreshWorker := Worker(true, false, ReadCommitted, 0, false, false, 0, 0)

  predicate ChangeEnabled(s: Shared, k: Worker, change: Change) {
    match change
    case Resolve => !k.resolved
    case Fetch(n) => k.resolved && !k.cancelled && s.logStart <= k.fetched && k.fetched + n <= s.logEnd
    case FetchOutOfRange => k.resolved && !k.cancelled && (k.fetched < s.logStart || s.logEnd < k.fetched)
    case Cancel => true
    // stopWorkers takes the worker's mutex, so it waits for a commit in flight.
    case ClearOwnership => k.cancelled && !k.phase.HoldsLock()
  }

  function ApplyChange(s: Shared, k: Worker, change: Change): Move {
    match change
    case Resolve =>
      var from := if s.committed.Some? then s.committed.value else s.logStart;
      var sound := s.committed.Some? || s.logStart == 0;
      Move(s, k.(resolved := true, sound := sound, next := from, fetched := from))
    case Fetch(n) => Move(s, k.(fetched := k.fetched + n))
    case FetchOutOfRange => Move(s.(blocks := s.blocks + {FetchLost}), k.(cancelled := true))
    case Cancel => Move(s, k.(cancelled := true))
    case ClearOwnership => Move(s, k.(owned := false))
  }

  predicate InitEnabled(k: Worker, call: InitCall) {
    match call
    case SeeCommitted => k.phase.ReadCommitted?
    case SeeStart => k.phase.ReadStart?
    case SeeEnd => k.phase.ReadEnd?
    case SeeMarker => k.phase.ReadMarker?
    case Marked => k.phase.Mark?
    case Restart => k.phase.Initializing() && !k.phase.HoldsLock()
  }

  function ApplyInit(s: Shared, k: Worker, call: InitCall): Move
    requires InitEnabled(k, call)
  {
    match call
    case SeeCommitted => Move(s, k.(phase := ReadStart(s.committed)))
    case SeeStart => Move(s, k.(phase := ReadEnd(k.phase.read, s.logStart)))
    case SeeEnd =>
      Move(s, k.(horizon := s.logEnd, phase := ReadMarker(k.phase.read, k.phase.first, s.logEnd)))
    case SeeMarker => DecideHistory(s, k, k.phase.read, k.phase.first, k.phase.last)
    case Marked => Move(s.(started := true), k.(phase := Idle))
    case Restart => Move(s, k.(phase := ReadCommitted))
  }

  /** The last read of initialize is in: decide between blocking, a baseline, and the marker. */
  function DecideHistory(s: Shared, k: Worker, read: Option<nat>, first: nat, last: nat): Move {
    match read
    case None =>
      if s.started || first != 0 then Blocked(s, k, EstablishedLost)
      else Move(s, k.(phase := Baseline(first, last)))
    case Some(at) =>
      if at < first || last < at then Blocked(s, k, OutsideHistory)
      else Move(s.(markSent := true), k.(phase := Mark(at, first, last)))
  }

  /** The goroutine returns an error: its context is cancelled and no further record is taken. */
  function Stop(s: Shared, k: Worker): Move { Move(s, k.(phase := Done, cancelled := true)) }

  function Blocked(s: Shared, k: Worker, reason: BlockReason): Move {
    Stop(s.(blocks := s.blocks + {reason}), k)
  }

  predicate CommitEnabled(s: Shared, w: nat, k: Worker, call: CommitCall) {
    match call
    case Check(_) => k.phase.Baseline? || k.phase.Commit?
    case Ack => k.phase.HoldsLock() && s.owner == Some(w)
    case Fail => k.phase.HoldsLock()
  }

  function ApplyCommit(s: Shared, w: nat, k: Worker, call: CommitCall): Move
    requires CommitEnabled(s, w, k, call)
  {
    match call
    // commit takes the worker's mutex, then refuses unless owned, not cancelled and allowed
    case Check(allowed) =>
      if k.owned && !k.cancelled && allowed then
        var waiting := if k.phase.Baseline? then BaselineWait(k.phase.first, k.phase.last) else CommitWait;
        Move(s.(requests := s.requests + {Request(w, Target(k))}), k.(phase := waiting))
      else if k.phase.Baseline? then Move(s, k.(phase := ReadCommitted))
      else Move(s, k)
    case Ack =>
      if k.phase.BaselineWait?
      then Move(s.(markSent := true, committed := Some(Target(k))),
                k.(phase := Mark(k.phase.first, k.phase.first, k.phase.last)))
      else Move(s.(committed := Some(Target(k))), k.(phase := Idle, next := k.next + 1))
    case Fail =>
      Move(s, k.(phase := if k.phase.BaselineWait? then ReadCommitted else Commit))
  }

  /** The offset a commit asks for: the baseline, or one past the finished record. */
  function Target(k: Worker): nat {
    match k.phase
    case Baseline(first, _) => first
    case BaselineWait(first, _) => first
    case _ => k.next + 1
  }

  predicate RecordEnabled(k: Worker, call: RecordCall) {
    match call
    case Take => k.phase.Idle? && HasRecord(k)
    case GateShut => k.phase.Idle? && HasRecord(k)
    case CannotDecode => k.phase.Idle? && HasRecord(k)
    case LookedUp => k.phase.Lookup?
    case FilterOut => k.phase.Filter?
    case FilterPass => k.phase.Filter?
    case Attempt => k.phase.Send?
    case Answer(_) => k.phase == Send(true)
    case SkipStored => k.phase.Audit?
    case Exit => k.cancelled && !k.phase.HoldsLock()
  }

  predicate HasRecord(k: Worker) { k.resolved && k.next < k.fetched }

  function ApplyRecord(s: Shared, k: Worker, call: RecordCall): Move {
    match call
    case Take => Move(s, k.(phase := Lookup))
    case GateShut => Stop(s, k)
    case CannotDecode => Blocked(s, k, Undecodable)
    // only a record below the horizon is looked up
    case LookedUp =>
      Move(s, k.(phase := if k.next < k.horizon && k.next in s.skips then Commit else Filter))
    case FilterOut => Move(s.(filtered := s.filtered + {k.next}), k.(phase := Commit))
    case FilterPass => Move(s, k.(phase := Send(false)))
    case Attempt => Move(s, k.(phase := Send(true)))
    case Answer(outcome) =>
      if outcome.Delivered?
      then Move(s.(delivered := s.delivered + {k.next}), k.(phase := Commit))
      else Move(s.(audits := s.audits + {k.next}), k.(phase := Audit))
    case SkipStored => Move(s.(skips := s.skips + {k.next}), k.(phase := Commit))
    case Exit => Move(s, k.(phase := Done))
  }

  predicate Enabled(s: State, step: Step) {
    match step
    case Env(event) => EventEnabled(s.shared, event)
    case Assign => true
    case Crash(w) => w in s.workers
    case _ => step.w in s.workers && MoveEnabled(s.shared, s.workers[step.w], step)
  }

  predicate MoveEnabled(s: Shared, k: Worker, step: Step) {
    match step
    case Around(_, change) => ChangeEnabled(s, k, change)
    case Init(_, call) => InitEnabled(k, call)
    case Commits(w, call) => CommitEnabled(s, w, k, call)
    case OnRecord(_, call) => RecordEnabled(k, call)
    case _ => false
  }

  /** What a step of one worker does, away from the other workers. */
  function ApplyMove(s: Shared, k: Worker, step: Step): Move
    requires MoveEnabled(s, k, step)
  {
    match step
    case Around(_, change) => ApplyChange(s, k, change)
    case Init(_, call) => ApplyInit(s, k, call)
    case Commits(w, call) => ApplyCommit(s, w, k, call)
    case OnRecord(_, call) => ApplyRecord(s, k, call)
  }

  function Apply(s: State, step: Step): State
    requires Enabled(s, step)
  {
    match step
    case Env(event) => s.(shared := ApplyEvent(s.shared, event))
    case Assign =>
      State(s.shared.(owner := Some(s.nextId)), s.workers[s.nextId := FreshWorker], s.nextId + 1)
    case Crash(w) => s.(workers := s.workers - {w})
    case _ =>
      var move := ApplyMove(s.shared, s.workers[step.w], step);
      State(move.shared, s.workers[step.w := move.worker], s.nextId)
  }

  /** Nothing consumed yet: no offset, no marker, no skip, no worker. */
  ghost predicate Initial(s: State) {
    && s.shared.logStart <= s.shared.logEnd && s.shared.committed == None && s.shared.owner == None
    && !s.shared.started && !s.shared.markSent && s.shared.skips == {} && s.shared.audits == {}
    && s.shared.requests == {} && s.shared.delivered == {} && s.shared.filtered == {}
    && s.shared.blocks == {} && s.workers == map[]
  }

  /** states[i + 1] is what steps[i] makes of states[i]. */
  ghost predicate IsRun(states: seq<State>, steps: seq<Step>) {
    && |states| == |steps| + 1
    && Initial(states[0])
    && forall i :: 0 <= i < |steps| ==> Follows(states, steps, i)
  }

  ghost predicate Follows(states: seq<State>, steps: seq<Step>, i: nat)
    requires |states| == |steps| + 1 && i < |steps|
  {
    Enabled(states[i], steps[i]) && states[i + 1] == Apply(states[i], steps[i])
  }

  /**
   * The assumption on fetching: whoever takes a record was positioned by the Kafka client
   * at a committed offset, or at the first record ever written.
   */
  ghost predicate SoundTakes(states: seq<State>, steps: seq<Step>)
    requires |states| == |steps| + 1
  {
    forall i :: 0 <= i < |steps| ==> TakesSoundly(states[i], steps[i])
  }

  predicate TakesSoundly(s: State, step: Step) {
    step.OnRecord? && step.call.Take? && step.w in s.workers ==> s.workers[step.w].sound
  }
}
