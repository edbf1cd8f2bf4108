/**
 * One subscription and all workers of a scope: the stored row, leases and observations, and
 * each worker somewhere inside a reconcile pass. Store calls and lock-protected blocks are
 * single steps, so passes of different workers, change requests, expiring leases, joins,
 * releases and late store writes interleave in every way.
 */
module ControlMachine {
  import opened Basics
  import opened ControlStore

  datatype View = StateRunning | StatePaused | StateStarting | StatePausing | StateBlocked

  function ViewName(view: View): string {
    match view
    case StateRunning => "running"
    case StatePaused => "paused"
    case StateStarting => "starting"
    case StatePausing => "pausing"
    case StateBlocked => "blocked"
  }

  /** The names operators and the store see: each is the name of one view. */
  lemma ViewNamesExactly(view: View)
    ensures ViewName(view) == "running" <==> view == StateRunning
    ensures ViewName(view) == "paused" <==> view == StatePaused
    ensures ViewName(view) == "starting" <==> view == StateStarting
    ensures ViewName(view) == "pausing" <==> view == StatePausing
    ensures ViewName(view) == "blocked" <==> view == StateBlocked
  {
    assert |"running"| == |"pausing"| == |"blocked"| == 7 && |"paused"| == 6 && |"starting"| == 8;
    assert "running"[0] != "pausing"[0] && "running"[0] != "blocked"[0] && "pausing"[0] != "blocked"[0];
  }

  /** How long a renewed lease lasts, in the store and locally. */
  const LEASE_TTL := 30

  /** Where a worker stands in its pass; row is what the pass read from the store. */
  datatype Stage =
    | Between
    | Renewed                     // the stored lease has been extended
    | Fetched(row: Row)           // and the rows have been read
    | HasRow(row: Row)            // and the dependencies were healthy
    | Stopping(row: Row)
    | Stopped(row: Row)
    | Consuming(row: Row)
    | Applied
    | Reporting
    | Degrading

  /**
   * revision is the last revision this worker applied, and made the revision its present
   * consumer was created for.
   */
  datatype Worker = Worker(stage: Stage, view: View, revision: nat, consumer: bool, made: nat)

  /** A worker's dispatch fence: open while its dependencies are healthy, until its local deadline. */
  datatype Fence = Fence(open: bool, until: int)

  /** An observation on its way to the store. */
  datatype Report = Report(worker: nat, revision: nat, view: View)

  datatype State = State(
    row: Row, now: int, leases: map<nat, int>, observed: map<nat, Observation>,
    reports: set<Report>, workers: map<nat, Worker>, fences: map<nat, Fence>, nextId: nat)

  datatype Pass =
    | ReadRow                     // the desired row arrives
    | RestBegins                  // paused, or a source is not running
    | RestStopped                 // consumer.Stop has returned
    | RestApplied
    | DropFinished                // a consumer that ended by itself is cleared
    | CreateFails
    | Create
    | Keep                        // a live consumer is kept
    | Progress(ready: bool)
    | Snapshot                    // observations are read under the lock
    | Reported
    | Degrade                     // a failed observation write, or shutdown
    | StopAll

  datatype Step =
    | Change(desired: Desired)    // SetDesired, by any worker's operator
    | Tick(to: int)
    | LandReport(report: Report)  // a report takes effect, answered or not
    | Join
    | Crash(w: nat)
    | Release(w: nat)             // after Start has stopped every consumer
    | Renew(w: nat)               // the renewal takes effect in the store
    | Refresh(w: nat, renewed: bool, healthy: bool)  // the calls have returned: local deadline and health
    | Attempt(w: nat)             // an HTTP attempt of this destination starts
    | In(w: nat, pass: Pass)

  predicate PassEnabled(k: Worker, pass: Pass) {
    match pass
    case ReadRow => k.stage.Renewed?
    case RestBegins => k.stage.HasRow?
    case RestStopped => k.stage.Stopping?
    case RestApplied => k.stage.Stopped?
    case DropFinished => k.stage.HasRow? && k.stage.row.desired.Running? && k.consumer
    case CreateFails => k.stage.HasRow? && k.stage.row.desired.Running? && !k.consumer
    case Create => k.stage.HasRow? && k.stage.row.desired.Running? && !k.consumer
    case Keep => k.stage.HasRow? && k.stage.row.desired.Running? && k.consumer
    case Progress(_) => k.stage.Consuming?
    case Snapshot => k.stage.Applied?
    case Reported => k.stage.Reporting?
    case Degrade => true
    case StopAll => k.stage.Degrading?
  }

  function ApplyPass(k: Worker, row: Row, pass: Pass): Worker
    requires PassEnabled(k, pass)
  {
    match pass
    case ReadRow => k.(stage := Fetched(row))
    case RestBegins =>
      if k.consumer then k.(view := StatePausing, stage := Stopping(k.stage.row)) else k.(stage := Stopped(k.stage.row))
    case RestStopped => k.(consumer := false, stage := Stopped(k.stage.row))
    case RestApplied =>
      k.(view := if k.stage.row.desired.Paused? then StatePaused else StateBlocked,
         revision := k.stage.row.revision, stage := Applied)
    case DropFinished => k.(consumer := false)
    case CreateFails => k.(view := StateBlocked, stage := Applied)
    case Create =>
      k.(consumer := true, made := k.stage.row.revision, view := StateStarting,
         stage := Consuming(k.stage.row))
    case Keep => k.(stage := Consuming(k.stage.row))
    case Progress(ready) =>
      if ready then k.(view := StateRunning, revision := k.stage.row.revision, stage := Applied)
      else k.(view := StateStarting, stage := Applied)
    case Snapshot => k.(stage := Reporting)
    case Reported => k.(stage := Between)
    case Degrade => k.(stage := Degrading)
    case StopAll =>
      if k.consumer then k.(consumer := false, view := StateBlocked, stage := Between) else k.(stage := Between)
  }

  /** Several steps of one worker's pass in a row, if each is possible. */
  function Play(k: Worker, row: Row, passes: seq<Pass>): Option<Worker>
    decreases passes
  {
    if passes == [] then Some(k)
    else if !PassEnabled(k, passes[0]) then None
    else Play(ApplyPass(k, row, passes[0]), row, passes[1..])
  }

  const NewWorker := Worker(Between, StateStarting, 0, false, 0)

  /** The fence, as far as it does not depend on the state of a source. */
  predicate MayDispatch(s: State, w: nat) { w in s.fences && s.fences[w].open && s.now < s.fences[w].until }

  predicate Enabled(s: State, step: Step) {
    match step
    case Change(_) => true
    case Tick(to) => s.now <= to
    case LandReport(r) => r in s.reports
    case Join => true
    case Crash(w) => w in s.workers
    case Release(w) => w in s.workers && s.workers[w].stage.Between? && !s.workers[w].consumer
    case Renew(w) => w in s.workers && s.workers[w].stage.Between?
    // a renewal is answered only if it took effect, and health needs every answer
    case Refresh(w, renewed, healthy) =>
      && w in s.workers && w in s.fences && var stage := s.workers[w].stage;
      && (stage.Between? || stage.Renewed? || stage.Fetched?)
      && (renewed ==> !stage.Between?) && (healthy ==> renewed && stage.Fetched?)
    case Attempt(w) => w in s.workers && s.workers[w].consumer && MayDispatch(s, w)
    case In(w, pass) => w in s.workers && PassEnabled(s.workers[w], pass)
  }

  function Seen(r: Report): Observation { Observation(r.revision, ViewName(r.view)) }

  function Apply(s: State, step: Step): State
    requires Enabled(s, step)
  {
    match step
    case Change(desired) => s.(row := Desire(s.row, desired))
    case Tick(to) => s.(now := to)
    case LandReport(r) => s.(observed := Upsert(s.observed, r.worker, Seen(r)))
    case Join =>
      s.(workers := s.workers[s.nextId := NewWorker], fences := s.fences[s.nextId := Fence(false, s.now)],
        nextId := s.nextId + 1)
    case Crash(w) => s.(workers := s.workers - {w}, fences := s.fences - {w})
    case Release(w) =>
      s.(workers := s.workers - {w}, fences := s.fences - {w}, leases := s.leases - {w}, observed := s.observed - {w})
    case Renew(w) =>
      s.(leases := s.leases[w := s.now + LEASE_TTL], workers := s.workers[w := s.workers[w].(stage := Renewed)])
    case Refresh(w, renewed, healthy) =>
      var k, until := s.workers[w], if renewed then s.now + LEASE_TTL else s.fences[w].until;
      s.(fences := s.fences[w := Fence(healthy, until)],
         workers := s.workers[w := k.(stage := if healthy then HasRow(k.stage.row) else Degrading)])
    case Attempt(_) => s
    case In(w, pass) =>
      var k := s.workers[w];
      s.(workers := s.workers[w := ApplyPass(k, s.row, pass)],
         fences := if pass.Degrade? && k.stage.Reporting? && w in s.fences
                   then s.fences[w := s.fences[w].(open := false)]
                   else s.fences,
         reports := if pass.Snapshot? && k.revision > 0 then s.reports + {Report(w, k.revision, k.view)} else s.reports)
  }

  /** The subscription has just been registered and no worker of this scope has started. */
  ghost predicate Initial(s: State) {
    && s.row == Row(Running, 1) && s.reports == {} && s.workers == map[] && s.observed == map[]
    && s.leases == map[] && s.fences == map[]
  }

  ghost predicate Follows(states: seq<State>, steps: seq<Step>, i: nat)
    requires |states| == |steps| + 1 && i < |steps|
  {
    Enabled(states[i], steps[i]) && states[i + 1] == Apply(states[i], steps[i])
  }

  ghost predicate IsRun(states: seq<State>, steps: seq<Step>) {
    && |states| == |steps| + 1 && Initial(states[0])
    && forall i :: 0 <= i < |steps| ==> Follows(states, steps, i)
  }

  // ----- the invariant

  predicate HoldsRow(stage: Stage) {
    stage.Fetched? || stage.HasRow? || stage.Stopping? || stage.Stopped? || stage.Consuming?
  }

  ghost predicate WorkerOk(row: Row, k: Worker) {
    && k.revision <= row.revision
    && (HoldsRow(k.stage) ==>
          Alternates(k.stage.row) && k.revision <= k.stage.row.revision <= row.revision)
    && (k.stage.Stopped? ==> !k.consumer)
    && (k.stage.Consuming? ==> k.stage.row.desired.Running?)
    && (k.consumer ==> k.made % 2 == 1 && k.made <= row.revision && (k.revision % 2 == 0 ==> k.revision < k.made))
    && (k.view.StatePaused? ==> k.revision > 0 && k.revision % 2 == 0 && !k.consumer)
    && (k.view.StateRunning? ==> k.revision % 2 == 1)
  }

  ghost predicate ReportOk(s: State, r: Report) {
    && r.worker < s.nextId && 0 < r.revision <= s.row.revision
    && (r.view.StatePaused? ==> r.revision % 2 == 0)
    && (r.worker in s.workers ==> r.revision <= s.workers[r.worker].revision)
  }

  /** Every stored observation was reported. */
  ghost predicate ObservationOk(s: State, w: nat) {
    w in s.observed ==> exists r :: r in s.reports && r.worker == w && s.observed[w] == Seen(r)
  }

  ghost predicate Inv(s: State) {
    && Alternates(s.row)
    && (forall w :: w in s.workers ==> w < s.nextId && WorkerOk(s.row, s.workers[w]))
    && (forall r :: r in s.reports ==> ReportOk(s, r))
    && (forall w :: w in s.observed ==> ObservationOk(s, w))
  }

  lemma PassKeepsWorker(row: Row, k: Worker, pass: Pass)
    requires Alternates(row) && WorkerOk(row, k) && PassEnabled(k, pass)
    ensures WorkerOk(row, ApplyPass(k, row, pass)) && k.revision <= ApplyPass(k, row, pass).revision
  {
  }

  lemma StepKeepsInv(s: State, step: Step)
    requires Inv(s) && Enabled(s, step)
    ensures Inv(Apply(s, step)) && s.row.revision <= Apply(s, step).row.revision
  {
    var t := Apply(s, step);
    match step {
      case In(w, pass) => PassKeepsWorker(s.row, s.workers[w], pass);
      case Change(desired) => DesireAlternates(s.row, desired);
      case _ =>
    }
    forall r | r in t.reports
      ensures ReportOk(t, r)
    {
      if r in s.reports { assert ReportOk(s, r); } else { assert WorkerOk(s.row, s.workers[step.w]); }
    }
    forall w | w in t.observed
      ensures ObservationOk(t, w)
    {
      if w in s.observed { assert ObservationOk(s, w); }
    }
  }

  lemma {:induction false} InvAlways(states: seq<State>, steps: seq<Step>, i: nat)
    requires IsRun(states, steps) && i < |states|
    ensures Inv(states[i])
  {
    if i > 0 {
      InvAlways(states, steps, i - 1);
      assert Follows(states, steps, i - 1);
      StepKeepsInv(states[i - 1], steps[i - 1]);
    }
  }

  /** The stored revision never goes back, and neither does what one worker has applied. */
  lemma {:induction false} RevisionsGrow(states: seq<State>, steps: seq<Step>, i: nat, j: nat, w: nat)
    requires IsRun(states, steps) && i <= j < |states|
    ensures states[i].row.revision <= states[j].row.revision
    ensures states[i].nextId <= states[j].nextId
    ensures w < states[i].nextId && w in states[j].workers ==>
              w in states[i].workers && states[i].workers[w].revision <= states[j].workers[w].revision
  {
    if i < j {
      RevisionsGrow(states, steps, i, j - 1, w);
      InvAlways(states, steps, j - 1);
      assert Follows(states, steps, j - 1);
      StepKeepsInv(states[j - 1], steps[j - 1]);
      if w in states[j - 1].workers { WorkerRevisionGrows(states[j - 1], steps[j - 1], w); }
    }
  }

  lemma WorkerRevisionGrows(s: State, step: Step, w: nat)
    requires Inv(s) && Enabled(s, step) && w in s.workers
    ensures w in Apply(s, step).workers ==> s.workers[w].revision <= Apply(s, step).workers[w].revision
  {
    if step.In? && step.w == w { PassKeepsWorker(s.row, s.workers[w], step.pass); }
  }

  /** The rows a worker reads, pass after pass, never go back to an older revision. */
  lemma RowsReadGrow(states: seq<State>, steps: seq<Step>, i: nat, j: nat, w: nat)
    requires IsRun(states, steps) && i <= j < |steps|
    requires steps[i] == In(w, ReadRow) && steps[j] == In(w, ReadRow)
    ensures w in states[i + 1].workers && w in states[j + 1].workers
    ensures states[i + 1].workers[w].stage.Fetched? && states[j + 1].workers[w].stage.Fetched?
    ensures states[i + 1].workers[w].stage.row.revision <= states[j + 1].workers[w].stage.row.revision
  {
    assert Follows(states, steps, i) && Follows(states, steps, j);
    RevisionsGrow(states, steps, i, j, w);
  }

  /**
   * What a successful Change to paused rests on: the store says that every worker with an
   * unexpired lease has observed paused at the revision or later. As long as the row still
   * has that revision, none of those workers holds a consumer: not at that moment and not
   * later, whatever else happens.
   */
  lemma PausedMeansStopped(states: seq<State>, steps: seq<Step>, i: nat, j: nat, revision: nat, w: nat)
    requires IsRun(states, steps) && i <= j < |states|
    requires AllAgree(states[i].leases, states[i].observed, states[i].now, revision, Name(Paused))
    requires Unexpired(states[i].leases, states[i].now, w) && w in states[j].workers
    requires states[j].row.revision == revision
    ensures !states[j].workers[w].consumer && states[j].workers[w].revision == revision
  {
    var s := states[i];
    InvAlways(states, steps, i);
    InvAlways(states, steps, j);
    assert Agrees(s.observed, w, revision, "paused") && ObservationOk(s, w);
    var r :| r in s.reports && r.worker == w && s.observed[w] == Seen(r);
    assert ReportOk(s, r);
    assert r.view == StatePaused by { ViewNamesExactly(r.view); }
    RevisionsGrow(states, steps, i, j, w);
    assert WorkerOk(states[j].row, states[j].workers[w]);
  }

  // ----- attempts after the pause was agreed

  /** Nothing this worker holds comes from a row older than the revision. */
  predicate Harmless(k: Worker, revision: nat) {
    && (k.consumer ==> k.made >= revision)
    && (HoldsRow(k.stage) ==> k.stage.row.revision >= revision)
  }

  lemma PassKeepsHarmless(row: Row, k: Worker, pass: Pass, revision: nat)
    requires PassEnabled(k, pass) && Harmless(k, revision) && revision <= row.revision
    ensures Harmless(ApplyPass(k, row, pass), revision)
  {
  }

  /** A worker that held nothing older than the revision, or had not joined, does not come to hold any. */
  lemma {:induction false} HarmlessStays(states: seq<State>, steps: seq<Step>, i: nat, j: nat, w: nat, revision: nat)
    requires IsRun(states, steps) && i <= j < |states| && revision <= states[i].row.revision
    requires w in states[i].workers ==> Harmless(states[i].workers[w], revision)
    ensures w in states[j].workers ==> Harmless(states[j].workers[w], revision)
  {
    if i < j {
      HarmlessStays(states, steps, i, j - 1, w, revision);
      RevisionsGrow(states, steps, i, j - 1, w);
      assert Follows(states, steps, j - 1);
      var s, step := states[j - 1], steps[j - 1];
      if w in s.workers && step.In? && step.w == w { PassKeepsHarmless(s.row, s.workers[w], step.pass, revision); }
    }
  }

  /** A worker that has come as far as a row, or has a consumer, has a stored lease. */
  ghost predicate Leased(s: State) {
    forall w :: w in s.workers && NeedsLease(s.workers[w]) ==> w in s.leases
  }

  predicate NeedsLease(k: Worker) { k.consumer || k.stage.Renewed? || HoldsRow(k.stage) }

  lemma PassNeedsLease(row: Row, k: Worker, pass: Pass)
    requires PassEnabled(k, pass)
    requires NeedsLease(ApplyPass(k, row, pass))
    ensures NeedsLease(k)
  {
  }

  lemma {:induction false} LeasedAlways(states: seq<State>, steps: seq<Step>, i: nat)
    requires IsRun(states, steps) && i < |states|
    ensures Leased(states[i])
  {
    if i > 0 {
      LeasedAlways(states, steps, i - 1);
      assert Follows(states, steps, i - 1);
      var s, step, t := states[i - 1], steps[i - 1], states[i];
      forall w | w in t.workers && NeedsLease(t.workers[w])
        ensures w in t.leases
      {
        if step.In? && step.w == w { PassNeedsLease(s.row, s.workers[w], step.pass); }
      }
    }
  }

  /**
   * When an attempt is still possible after the store has said that paused was observed, and
   * before a newer revision is stored: only by a worker that had joined by then, whose stored lease
   * had expired by then, and whose local deadline has not passed.
   */
  lemma AttemptAfterAgreedPause(states: seq<State>, steps: seq<Step>, i: nat, j: nat, revision: nat, w: nat)
    requires IsRun(states, steps) && i <= j < |steps|
    requires AllAgree(states[i].leases, states[i].observed, states[i].now, revision, Name(Paused))
    requires states[j].row.revision == revision && steps[j] == Attempt(w)
    ensures w in states[i].workers && w in states[i].leases && states[i].leases[w] <= states[i].now
    ensures MayDispatch(states[j], w)
  {
    assert Follows(states, steps, j);
    AgreedRevision(states, steps, i, j, revision);
    InvAlways(states, steps, j);
    assert WorkerOk(states[j].row, states[j].workers[w]);
    if w !in states[i].workers || Harmless(states[i].workers[w], revision) {
      HarmlessStays(states, steps, i, j, w, revision);
      assert false;
    }
    LeasedAlways(states, steps, i);
    if Unexpired(states[i].leases, states[i].now, w) {
      PausedMeansStopped(states, steps, i, j, revision, w);
      assert false;
    }
  }

  /** The revision agreed on was stored by then, and is a paused one. */
  lemma AgreedRevision(states: seq<State>, steps: seq<Step>, i: nat, j: nat, revision: nat)
    requires IsRun(states, steps) && i <= j < |states|
    requires AllAgree(states[i].leases, states[i].observed, states[i].now, revision, Name(Paused))
    requires states[j].row.revision == revision
    ensures states[i].row.revision == revision && revision % 2 == 0
  {
    var s := states[i];
    InvAlways(states, steps, i);
    var v :| Unexpired(s.leases, s.now, v);
    assert Agrees(s.observed, v, revision, "paused") && ObservationOk(s, v);
    var r :| r in s.reports && r.worker == v && s.observed[v] == Seen(r);
    assert ReportOk(s, r);
    assert r.view == StatePaused by { ViewNamesExactly(r.view); }
    RevisionsGrow(states, steps, i, j, v);
  }

  // ----- how far the local deadline outlives the stored lease

  /** Every refresh comes at most slack after its renewal took effect. */
  ghost predicate Prompt(states: seq<State>, steps: seq<Step>, slack: nat)
    requires |states| == |steps| + 1
  {
    forall i :: 0 <= i < |steps| ==> PromptStep(states[i], steps[i], slack)
  }

  predicate PromptStep(s: State, step: Step, slack: nat) {
    step.Refresh? && step.renewed ==> step.w in s.leases && s.now + LEASE_TTL <= s.leases[step.w] + slack
  }

  ghost predicate Lags(s: State, slack: nat) {
    forall w :: w in s.fences ==>
      s.fences[w].until <= s.now || (w in s.leases && s.fences[w].until <= s.leases[w] + slack)
  }

  /** No stored lease lies further ahead than a fresh one, so a renewal never shortens one. */
  ghost predicate LeasesFresh(s: State) {
    && (forall w :: w in s.leases ==> s.leases[w] <= s.now + LEASE_TTL)
    && (forall w :: w in s.fences <==> w in s.workers)
    && (forall w :: w in s.workers ==> w < s.nextId)
  }

  /** The local deadline never outlives the stored lease by more than the time the calls took. */
  lemma {:induction false} DeadlineLags(states: seq<State>, steps: seq<Step>, i: nat, slack: nat)
    requires IsRun(states, steps) && Prompt(states, steps, slack) && i < |states|
    ensures Lags(states[i], slack) && LeasesFresh(states[i])
  {
    if i > 0 {
      DeadlineLags(states, steps, i - 1, slack);
      assert Follows(states, steps, i - 1) && PromptStep(states[i - 1], steps[i - 1], slack);
    }
  }

  /** An attempt never starts later than the slack after its worker's stored lease has expired. */
  lemma AttemptWithinSlack(states: seq<State>, steps: seq<Step>, j: nat, slack: nat, w: nat)
    requires IsRun(states, steps) && Prompt(states, steps, slack) && j < |steps| && steps[j] == Attempt(w)
    ensures w in states[j].leases && states[j].now < states[j].leases[w] + slack
  {
    assert Follows(states, steps, j);
    DeadlineLags(states, steps, j, slack);
  }
  // ----- what opens the fence

  /** A dependency of this worker fails: the calls of a pass, or the report at its end. */
  predicate Shuts(s: State, step: Step, w: nat) {
    || (step.Refresh? && step.w == w && !step.healthy)
    || (step == In(w, Degrade) && w in s.workers && s.workers[w].stage.Reporting?)
  }

  lemma {:induction false} FenceOpened(states: seq<State>, steps: seq<Step>, j: nat, w: nat) returns (i: nat)
    requires IsRun(states, steps) && j < |states| && w in states[j].fences && states[j].fences[w].open
    ensures i < j && steps[i].Refresh? && steps[i].w == w && steps[i].healthy
    ensures forall k :: i < k < j ==> !Shuts(states[k], steps[k], w)
  {
    assert j > 0 && Follows(states, steps, j - 1);
    if steps[j - 1].Refresh? && steps[j - 1].w == w {
      i := j - 1;
    } else {
      i := FenceOpened(states, steps, j - 1, w);
    }
  }

  /** An attempt starts only after a pass of its worker found everything healthy, with no failure since. */
  lemma AttemptNeedsHealth(states: seq<State>, steps: seq<Step>, j: nat, w: nat) returns (i: nat)
    requires IsRun(states, steps) && j < |steps| && steps[j] == Attempt(w)
    ensures i < j && steps[i].Refresh? && steps[i].w == w && steps[i].renewed && steps[i].healthy
    ensures forall k :: i < k < j ==> !Shuts(states[k], steps[k], w)
  {
    assert Follows(states, steps, j);
    i := FenceOpened(states, steps, j, w);
    assert Follows(states, steps, i);
  }
}
