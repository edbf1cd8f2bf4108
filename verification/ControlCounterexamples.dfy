/** A run in which a paused subscription is still delivered, by a worker whose stored lease has expired. */
module ControlCounterexamples {
  import opened Basics
  import opened ControlStore
  import opened ControlMachine

  /** Some run, in which no pass takes longer than a pass may, ends in s. */
  ghost predicate Reached(s: State) {
    exists states: seq<State>, steps: seq<Step> ::
      IsRun(states, steps) && Prompt(states, steps, RECONCILE_TIMEOUT) && states[|steps|] == s
  }

  /** How long a pass may take. */
  const RECONCILE_TIMEOUT := 4

  lemma Then(s: State, step: Step, t: State)
    requires Reached(s) && Enabled(s, step) && Apply(s, step) == t && PromptStep(s, step, RECONCILE_TIMEOUT)
    ensures Reached(t)
  {
    var states: seq<State>, steps: seq<Step> :|
      IsRun(states, steps) && Prompt(states, steps, RECONCILE_TIMEOUT) && states[|steps|] == s;
    var more, all := states + [t], steps + [step];
    forall i | 0 <= i < |all|
      ensures Follows(more, all, i) && PromptStep(more[i], all[i], RECONCILE_TIMEOUT)
    {
      if i < |steps| { assert Follows(states, steps, i) && PromptStep(states[i], steps[i], RECONCILE_TIMEOUT); }
    }
    assert IsRun(more, all) && more[|all|] == t;
  }

  /** The worker that runs a consumer for revision 1. */
  const Busy := Worker(Applied, StateRunning, 1, true, 1)

  /** Worker 0 with its stored lease and fence, before anybody else has joined. */
  function Alone(now: int, lease: int, fence: Fence, k: Worker): State {
    State(Row(Running, 1), now, map[0 := lease], map[], {}, map[0 := k], map[0 := fence], 1)
  }

  lemma FirstWorkerJoins()
    ensures Reached(Alone(0, 30, Fence(false, 0), NewWorker.(stage := Renewed)))
  {
    var s := State(Row(Running, 1), 0, map[], map[], {}, map[], map[], 0);
    var states: seq<State>, steps: seq<Step> := [s], [];
    assert IsRun(states, steps) && Prompt(states, steps, RECONCILE_TIMEOUT);
    var t := s.(workers := map[0 := NewWorker], fences := map[0 := Fence(false, 0)], nextId := 1);
    Then(s, Join, t);
    Then(t, Renew(0), Alone(0, 30, Fence(false, 0), NewWorker.(stage := Renewed)));
  }

  /** Worker 0 renews at time 0 and learns of it at time 3: the lease ends at 30, its deadline is 33. */
  lemma FirstWorkerRenews()
    ensures Reached(Alone(3, 30, Fence(true, 33), NewWorker.(stage := HasRow(Row(Running, 1)))))
  {
    var row, closed := Row(Running, 1), Fence(false, 0);
    var renewed, fetched := NewWorker.(stage := Renewed), NewWorker.(stage := Fetched(row));
    FirstWorkerJoins();
    Then(Alone(0, 30, closed, renewed), In(0, ReadRow), Alone(0, 30, closed, fetched));
    Then(Alone(0, 30, closed, fetched), Tick(3), Alone(3, 30, closed, fetched));
    Then(Alone(3, 30, closed, fetched), Refresh(0, true, true),
         Alone(3, 30, Fence(true, 33), NewWorker.(stage := HasRow(row))));
  }

  lemma FirstWorkerConsumes()
    ensures Reached(Alone(31, 30, Fence(true, 33), Busy))
  {
    var row, fence := Row(Running, 1), Fence(true, 33);
    var k, c := NewWorker.(stage := HasRow(row)), Worker(Consuming(row), StateStarting, 0, true, 1);
    FirstWorkerRenews();
    Then(Alone(3, 30, fence, k), In(0, Create), Alone(3, 30, fence, c));
    Then(Alone(3, 30, fence, c), In(0, Progress(true)), Alone(3, 30, fence, Busy));
    Then(Alone(3, 30, fence, Busy), Tick(31), Alone(31, 30, fence, Busy));
  }

  /** Worker 1 beside the busy worker 0, whose lease has expired. */
  function Both(row: Row, leases: map<nat, int>, fence: Fence, k: Worker): State {
    State(row, 31, leases, map[], {}, map[0 := Busy, 1 := k], map[0 := Fence(true, 33), 1 := fence], 2)
  }

  /** The subscription is paused, and worker 1 joins. */
  lemma SecondWorkerJoins()
    ensures Reached(Both(Row(Paused, 2), map[0 := 30], Fence(false, 31), NewWorker))
  {
    var row, s := Row(Paused, 2), Alone(31, 30, Fence(true, 33), Busy);
    FirstWorkerConsumes();
    Then(s, Change(Paused), s.(row := row));
    Then(s.(row := row), Join, Both(row, map[0 := 30], Fence(false, 31), NewWorker));
  }

  lemma SecondWorkerFetches()
    ensures Reached(Both(Row(Paused, 2), map[0 := 30, 1 := 61], Fence(false, 31),
              NewWorker.(stage := Fetched(Row(Paused, 2)))))
  {
    var row, closed, leases := Row(Paused, 2), Fence(false, 31), map[0 := 30, 1 := 61];
    var renewed := NewWorker.(stage := Renewed);
    SecondWorkerJoins();
    Then(Both(row, map[0 := 30], closed, NewWorker), Renew(1), Both(row, leases, closed, renewed));
    Then(Both(row, leases, closed, renewed), In(1, ReadRow),
      Both(row, leases, closed, NewWorker.(stage := Fetched(row))));
  }

  lemma SecondWorkerReads()
    ensures Reached(Both(Row(Paused, 2), map[0 := 30, 1 := 61], Fence(true, 61),
              NewWorker.(stage := HasRow(Row(Paused, 2)))))
  {
    var row, leases := Row(Paused, 2), map[0 := 30, 1 := 61];
    SecondWorkerFetches();
    Then(Both(row, leases, Fence(false, 31), NewWorker.(stage := Fetched(row))), Refresh(1, true, true),
         Both(row, leases, Fence(true, 61), NewWorker.(stage := HasRow(row))));
  }

  /** It rests and reports. */
  lemma SecondWorkerReports()
    ensures var s := Both(Row(Paused, 2), map[0 := 30, 1 := 61], Fence(true, 61),
              Worker(Reporting, StatePaused, 2, false, 0));
            Reached(s.(reports := {Report(1, 2, StatePaused)}))
  {
    var row, open, leases := Row(Paused, 2), Fence(true, 61), map[0 := 30, 1 := 61];
    var k, rested := NewWorker.(stage := HasRow(row)), Worker(Applied, StatePaused, 2, false, 0);
    SecondWorkerReads();
    Then(Both(row, leases, open, k), In(1, RestBegins), Both(row, leases, open, k.(stage := Stopped(row))));
    Then(Both(row, leases, open, k.(stage := Stopped(row))), In(1, RestApplied), Both(row, leases, open, rested));
    var s := Both(row, leases, open, rested.(stage := Reporting)).(reports := {Report(1, 2, StatePaused)});
    Then(Both(row, leases, open, rested), In(1, Snapshot), s);
  }

  /**
   * A worker whose stored lease has expired is not waited for: when the store reports that paused
   * was observed, it may not only still hold its consumer but start another attempt, as long as its
   * local deadline, stamped up to four seconds after the stored lease, has not passed.
   */
  lemma ExpiredWorkerMayDeliver()
    ensures exists s: State :: Reached(s) && s.row == Row(Paused, 2) && Enabled(s, Attempt(0)) &&
                               AllAgree(s.leases, s.observed, s.now, 2, Name(Paused))
  {
    var row, open, leases := Row(Paused, 2), Fence(true, 61), map[0 := 30, 1 := 61];
    var report := Report(1, 2, StatePaused);
    var s := Both(row, leases, open, Worker(Reporting, StatePaused, 2, false, 0)).(reports := {report});
    SecondWorkerReports();
    var last := s.(observed := map[1 := Observation(2, "paused")]);
    Then(s, LandReport(report), last);
    assert Unexpired(last.leases, last.now, 1);
  }
}
