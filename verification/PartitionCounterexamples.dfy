/** Runs in which a guarantee fails because one of its assumptions does. */
module PartitionCounterexamples {
  import opened Basics
  import opened PartitionMachine
  import opened PartitionBounds
  import opened PartitionSafety
  import opened PartitionSkips
  import opened PartitionRecovery

  /** What a run is careful about. */
  datatype Care = Care(nothingLost: bool, landsInLog: bool, ownSkips: bool, oneAtATime: bool, sound: bool)

  const Careless := Care(false, false, false, false, false)
  const NothingLost := Care(true, true, false, false, true)
  const OwnSkips := Care(false, false, true, false, true)
  const OneAtATime := Care(false, false, false, true, true)
  const AllButLandings := Care(true, false, true, true, true)

  ghost predicate Fit(care: Care, s: State) { care.oneAtATime ==> OneLive(s) }

  ghost predicate StepFit(care: Care, s: State, step: Step) {
    && (care.nothingLost ==> LosesNothing(s, step))
    && (care.landsInLog ==> LandsInLog(s, step))
    && (care.ownSkips ==> OwnSkip(s, step))
    && (care.sound ==> TakesSoundly(s, step))
  }

  ghost predicate CarefulRun(care: Care, states: seq<State>, steps: seq<Step>) {
    && IsRun(states, steps) && (care.nothingLost ==> states[0].shared.logStart == 0)
    && (forall i :: 0 <= i < |states| ==> Fit(care, states[i]))
    && (forall i :: 0 <= i < |steps| ==> StepFit(care, states[i], steps[i]))
  }

  ghost predicate Reached(s: State, care: Care) {
    exists states: seq<State>, steps: seq<Step> :: CarefulRun(care, states, steps) && states[|steps|] == s
  }

  lemma Start(s: State, care: Care)
    requires Initial(s) && Fit(care, s) && s.shared.logStart == 0
    ensures Reached(s, care)
  {
    var states: seq<State>, steps: seq<Step> := [s], [];
    assert CarefulRun(care, states, steps);
  }

  lemma Then(s: State, step: Step, t: State, care: Care)
    requires Reached(s, care) && Enabled(s, step) && Apply(s, step) == t
    requires Fit(care, t) && StepFit(care, s, step)
    ensures Reached(t, care)
  {
    var states: seq<State>, steps: seq<Step> :| CarefulRun(care, states, steps) && states[|steps|] == s;
    Extend(states, steps, step);
    var more, all := states + [t], steps + [step];
    forall i | 0 <= i < |all|
      ensures StepFit(care, more[i], all[i])
    {
      assert i < |steps| ==> StepFit(care, states[i], steps[i]);
    }
    assert CarefulRun(care, more, all) && more[|all|] == t;
  }

  lemma ReachedFits(s: State, care: Care)
    requires Reached(s, care)
    ensures Fit(care, s)
  {
    var states: seq<State>, steps: seq<Step> :| CarefulRun(care, states, steps) && states[|steps|] == s;
    assert Fit(care, states[|steps|]);
  }

  // ----- one worker moving, the others standing still

  /** Worker id moves; the others stand still. */
  datatype Scene = Scene(care: Care, others: map<nat, Worker>, id: nat, nextId: nat) {
    function At(s: Shared, k: Worker): State { State(s, others[id := k], nextId) }

    ghost predicate Possible(s: Shared, k: Worker) { Reached(At(s, k), care) }
  }

  lemma Moves(c: Scene, s: Shared, k: Worker, step: Step, t: Shared, j: Worker)
    requires c.Possible(s, k) && !step.Env? && !step.Assign? && !step.Crash? && step.w == c.id
    requires MoveEnabled(s, k, step) && ApplyMove(s, k, step) == Move(t, j)
    requires Fit(c.care, c.At(t, j)) && (step.OnRecord? && step.call.Take? ==> k.sound)
    ensures c.Possible(t, j)
  {
    assert c.At(s, k).workers[c.id := j] == c.At(t, j).workers;
    Then(c.At(s, k), step, c.At(t, j), c.care);
  }

  function W(phase: Phase): Worker { FreshWorker.(phase := phase) }

  /** A partition with this many records, none consumed, owned by worker id. */
  function Unread(end: nat, id: nat): Shared {
    Shared(0, end, None, Some(id), {}, false, false, {}, {}, {}, {}, {})
  }

  /** The same after worker id has set the baseline and the marker. */
  function Based(end: nat, id: nat): Shared {
    Unread(end, id).(requests := {Request(id, 0)}, committed := Some(0), markSent := true, started := true)
  }

  lemma Assigned(care: Care, end: nat)
    ensures Scene(care, map[], 0, 1).Possible(Unread(end, 0), W(ReadCommitted))
  {
    var s := Unread(end, 0).(owner := None);
    Start(State(s, map[], 0), care);
    Then(State(s, map[], 0), Assign, Scene(care, map[], 0, 1).At(Unread(end, 0), W(ReadCommitted)), care);
  }

  /** An initialize of a partition without an offset, as far as the baseline. */
  lemma ReachesBaseline(c: Scene, s: Shared, k: Worker, end: nat)
    requires c.Possible(s, k) && k.phase.ReadCommitted? && (c.care.oneAtATime ==> c.others == map[])
    requires s.committed == None && s.logStart == 0 && s.logEnd == end && !s.started
    ensures c.Possible(s, k.(phase := Baseline(0, end), horizon := end))
  {
    var id, h := c.id, k.(horizon := end);
    Moves(c, s, k, Init(id, SeeCommitted), s, k.(phase := ReadStart(None)));
    Moves(c, s, k.(phase := ReadStart(None)), Init(id, SeeStart), s, k.(phase := ReadEnd(None, 0)));
    Moves(c, s, k.(phase := ReadEnd(None, 0)), Init(id, SeeEnd), s, h.(phase := ReadMarker(None, 0, end)));
    Moves(c, s, h.(phase := ReadMarker(None, 0, end)), Init(id, SeeMarker), s, h.(phase := Baseline(0, end)));
  }

  /** The baseline is acknowledged, and the marker is set. */
  lemma SetsBaseline(c: Scene, s: Shared, k: Worker, end: nat)
    requires c.Possible(s, k.(phase := Baseline(0, end))) && (c.care.oneAtATime ==> c.others == map[])
    requires k.owned && !k.cancelled && s.owner == Some(c.id)
    ensures c.Possible(s.(requests := s.requests + {Request(c.id, 0)}, committed := Some(0),
                          markSent := true, started := true),
                       k.(phase := Idle))
  {
    var id := c.id;
    var asked := s.(requests := s.requests + {Request(id, 0)});
    Moves(c, s, k.(phase := Baseline(0, end)), Commits(id, Check(true)), asked, k.(phase := BaselineWait(0, end)));
    var based := asked.(committed := Some(0), markSent := true);
    Moves(c, asked, k.(phase := BaselineWait(0, end)), Commits(id, Ack), based, k.(phase := Mark(0, 0, end)));
    Moves(c, based, k.(phase := Mark(0, 0, end)), Init(id, Marked), based.(started := true), k.(phase := Idle));
  }

  /** A first initialize that nobody disturbs. */
  lemma FirstInitializes(c: Scene, end: nat)
    requires c.Possible(Unread(end, c.id), W(ReadCommitted)) && (c.care.oneAtATime ==> c.others == map[])
    ensures c.Possible(Based(end, c.id), W(Idle).(horizon := end))
  {
    var k := W(ReadCommitted).(horizon := end);
    ReachesBaseline(c, Unread(end, c.id), W(ReadCommitted), end);
    SetsBaseline(c, Unread(end, c.id), k, end);
  }

  /** A later initialize finds the offset 0 committed and the marker set. */
  lemma LaterInitializes(c: Scene, s: Shared)
    requires c.Possible(s, W(ReadCommitted)) && (c.care.oneAtATime ==> c.others == map[])
    requires s.committed == Some(0) && s.logStart == 0 && s.started && s.markSent
    ensures c.Possible(s, W(Idle).(horizon := s.logEnd))
  {
    var id, end := c.id, s.logEnd;
    Moves(c, s, W(ReadCommitted), Init(id, SeeCommitted), s, W(ReadStart(Some(0))));
    Moves(c, s, W(ReadStart(Some(0))), Init(id, SeeStart), s, W(ReadEnd(Some(0), 0)));
    var k := W(ReadMarker(Some(0), 0, end)).(horizon := end);
    Moves(c, s, W(ReadEnd(Some(0), 0)), Init(id, SeeEnd), s, k);
    Moves(c, s, k, Init(id, SeeMarker), s, k.(phase := Mark(0, 0, end)));
    Moves(c, s, k.(phase := Mark(0, 0, end)), Init(id, Marked), s, k.(phase := Idle));
  }

  /** An idle worker about to send the first record. */
  function Sending(k: Worker): Worker {
    k.(phase := Send(false), resolved := true, sound := true, next := 0, fetched := 1)
  }

  /** An idle worker fetches the first record, finds no skip and lets it through the filter. */
  lemma TakesFirst(c: Scene, s: Shared, k: Worker)
    requires c.Possible(s, k) && k.phase.Idle? && !k.resolved && !k.cancelled
    requires s.committed == Some(0) && s.logStart == 0 < s.logEnd && 0 !in s.skips
    requires c.care.oneAtATime ==> c.others == map[]
    ensures c.Possible(s, Sending(k))
  {
    var at := k.(resolved := true, sound := true, next := 0, fetched := 0);
    var j := at.(fetched := 1);
    Moves(c, s, k, Around(c.id, Resolve), s, at);
    Moves(c, s, at, Around(c.id, Fetch(1)), s, j);
    Moves(c, s, j, OnRecord(c.id, Take), s, j.(phase := Lookup));
    Moves(c, s, j.(phase := Lookup), OnRecord(c.id, LookedUp), s, j.(phase := Filter));
    Moves(c, s, j.(phase := Filter), OnRecord(c.id, FilterPass), s, Sending(k));
  }

  /** The destination rejects the first record for good. */
  lemma Rejected(c: Scene, s: Shared, k: Worker)
    requires c.Possible(s, Sending(k)) && (c.care.oneAtATime ==> c.others == map[])
    requires s.committed == Some(0) && s.logStart == 0
    ensures c.Possible(s.(audits := s.audits + {0}), Sending(k).(phase := Audit))
  {
    var j := Sending(k);
    Moves(c, s, j, OnRecord(c.id, Attempt), s, j.(phase := Send(true)));
    Moves(c, s, j.(phase := Send(true)), OnRecord(c.id, Answer(Skipped)),
          s.(audits := s.audits + {0}), j.(phase := Audit));
  }

  // ----- a baseline set behind a slow reader's back

  /** Worker 0 has read "no offset" and then lost the partition to worker 1. */
  lemma LateReader()
    ensures Scene(NothingLost, map[0 := W(ReadStart(None))], 1, 2).Possible(Unread(0, 1), W(ReadCommitted))
  {
    var c := Scene(NothingLost, map[], 0, 1);
    var k := W(ReadStart(None));
    Assigned(NothingLost, 0);
    Moves(c, Unread(0, 0), W(ReadCommitted), Init(0, SeeCommitted), Unread(0, 0), k);
    Then(c.At(Unread(0, 0), k), Assign,
         Scene(NothingLost, map[0 := k], 1, 2).At(Unread(0, 1), W(ReadCommitted)), NothingLost);
  }

  /**
   * Nothing is lost, yet the source is blocked for good: worker 0 reads "no offset", loses the
   * partition, worker 1 sets the baseline and the marker, and worker 0 reads the marker. Hence
   * InitializeIsCrashSafe asks that live workers do not overlap.
   */
  lemma OverlapBlocks()
    ensures exists states: seq<State>, steps: seq<Step> ::
              IsRun(states, steps) && Lossless(states, steps) && LandInLog(states, steps) &&
              EstablishedLost in states[|steps|].shared.blocks
  {
    var s, mine := Based(0, 1), W(Idle);
    var late := Scene(NothingLost, map[1 := mine], 0, 2);
    LateReader();
    FirstInitializes(Scene(NothingLost, map[0 := W(ReadStart(None))], 1, 2), 0);
    assert Scene(NothingLost, map[0 := W(ReadStart(None))], 1, 2).At(s, mine) == late.At(s, W(ReadStart(None)));
    Moves(late, s, W(ReadStart(None)), Init(0, SeeStart), s, W(ReadEnd(None, 0)));
    Moves(late, s, W(ReadEnd(None, 0)), Init(0, SeeEnd), s, W(ReadMarker(None, 0, 0)));
    LateReaderBlocks(late, s);
  }

  lemma LateReaderBlocks(late: Scene, s: Shared)
    requires late.care == NothingLost && late.Possible(s, W(ReadMarker(None, 0, 0)))
    requires s.started && s.committed == Some(0) && s.logStart == 0
    ensures exists states: seq<State>, steps: seq<Step> ::
              IsRun(states, steps) && Lossless(states, steps) && LandInLog(states, steps) &&
              EstablishedLost in states[|steps|].shared.blocks
  {
    var t := s.(blocks := s.blocks + {EstablishedLost});
    var k := W(Done).(cancelled := true);
    Moves(late, s, W(ReadMarker(None, 0, 0)), Init(late.id, SeeMarker), t, k);
    var states: seq<State>, steps: seq<Step> :|
      CarefulRun(NothingLost, states, steps) && states[|steps|] == late.At(t, k);
    assert forall i :: 0 <= i < |steps| ==>
      StepFit(NothingLost, states[i], steps[i]) && LosesNothing(states[i], steps[i]) && LandsInLog(states[i], steps[i]);
  }

  // ----- a commit that lands below the log start

  /** The baseline commit fails and stays in flight; its retry succeeds. */
  lemma BaselineRetried()
    ensures Scene(AllButLandings, map[], 0, 1).Possible(Based(1, 0), W(Idle).(horizon := 1))
  {
    var c, s, k := Scene(AllButLandings, map[], 0, 1), Unread(1, 0), W(ReadCommitted).(horizon := 1);
    var asked := s.(requests := {Request(0, 0)});
    Assigned(AllButLandings, 1);
    ReachesBaseline(c, s, W(ReadCommitted), 1);
    Moves(c, s, k.(phase := Baseline(0, 1)), Commits(0, Check(true)), asked, k.(phase := BaselineWait(0, 1)));
    Moves(c, asked, k.(phase := BaselineWait(0, 1)), Commits(0, Fail), asked, k);
    ReachesBaseline(c, asked, k, 1);
    SetsBaseline(c, asked, k, 1);
    assert asked.requests + {Request(0, 0)} == {Request(0, 0)};
  }

  /** The first record is delivered and committed. */
  const Consumed := Based(1, 0).(requests := {Request(0, 0), Request(0, 1)}, committed := Some(1), delivered := {0})

  lemma FirstConsumed()
    ensures Scene(AllButLandings, map[], 0, 1).Possible(Consumed, Early.(phase := Idle, next := 1))
  {
    var c, s := Scene(AllButLandings, map[], 0, 1), Based(1, 0);
    BaselineRetried();
    TakesFirst(c, s, W(Idle).(horizon := 1));
    Moves(c, s, Early, OnRecord(0, Attempt), s, Early.(phase := Send(true)));
    var sent := s.(delivered := {0});
    Moves(c, s, Early.(phase := Send(true)), OnRecord(0, Answer(Delivered)), sent, Early.(phase := Commit));
    var asked := sent.(requests := {Request(0, 0), Request(0, 1)});
    Moves(c, sent, Early.(phase := Commit), Commits(0, Check(true)), asked, Early.(phase := CommitWait));
    Moves(c, asked, Early.(phase := CommitWait), Commits(0, Ack), Consumed, Early.(phase := Idle, next := 1));
  }

  /** Retention stops at the committed offset, and then the baseline that had failed lands. */
  lemma BaselineLandsLate()
    ensures Scene(AllButLandings, map[], 0, 1).Possible(
              Consumed.(logStart := 1, committed := Some(0)), Early.(phase := Idle, next := 1))
  {
    var c, k := Scene(AllButLandings, map[], 0, 1), Early.(phase := Idle, next := 1);
    var s := Consumed.(logStart := 1);
    FirstConsumed();
    Then(c.At(Consumed, k), Env(Truncate(1)), c.At(s, k), AllButLandings);
    Then(c.At(s, k), Env(Land(Request(0, 0))), c.At(s.(committed := Some(0)), k), AllButLandings);
  }

  /** The worker alive, if there is one, crashes. */
  lemma AllOver(s: State, care: Care) returns (others: map<nat, Worker>)
    requires Reached(s, care) && care.oneAtATime
    ensures Reached(s.(workers := others), care) && forall w :: w in others ==> others[w].phase.Done?
  {
    others := s.workers;
    if w :| Live(s, w) {
      OnlyLive(s, care, w);
      others := s.workers - {w};
      assert forall v :: Live(s.(workers := others), v) ==> Live(s, v);
      Then(s, Crash(w), s.(workers := others), care);
    }
    assert forall v :: v in others ==> !Live(s.(workers := others), v);
  }

  lemma OnlyLive(s: State, care: Care, w: nat)
    requires Reached(s, care) && care.oneAtATime && Live(s, w)
    ensures OneLive(s) && forall v :: Live(s, v) ==> v == w
  {
    ReachedFits(s, care);
  }

  /** A worker that takes a partition whose offset lies below the log start blocks the source. */
  lemma NextWorkerBlocks(c: Scene, s: Shared)
    requires c.Possible(s, W(ReadCommitted)) && forall w :: w in c.others ==> c.others[w].phase.Done?
    requires s.committed.Some? && s.committed.value < s.logStart
    ensures c.Possible(s.(blocks := s.blocks + {OutsideHistory}), W(Done).(cancelled := true, horizon := s.logEnd))
  {
    var id, read, first, last := c.id, s.committed, s.logStart, s.logEnd;
    var k := W(ReadMarker(read, first, last)).(horizon := last);
    Moves(c, s, W(ReadCommitted), Init(id, SeeCommitted), s, W(ReadStart(read)));
    Moves(c, s, W(ReadStart(read)), Init(id, SeeStart), s, W(ReadEnd(read, first)));
    Moves(c, s, W(ReadEnd(read, first)), Init(id, SeeEnd), s, k);
    Moves(c, s, k, Init(id, SeeMarker), s.(blocks := s.blocks + {OutsideHistory}),
          k.(phase := Done, cancelled := true));
  }

  /**
   * The condition of InitializeIsCrashSafe is exact: whenever such a run has left the committed offset
   * below the log start, one that goes on from there blocks the source for lost history.
   */
  lemma StaleOffsetBlocks(s: State, care: Care) returns (t: State)
    requires Reached(s, care) && care.oneAtATime
    requires s.shared.committed.Some? && s.shared.committed.value < s.shared.logStart
    ensures Reached(t, care) && OutsideHistory in t.shared.blocks
    ensures t.shared.(blocks := {}, owner := None) == s.shared.(blocks := {}, owner := None)
  {
    var others := AllOver(s, care);
    var c, shared := Scene(care, others, s.nextId, s.nextId + 1), s.shared.(owner := Some(s.nextId));
    assert OneLive(c.At(shared, W(ReadCommitted)));
    Then(s.(workers := others), Assign, c.At(shared, W(ReadCommitted)), care);
    NextWorkerBlocks(c, shared);
    t := c.At(shared.(blocks := shared.blocks + {OutsideHistory}),
              W(Done).(cancelled := true, horizon := shared.logEnd));
  }

  /**
   * Kafka loses nothing, one worker is alive at a time, every skip is stored by its own worker, and
   * the source is blocked for good: a baseline commit that had failed lands after its partition was
   * consumed and cleaned up to the committed offset.
   */
  lemma LateBaselineBlocks()
    ensures exists states: seq<State>, steps: seq<Step> ::
              && IsRun(states, steps) && Lossless(states, steps) && SoundTakes(states, steps)
              && (forall i :: 0 <= i < |states| ==> OneLive(states[i]))
              && OutsideHistory in states[|steps|].shared.blocks
  {
    BaselineLandsLate();
    var s := Scene(AllButLandings, map[], 0, 1).At(
               Consumed.(logStart := 1, committed := Some(0)), Early.(phase := Idle, next := 1));
    var t := StaleOffsetBlocks(s, AllButLandings);
    var states: seq<State>, steps: seq<Step> :| CarefulRun(AllButLandings, states, steps) && states[|steps|] == t;
    SoundlyCareful(AllButLandings, states, steps);
    assert forall i :: 0 <= i < |steps| ==>
      StepFit(AllButLandings, states[i], steps[i]) && LosesNothing(states[i], steps[i]);
  }

  // ----- a stored skip that is sent again

  /** A worker is about to attempt a record whose skip is stored. */
  ghost predicate Resends(s: State, w: nat) {
    && w in s.workers && Enabled(s, OnRecord(w, Attempt)) && s.workers[w].next in s.shared.skips
  }

  /** A worker that will not look up its next record: it has passed the lookup, or the record needs none. */
  predicate LooksNoMore(k: Worker) {
    k.phase.MaySend() || ((k.phase.Lookup? || (k.phase.Idle? && HasRecord(k))) && k.horizon <= k.next)
  }

  /** A worker that is alive goes on to another phase in which it is. */
  lemma StaysFit(c: Scene, s: Shared, t: Shared, k: Worker, j: Worker)
    requires Fit(c.care, c.At(s, k)) && !k.phase.Done? && !j.phase.Done?
    ensures Fit(c.care, c.At(t, j))
  {
    assert forall w :: Live(c.At(t, j), w) ==> Live(c.At(s, k), w);
  }

  lemma GoesOn(c: Scene, s: Shared, k: Worker, call: RecordCall, phase: Phase)
    requires c.Possible(s, k) && RecordEnabled(k, call) && (c.care.sound ==> k.sound)
    requires ApplyRecord(s, k, call) == Move(s, k.(phase := phase)) && !k.phase.Done? && !phase.Done?
    ensures c.Possible(s, k.(phase := phase))
  {
    ReachedFits(c.At(s, k), c.care);
    StaysFit(c, s, s, k, k.(phase := phase));
    assert c.At(s, k).workers[c.id := k.(phase := phase)] == c.At(s, k.(phase := phase)).workers;
    Then(c.At(s, k), OnRecord(c.id, call), c.At(s, k.(phase := phase)), c.care);
  }

  /** Such a worker comes to attempt the record. */
  lemma ComesToSend(c: Scene, s: Shared, k: Worker) returns (j: Worker)
    requires c.Possible(s, k) && LooksNoMore(k) && (c.care.sound ==> k.sound)
    ensures c.Possible(s, j) && j.phase.Send? && j.next == k.next
  {
    j := k;
    if j.phase.Idle? {
      GoesOn(c, s, j, Take, Lookup);
      j := j.(phase := Lookup);
    }
    if j.phase.Lookup? {
      GoesOn(c, s, j, LookedUp, Filter);
      j := j.(phase := Filter);
    }
    if j.phase.Filter? {
      GoesOn(c, s, j, FilterPass, Send(false));
      j := j.(phase := Send(false));
    }
  }

  /**
   * What explains a resend is enough for one: from any state that a run has reached, a worker that will
   * not look up its next record comes to send it, though its skip is stored, or is on its way and lands.
   */
  lemma MissedSkipResends(s: State, care: Care, w: nat) returns (t: State)
    requires Reached(s, care) && w in s.workers && LooksNoMore(s.workers[w]) && (care.sound ==> s.workers[w].sound)
    requires var o := s.workers[w].next; o in s.shared.skips || (o in s.shared.audits && !care.ownSkips)
    ensures Reached(t, care) && Resends(t, w) && t.workers[w].next == s.workers[w].next
  {
    var c, k := Scene(care, s.workers, w, s.nextId), s.workers[w];
    var stored := s.shared.(skips := s.shared.skips + {k.next});
    assert c.At(s.shared, k) == s;
    if k.next in s.shared.skips {
      assert stored.skips == s.shared.skips;
    } else {
      ReachedFits(s, care);
      StaysFit(c, s.shared, stored, k, k);
      Then(s, Env(LandSkip(k.next)), c.At(stored, k), care);
    }
    var j := ComesToSend(c, stored, k);
    t := c.At(stored, j);
  }

  /** A worker about to send the only record there was when it initialized. */
  const Early := Sending(W(Idle).(horizon := 1))

  lemma FirstSending(care: Care)
    ensures Scene(care, map[], 0, 1).Possible(Based(1, 0), Early)
  {
    var c := Scene(care, map[], 0, 1);
    Assigned(care, 1);
    FirstInitializes(c, 1);
    TakesFirst(c, Based(1, 0), W(Idle).(horizon := 1));
  }

  /** The partition goes to worker 1 while worker 0 is about to send the first record. */
  lemma OverlapBegins()
    ensures Scene(OwnSkips, map[0 := Early], 1, 2).Possible(Based(1, 0).(owner := Some(1)), W(ReadCommitted))
  {
    var s := Based(1, 0).(owner := Some(1));
    FirstSending(OwnSkips);
    Then(Scene(OwnSkips, map[], 0, 1).At(Based(1, 0), Early), Assign,
         Scene(OwnSkips, map[0 := Early], 1, 2).At(s, W(ReadCommitted)), OwnSkips);
  }

  lemma NewerStoresSkip()
    ensures Scene(OwnSkips, map[0 := Early], 1, 2).Possible(
              Based(1, 0).(owner := Some(1), audits := {0}, skips := {0}), Early.(phase := Commit))
  {
    var c, s, k := Scene(OwnSkips, map[0 := Early], 1, 2), Based(1, 0).(owner := Some(1)), W(Idle).(horizon := 1);
    OverlapBegins();
    LaterInitializes(c, s);
    TakesFirst(c, s, k);
    Rejected(c, s, k);
    Moves(c, s.(audits := {0}), Early.(phase := Audit), OnRecord(1, SkipStored),
          s.(audits := {0}, skips := {0}), Early.(phase := Commit));
  }

  /**
   * Every skip row appears while its own worker waits for it, yet an older worker that overlaps,
   * past its lookup, sends the record after a newer one has stored its skip.
   */
  lemma OverlapResends()
    ensures exists states: seq<State>, steps: seq<Step> ::
              && IsRun(states, steps) && SoundTakes(states, steps) && Resends(states[|steps|], 0)
              && forall i :: 0 <= i < |steps| ==> OwnSkip(states[i], steps[i])
  {
    NewerStoresSkip();
    var t := Based(1, 0).(owner := Some(1), audits := {0}, skips := {0});
    var last := Scene(OwnSkips, map[0 := Early], 1, 2).At(t, Early.(phase := Commit));
    var states: seq<State>, steps: seq<Step> :| CarefulRun(OwnSkips, states, steps) && states[|steps|] == last;
    SoundlyCareful(OwnSkips, states, steps);
    assert Resends(last, 0);
  }

  lemma SoundlyCareful(care: Care, states: seq<State>, steps: seq<Step>)
    requires CarefulRun(care, states, steps) && care.sound
    ensures SoundTakes(states, steps)
    ensures care.ownSkips ==> forall i :: 0 <= i < |steps| ==> OwnSkip(states[i], steps[i])
    ensures care.oneAtATime ==> forall i :: 0 <= i < |states| ==> OneLive(states[i])
  {
    forall i | 0 <= i < |steps|
      ensures TakesSoundly(states[i], steps[i]) && (care.ownSkips ==> OwnSkip(states[i], steps[i]))
    {
      assert StepFit(care, states[i], steps[i]);
    }
    assert forall i :: 0 <= i < |states| ==> Fit(care, states[i]);
  }

  /** Worker 0 crashes with its skip row still on the way, and worker 1 takes the partition. */
  lemma CrashesBeforeSkip()
    ensures Scene(OneAtATime, map[], 1, 2).Possible(Based(1, 0).(audits := {0}, owner := Some(1)), W(ReadCommitted))
  {
    var c0, s := Scene(OneAtATime, map[], 0, 1), Based(1, 0).(audits := {0});
    FirstSending(OneAtATime);
    Rejected(c0, Based(1, 0), W(Idle).(horizon := 1));
    assert c0.At(s, Early.(phase := Audit)).workers - {0} == map[];
    Then(c0.At(s, Early.(phase := Audit)), Crash(0), State(s, map[], 1), OneAtATime);
    Then(State(s, map[], 1), Assign,
         Scene(OneAtATime, map[], 1, 2).At(s.(owner := Some(1)), W(ReadCommitted)), OneAtATime);
  }

  lemma SkipLandsLate()
    ensures Scene(OneAtATime, map[], 1, 2).Possible(Based(1, 0).(audits := {0}, owner := Some(1), skips := {0}), Early)
  {
    var c, t := Scene(OneAtATime, map[], 1, 2), Based(1, 0).(audits := {0}, owner := Some(1));
    CrashesBeforeSkip();
    LaterInitializes(c, t);
    TakesFirst(c, t, W(Idle).(horizon := 1));
    Then(c.At(t, Early), Env(LandSkip(0)), c.At(t.(skips := {0}), Early), OneAtATime);
  }

  /**
   * Workers never overlap, yet a skip row whose worker has crashed is stored late, after the next
   * worker has looked it up, and that worker sends the record.
   */
  lemma LateSkipResends()
    ensures exists states: seq<State>, steps: seq<Step> ::
              && IsRun(states, steps) && SoundTakes(states, steps) && Resends(states[|steps|], 1)
              && forall i :: 0 <= i < |states| ==> OneLive(states[i])
  {
    SkipLandsLate();
    var last := Scene(OneAtATime, map[], 1, 2).At(Based(1, 0).(audits := {0}, owner := Some(1), skips := {0}), Early);
    var states: seq<State>, steps: seq<Step> :| CarefulRun(OneAtATime, states, steps) && states[|steps|] == last;
    SoundlyCareful(OneAtATime, states, steps);
    assert Resends(last, 1);
  }

  // ----- a log that loses its beginning during the first initialize

  /** Two records of which retention has removed the first. */
  const Gap := Based(2, 0).(logStart := 1)

  /** The worker positioned at the second record. */
  const Past := W(Idle).(resolved := true, next := 1, fetched := 2, horizon := 2)

  /** The worker has read a log start of 0; retention moves it to 1 before the client looks. */
  lemma PositionedPastFirst()
    ensures var k := W(ReadEnd(None, 0)).(resolved := true, next := 1, fetched := 1);
            Scene(Careless, map[], 0, 1).Possible(Unread(2, 0).(logStart := 1), k)
  {
    var c, s, k := Scene(Careless, map[], 0, 1), Unread(2, 0), W(ReadEnd(None, 0));
    Assigned(Careless, 2);
    Moves(c, s, W(ReadCommitted), Init(0, SeeCommitted), s, W(ReadStart(None)));
    Moves(c, s, W(ReadStart(None)), Init(0, SeeStart), s, k);
    var t := s.(logStart := 1);
    Then(c.At(s, k), Env(Truncate(1)), c.At(t, k), Careless);
    Moves(c, t, k, Around(0, Resolve), t, k.(resolved := true, next := 1, fetched := 1));
  }

  lemma BaselineOverGap()
    ensures Scene(Careless, map[], 0, 1).Possible(Gap, Past)
  {
    var c, s := Scene(Careless, map[], 0, 1), Unread(2, 0).(logStart := 1);
    var k := W(ReadEnd(None, 0)).(resolved := true, next := 1, fetched := 1);
    var h := k.(horizon := 2);
    PositionedPastFirst();
    Moves(c, s, k, Init(0, SeeEnd), s, h.(phase := ReadMarker(None, 0, 2)));
    Moves(c, s, h.(phase := ReadMarker(None, 0, 2)), Init(0, SeeMarker), s, h.(phase := Baseline(0, 2)));
    var asked := s.(requests := {Request(0, 0)});
    Moves(c, s, h.(phase := Baseline(0, 2)), Commits(0, Check(true)), asked, h.(phase := BaselineWait(0, 2)));
    GapMarked(c, asked, h);
  }

  lemma GapMarked(c: Scene, asked: Shared, h: Worker)
    requires c == Scene(Careless, map[], 0, 1) && asked == Unread(2, 0).(logStart := 1, requests := {Request(0, 0)})
    requires h == W(ReadEnd(None, 0)).(resolved := true, next := 1, fetched := 1, horizon := 2)
    requires c.Possible(asked, h.(phase := BaselineWait(0, 2)))
    ensures c.Possible(Gap, Past)
  {
    var based := asked.(committed := Some(0), markSent := true);
    Moves(c, asked, h.(phase := BaselineWait(0, 2)), Commits(0, Ack), based, h.(phase := Mark(0, 0, 2)));
    Moves(c, based, h.(phase := Mark(0, 0, 2)), Init(0, Marked), Gap, h.(phase := Idle));
    Moves(c, Gap, h.(phase := Idle), Around(0, Fetch(1)), Gap, Past);
  }

  lemma SecondRecordSent()
    ensures Scene(Careless, map[], 0, 1).Possible(Gap.(delivered := {1}), Past.(phase := Commit))
  {
    var c, s, k := Scene(Careless, map[], 0, 1), Gap, Past.(sound := false);
    BaselineOverGap();
    Unsoundly(c, s, k);
    Moves(c, s, k.(phase := Lookup), OnRecord(0, LookedUp), s, k.(phase := Filter));
    Moves(c, s, k.(phase := Filter), OnRecord(0, FilterPass), s, k.(phase := Send(false)));
    Moves(c, s, k.(phase := Send(false)), OnRecord(0, Attempt), s, k.(phase := Send(true)));
    Moves(c, s, k.(phase := Send(true)), OnRecord(0, Answer(Delivered)), s.(delivered := {1}), k.(phase := Commit));
  }

  /** A careless run takes a record that the fetching assumption would not let it take. */
  lemma Unsoundly(c: Scene, s: Shared, k: Worker)
    requires c.care == Careless && c.Possible(s, k) && k.phase.Idle? && HasRecord(k)
    ensures c.Possible(s, k.(phase := Lookup))
  {
    assert c.At(s, k).workers[c.id := k.(phase := Lookup)] == c.At(s, k.(phase := Lookup)).workers;
    Then(c.At(s, k), OnRecord(c.id, Take), c.At(s, k.(phase := Lookup)), c.care);
  }

  /**
   * Without the fetching assumption an unfinished record can end up below the committed
   * offset: record 0 is dropped by retention after initialize has read the log start and
   * before the Kafka client starts there, so record 1 is delivered and committed.
   */
  lemma RetentionDuringInitializeLosesRecord()
    ensures exists states: seq<State>, steps: seq<Step> ::
              IsRun(states, steps) && states[|steps|].shared.committed == Some(2) &&
              !Terminal(states[|steps|].shared, 0)
  {
    var c, sent, k := Scene(Careless, map[], 0, 1), Gap.(delivered := {1}), Past;
    SecondRecordSent();
    var asked := sent.(requests := {Request(0, 0), Request(0, 2)});
    Moves(c, sent, k.(phase := Commit), Commits(0, Check(true)), asked, k.(phase := CommitWait));
    var done, j := asked.(committed := Some(2)), k.(phase := Idle, next := 2);
    Moves(c, asked, k.(phase := CommitWait), Commits(0, Ack), done, j);
    assert !Terminal(c.At(done, j).shared, 0);
    var states: seq<State>, steps: seq<Step> :| CarefulRun(Careless, states, steps) && states[|steps|] == c.At(done, j);
  }
}
