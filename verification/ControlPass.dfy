/** One subscription of one worker, and how a pass over it is a sequence of the machine's steps. */
module ControlPass {
  import opened Basics
  import opened ControlStore
  import opened ControlMachine

  /** One destination's state; consumer is an index into the service's instances. */
  datatype Subscription = Subscription(view: View, desired: Option<Desired>, error: string,
                                       revision: nat, consumer: Option<nat>)

  function RestingView(desired: Desired, reason: string): (View, string) {
    if desired.Paused? then (StatePaused, "") else (StateBlocked, reason)
  }

  /** What a pass does about a row. */
  predicate DoneAs(s: Subscription, row: Row) {
    && s.desired == Some(row.desired)
    && (row.desired.Paused? ==> s.view.StatePaused? && s.revision == row.revision && s.consumer == None)
    && (row.desired.Running? ==> !s.view.StatePaused?)
    && (s.view.StateRunning? ==> s.revision == row.revision)
  }

  /** What a pass must leave behind for one subscription. */
  predicate Consistent(s: Subscription) {
    && (s.view.StatePaused? ==> s.consumer == None && s.revision > 0 && s.revision % 2 == 0)
    && (s.view.StateRunning? ==> s.consumer.Some? && s.revision % 2 == 1)
  }

  /** What stopAll makes of a subscription. */
  function StoppedOf(s: Subscription): Subscription {
    if s.consumer.Some?
    then s.(consumer := None, view := StateBlocked, error := "engine dependencies unavailable")
    else s
  }

  predicate Rested(before: Subscription, after: Subscription, row: Row, reason: string) {
    && after.consumer == None && after.revision == row.revision
    && (after.view, after.error) == RestingView(row.desired, reason)
  }

  /** The three ways a subscription that may run ends its turn. */
  predicate Consumed(before: Subscription, after: Subscription, row: Row) {
    || (after.view.StateBlocked? && after.consumer == None && after.revision == before.revision)
    || (after.view.StateRunning? && after.consumer.Some? && after.revision == row.revision)
    || (after.view.StateStarting? && after.consumer.Some? && after.revision == before.revision)
  }

  // ----- the machine's steps

  /** The machine's picture of a subscription: a worker at a stage of its pass; made is its consumer's revision. */
  function Picture(s: Subscription, stage: Stage, made: nat): Worker {
    Worker(stage, s.view, s.revision, s.consumer.Some?, made)
  }

  ghost predicate Leads(before: Subscription, after: Subscription, row: Row, made: nat) {
    exists passes: seq<Pass>, remade: nat ::
      Play(Picture(before, HasRow(row), made), row, passes) == Some(Picture(after, Applied, remade))
  }

  /** Steps of the machine lead from before, with the row at hand, to after, whatever revision its consumer has. */
  ghost predicate IsPass(before: Subscription, after: Subscription, row: Row) {
    forall made: nat :: Leads(before, after, row, made)
  }

  lemma PlayOne(k: Worker, row: Row, pass: Pass)
    requires PassEnabled(k, pass)
    ensures Play(k, row, [pass]) == Some(ApplyPass(k, row, pass))
  {
    PlayNext(k, row, pass, []);
    assert [pass] + [] == [pass];
  }

  lemma PlayNext(k: Worker, row: Row, pass: Pass, rest: seq<Pass>)
    requires PassEnabled(k, pass)
    ensures Play(k, row, [pass] + rest) == Play(ApplyPass(k, row, pass), row, rest)
  {
    assert ([pass] + rest)[0] == pass && ([pass] + rest)[1..] == rest;
  }

  lemma PlayTwo(k: Worker, row: Row, first: Pass, second: Pass)
    requires PassEnabled(k, first) && PassEnabled(ApplyPass(k, row, first), second)
    ensures Play(k, row, [first] + [second]) == Some(ApplyPass(ApplyPass(k, row, first), row, second))
  {
    PlayNext(k, row, first, [second]);
    PlayOne(ApplyPass(k, row, first), row, second);
  }

  lemma RestIsPass(before: Subscription, after: Subscription, row: Row, reason: string)
    requires Rested(before, after, row, reason)
    ensures IsPass(before, after, row)
  {
    forall made: nat
      ensures Leads(before, after, row, made)
    {
      var k := Picture(before, HasRow(row), made);
      if before.consumer.Some? {
        var j := ApplyPass(k, row, RestBegins);
        PlayNext(k, row, RestBegins, [RestStopped] + [RestApplied]);
        PlayTwo(j, row, RestStopped, RestApplied);
        assert Play(k, row, [RestBegins] + ([RestStopped] + [RestApplied])) == Some(Picture(after, Applied, made));
      } else {
        PlayTwo(k, row, RestBegins, RestApplied);
        assert Play(k, row, [RestBegins] + [RestApplied]) == Some(Picture(after, Applied, made));
      }
    }
  }

  lemma ConsumeIsPass(before: Subscription, after: Subscription, row: Row)
    requires Consumed(before, after, row) && row.desired.Running?
    ensures IsPass(before, after, row)
  {
    forall made: nat
      ensures Leads(before, after, row, made)
    {
      if after.view.StateBlocked? {
        NoConsumerLeads(before, after, row, made);
      } else {
        ConsumerLeads(before, after, row, made);
      }
    }
  }

  lemma NoConsumerLeads(before: Subscription, after: Subscription, row: Row, made: nat)
    requires Consumed(before, after, row) && row.desired.Running? && after.view.StateBlocked?
    ensures Leads(before, after, row, made)
  {
    var k := Picture(before, HasRow(row), made);
    if before.consumer.Some? {
      PlayTwo(k, row, DropFinished, CreateFails);
      assert Play(k, row, [DropFinished] + [CreateFails]) == Some(Picture(after, Applied, made));
    } else {
      PlayOne(k, row, CreateFails);
      assert Play(k, row, [CreateFails]) == Some(Picture(after, Applied, made));
    }
  }

  lemma ConsumerLeads(before: Subscription, after: Subscription, row: Row, made: nat)
    requires Consumed(before, after, row) && row.desired.Running? && !after.view.StateBlocked?
    ensures Leads(before, after, row, made)
  {
    var k, last := Picture(before, HasRow(row), made), Progress(after.view.StateRunning?);
    if before.consumer.Some? {
      PlayTwo(k, row, Keep, last);
      assert Play(k, row, [Keep] + [last]) == Some(Picture(after, Applied, made));
    } else {
      PlayTwo(k, row, Create, last);
      assert Play(k, row, [Create] + [last]) == Some(Picture(after, Applied, row.revision));
    }
  }

  /** Stopping everything is two steps of the machine, wherever the pass stood. */
  lemma StopIsPass(before: Subscription, stage: Stage, row: Row, made: nat)
    ensures Play(Picture(before, stage, made), row, [Degrade] + [StopAll]) ==
              Some(Picture(StoppedOf(before), Between, made))
  {
    PlayTwo(Picture(before, stage, made), row, Degrade, StopAll);
  }

  /** What is desired is no part of a worker's picture. */
  lemma SamePicture(was: Subscription, before: Subscription, after: Subscription, row: Row)
    requires before == was.(desired := Some(row.desired)) && IsPass(before, after, row)
    ensures IsPass(was, after, row)
  {
    forall made: nat
      ensures Leads(was, after, row, made)
    {
      assert Leads(before, after, row, made);
      assert Picture(was, HasRow(row), made) == Picture(before, HasRow(row), made);
    }
  }
}
