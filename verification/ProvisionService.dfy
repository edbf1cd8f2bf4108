/** internal/provision/service.go: establishing a stream once, and only confirming it afterwards. */
module ProvisionService {
  import opened Basics
  import opened Streams
  import opened Provision
  import opened Strings
  import ControlStore

  /** What establishing a capture does to the outside world, in the order in which it must happen. */
  datatype Effect = TopicEnsured | ConnectorEnsured | SeenReady | Registered

  const InOrder: seq<Effect> := [TopicEnsured, ConnectorEnsured, SeenReady, Registered]

  datatype Poll = Poll(status: Option<Status>, slot: Option<Slot>)

  predicate Ready(p: Poll) { p.status.Some? && p.slot.Some? && CaptureReady(p.status.value, p.slot.value) }

  /** The connector runs with all its tasks, of which there is one, and its slot still has its WAL. */
  predicate Capturing(p: Poll) {
    && p.status.Some? && p.status.value.connector == Running && !p.status.value.failed
    && p.status.value.tasks != [] && (forall task :: task in p.status.value.tasks ==> task == Running)
    && p.slot.Some? && p.slot.value.present && p.slot.value.wal != Lost && p.slot.value.wal != Unreserved
  }

  /** How the calls of one provisioning go; the polls are those made before the context ends. */
  datatype Answers = Answers(
    streamRead: bool, topic: Option<string>, connector: bool, polls: seq<Poll>, streamWritten: bool)

  /** How far establishing gets: each step is made only after the one before, and all of them if nothing fails. */
  function Steps(a: Answers, accepted: bool): (k: nat)
    ensures k <= 4
  {
    if a.topic == None then 0
    else if !a.connector then 1
    else if !SeenReadyIn(a.polls) then 2
    else if !(a.streamWritten && accepted) then 3
    else 4
  }

  predicate SeenReadyIn(polls: seq<Poll>) { exists i :: 0 <= i < |polls| && Capturing(polls[i]) }

  /** What RegisterStream accepts: a first registration, or the same again. */
  predicate Accepts(row: Option<Registration>, id: string, r: Registration) {
    id != "" && (row.Some? ==> row.value.(blocked := r.blocked) == r)
  }

  datatype Failure =
    NotConfirmed(problem: Problem) | WasBlocked(reason: string) | NowBlocked(reason: string) | CallFailed

  function Wording(b: Breach): string {
    match b
    case NoTable => "does not exist"
    case UnsupportedColumn(name) => "column has an unsupported type: " + name
    case MissingColumns(_) => "missing configured columns"
    case NoSerial => "serialColumn not found"
    case SerialNotInteger => "serialColumn must be int2, int4, or int8"
    case SerialNullable => "serialColumn must be NOT NULL"
    case SerialNotUnique => "serialColumn has no unique index on it alone"
    case NoPartitioning => "partitioningColumn not found"
    case PartitioningNullable => "partitioningColumn must be NOT NULL"
    case IdentityDiffers => "established identity differs from the source table"
    case NamesDiffer => "established capture names differ from configuration"
    case TopicMissing => "established topic is missing"
    case OtherTopic => "established topic has a different UUID"
    case OtherPartitionCount => "established partition count changed"
    case SlotMissing => "established slot is missing"
    case HistoryLost => "established slot has lost WAL history"
    case ConnectorMissing => "established connector is missing"
  }

  function Reason(source: Source, b: Breach): (r: string)
    ensures !Blank(r)
  {
    var r := "capture: table public." + source.table + ": " + Wording(b);
    assert r[0] == 'c';
    WordsAreNotBlank(r);
    r
  }

  /** What is wrong with the source table itself, before any registration is looked at. */
  function TableProblem(e: Expected, facts: Facts): Option<Problem> {
    match facts.table
    case Err(problem) => Some(problem)
    case Ok(table) =>
      match IdentityFrom(e.source, table, e.partitions)
      case Err(breach) => Some(Contract(breach))
      case Ok(_) => None
  }

  /**
   * A table that breaks the capture contract blocks its source on inspection, whatever is registered
   * and whatever else is found; provisioning, by the contract of ProvisionSource, only reports it.
   */
  lemma TableBreachBlocksOnInspection(e: Expected, facts: Facts)
    ensures IsContract(TableProblem(e, facts)) ==>
              Inspection(e, facts) == Blocked("source table violates capture contract") &&
                IsContract(Confirmation(e, facts))
    ensures TableProblem(e, facts) == Some(Unverified) ==>
              Inspection(e, facts) == Unavailable("source database unavailable")
  {
    InspectionInOrder(e, facts);
  }

  class Service {
    const store: ControlStore.Store
    /** What was done to the topic, the connector and the registration, oldest first. */
    ghost var effects: seq<Effect>

    constructor (store: ControlStore.Store)
      ensures this.store == store && effects == []
    {
      this.store := store;
      effects := [];
    }

    /** Polls until connector and slot are ready at the same time, or the context ends. */
    method AwaitCapture(polls: seq<Poll>) returns (ok: bool)
      modifies this`effects
      ensures ok <==> SeenReadyIn(polls)
      ensures effects == old(effects) + if ok then [SeenReady] else []
    {
      for i := 0 to |polls|
        invariant effects == old(effects)
        invariant forall j :: 0 <= j < i ==> !Capturing(polls[j])
      {
        if Ready(polls[i]) {
          effects := effects + [SeenReady];
          return true;
        }
      }
      return false;
    }

    /** Registers last, so that a registration points at a capture that was seen ready. */
    method Establish(e: Expected, identity: Identity, a: Answers) returns (r: Option<Registration>)
      requires store.Valid()
      modifies this`effects, store`streams, store`barred
      ensures store.Valid() && old(store.barred) <= store.barred
      ensures var accepted := a.topic.Some? &&
                Accepts(old(Row(e.source.id)), e.source.id, Registration(identity, e.names, a.topic.value, ""));
              effects == old(effects) + InOrder[..Steps(a, accepted)] && (r.Some? <==> Steps(a, accepted) == 4)
      ensures r == None ==> store.streams == old(store.streams)
      ensures r.Some? ==> exists i :: 0 <= i < |a.polls| && Capturing(a.polls[i])
      ensures r.Some? ==> a.topic.Some? && r.value == Registration(identity, e.names, a.topic.value, "")
      ensures r.Some? ==> store.streams == if e.source.id in old(store.streams) then old(store.streams)
                                           else old(store.streams)[e.source.id := r.value]
      ensures r.Some? ==> e.source.id in store.streams && store.streams[e.source.id].(blocked := "") == r.value
    {
      ghost var before := effects;
      assert before + InOrder[..0] == before;
      if a.topic == None { return None; }
      effects := effects + [TopicEnsured];
      assert effects == before + InOrder[..1];
      if !a.connector { return None; }
      effects := effects + [ConnectorEnsured];
      assert effects == before + InOrder[..2];
      var ready := AwaitCapture(a.polls);
      if !ready { return None; }
      assert effects == before + InOrder[..3];
      if !a.streamWritten { return None; }
      var registration := Registration(identity, e.names, a.topic.value, "");
      var ok := store.RegisterStream(e.source.id, registration);
      if !ok { return None; }
      effects := effects + [Registered];
      assert effects == before + InOrder[..4];
      return Some(registration);
    }

    /** Verifies what is registered; only a broken contract is made durable, and only once. */
    method ConfirmEstablished(e: Expected, identity: Identity, facts: Facts, a: Answers)
      returns (r: Result<Registration, Failure>)
      requires store.Valid() && e.source.id in store.streams && e.registered == store.streams[e.source.id]
      modifies store`streams, store`barred
      ensures store.Valid() && old(store.barred) <= store.barred
      ensures var problem := ValidateRegistered(e, identity, facts);
              && (r.Ok? <==> e.registered.blocked == "" && problem == None)
              && (r.Ok? ==> r.value == e.registered)
              && (r.Err? ==> r.error == if e.registered.blocked != "" then WasBlocked(e.registered.blocked)
                                        else if !IsContract(problem) then NotConfirmed(Unverified)
                                        else if !a.streamWritten then CallFailed
                                        else NowBlocked(Reason(e.source, problem.value.breach)))
              && store.streams == if e.registered.blocked == "" && IsContract(problem) && a.streamWritten
                 then old(store.streams)[e.source.id :=
                        e.registered.(blocked := Reason(e.source, problem.value.breach))]
                 else old(store.streams)
    {
      if e.registered.blocked != "" { return Err(WasBlocked(e.registered.blocked)); }
      match ValidateRegistered(e, identity, facts)
      case None => return Ok(e.registered);
      case Some(Unverified) => return Err(NotConfirmed(Unverified));
      case Some(Contract(breach)) =>
        if !a.streamWritten { return Err(CallFailed); }
        var ok := store.BlockSource(e.source.id, Reason(e.source, breach));
        return Err(NowBlocked(Reason(e.source, breach)));
    }

    /** The row of a source, as far as anything may compare it. */
    function Row(id: string): Option<Registration>
      reads this, store
    {
      if id in store.streams then Some(store.streams[id]) else None
    }

    /**
     * Provisioning is safe to repeat. A source that is registered is never established again and its
     * identity, names and topic never change; a source that is not is registered only after a capture
     * was ensured and seen ready. Success means the stored registration is the one returned, unblocked.
     */
    method ProvisionSource(expected: Expected, facts: Facts, a: Answers) returns (r: Result<Registration, Failure>)
      requires store.Valid()
      modifies this`effects, store`streams, store`barred
      ensures store.Valid() && old(store.barred) <= store.barred
      ensures r.Ok? ==> Row(expected.source.id) == Some(r.value) && r.value.blocked == ""
      ensures r.Ok? && old(Row(expected.source.id)) == None ==> exists i :: 0 <= i < |a.polls| && Capturing(a.polls[i])
      ensures TableProblem(expected, facts).Some? ==>
                && r == Err(NotConfirmed(TableProblem(expected, facts).value))
                && effects == old(effects) && store.streams == old(store.streams)
      ensures forall id :: id != expected.source.id ==> Row(id) == old(Row(id))
      ensures var was := old(Row(expected.source.id));
              if was.Some? then
                && effects == old(effects) && Row(expected.source.id).Some?
                && (Row(expected.source.id) != was ==>
                     && was.value.blocked == "" && IsContract(Confirmation(expected.(registered := was.value), facts))
                     && exists reason :: !Blank(reason)
                                         && Row(expected.source.id).value == was.value.(blocked := reason))
              else
                var k := if TableProblem(expected, facts).Some? || !a.streamRead then 0
                  else Steps(a, expected.source.id != "");
                effects == old(effects) + InOrder[..k]
                && (Row(expected.source.id).Some? <==> k == 4) && (r.Ok? <==> k == 4)
    {
      assert effects + InOrder[..0] == effects;
      if facts.table.Err? { return Err(NotConfirmed(facts.table.error)); }
      var id := expected.source.id;
      match IdentityFrom(expected.source, facts.table.value, expected.partitions) {
        case Err(breach) => return Err(NotConfirmed(Contract(breach)));
        case Ok(identity) =>
          if !a.streamRead { return Err(CallFailed); }
          if id in store.streams {
            r := ConfirmEstablished(expected.(registered := store.streams[id]), identity, facts, a);
          } else {
            var registered := Establish(expected, identity, a);
            r := if registered.Some? then Ok(registered.value) else Err(CallFailed);
          }
      }
    }
  }
}
